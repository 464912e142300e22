/** How the leader's history grows along a run. */
module PipelineHistory {
  import opened Types
  import opened RaftLogs
  import opened LeaderPipeline
  import opened PipelineConservation
  import opened PipelineInvariants

  /** The channels an event hands to the leader. */
  function Arrivals(e: Event): set<Sender>
  {
    match e
    case Propose(x, _) => {x}
    case Read(x, _) => {x}
    case Scan(x) => {x}
    case JoinRequested(x, _, _, _) => {x}
    case _ => {}
  }

  /** The results an event reports. */
  function Results(e: Event): set<ApplyResult>
  {
    if e.ApplyReported? then ResultSet(e.results) else {}
  }

  /** Nothing but buffers and the outbox differs. */
  predicate SameHistory(s: State, t: State)
  {
    && t.term == s.term && t.log == s.log && t.commitIndex == s.commitIndex && t.lastApplied == s.lastApplied
    && t.noopLogId == s.noopLogId && t.h == s.h
  }

  /** Whatever was known in `s` still holds in `t`. */
  ghost predicate Grows(s: State, t: State)
  {
    && s.term <= t.term
    && PartOf(s.log.entries, t.log.entries) && s.log.maxIndex <= t.log.maxIndex
    && s.commitIndex <= t.commitIndex && s.lastApplied <= t.lastApplied
    && Extends(s.h, t.h)
  }

  ghost predicate Extends(g: History, h: History)
  {
    && h.noopIndex == g.noopIndex && h.since == g.since && h.base == g.base
    && PartOf(g.tickets, h.tickets) && |g.tickets| <= |h.tickets| && PartOf(g.origin, h.origin)
    && g.seen <= h.seen && g.reported <= h.reported
  }

  lemma SameGrows(s: State, t: State)
    requires SameHistory(s, t)
    ensures Grows(s, t)
  {
  }

  // ---- Steps that leave the history alone -----------------------------------------------------

  lemma RouteHistory(s: State, readers: seq<Sender>, env: Env)
    ensures SameHistory(s, RouteReads(s, readers, env))
  {
    hide Reply, Await, ReadIndex;
  }

  lemma QueuesHistory(s: State, env: Env, now: nat)
    ensures SameHistory(s, ServeQueues(s, env)) && SameHistory(s, Expire(s, now))
  {
    hide Filter, Without, Stamp, Reply, ReplyBatches, LiveWrites, LiveReads, LiveActions, LiveLease;
  }

  lemma FailHistory(s: State, code: ErrorCode)
    ensures SameHistory(s, FailWrites(s, code))
  {
    hide ReplyBatches, WriteSenders;
  }

  lemma DrainHistory(s: State, n: nat, code: ErrorCode)
    ensures SameHistory(s, DrainWrites(s, n)) && SameHistory(s, ServeReads(s, n)) && SameHistory(s, FailWrites(s, code))
    ensures DrainWrites(s, n).commitActions == s.commitActions
  {
    hide Reply, ReplyBatches, Spread, Immediate, Upto, Above, WriteSenders, ReadSenders, JoinSenders;
  }

  lemma StopHistory(s: State)
    ensures SameHistory(s, StepDown(s)) && SameHistory(s, Fatal(s)) && SameHistory(s, AckQuorum(s))
    ensures SameHistory(s, ServeLease(s))
  {
    hide Reply, ReplyBatches, Upto, Above, LeaseSenders, WriteSenders, ReadSenders, ApplySenders;
  }

  lemma {:induction false} RespondHistory(s: State, results: seq<ApplyResult>)
    ensures SameHistory(s, Respond(s, results))
    decreases |results|
  {
    if results != [] {
      hide Send;
      var r := results[0];
      if r.index in s.pendingWriteApply {
        RespondHistory(s.(pendingWriteApply := s.pendingWriteApply - {r.index},
                          outbox := Send(s.outbox, s.pendingWriteApply[r.index],
                                         if r.succeeded then WriteSuccess else CasFailure, r.index)),
                       results[1..]);
      } else {
        RespondHistory(s, results[1..]);
      }
    }
  }

  // ---- Steps that extend it -------------------------------------------------------------------

  lemma StoreHistory(s: State, payloads: seq<Payload>, senders: seq<Sender>, env: Env)
    requires Inv(s)
    ensures var t := StoreWrites(s, payloads, senders, env);
      Grows(s, t) && t.h.seen == s.h.seen && t.h.reported == s.h.reported
  {
    hide Append, Laid, ActionsOk, WritesOk, ApplyOk, Ready, TicketsOk, AnswersOk;
    Appended(s.log, s.term, payloads);
    forall i | i in s.h.origin ensures (s.h.origin + Laid(senders, s.log.nextId))[i] == s.h.origin[i] {
      OriginAt(s.h.origin, senders, s.log.nextId, i);
    }
  }

  lemma RefuseHistory(s: State, payloads: seq<Payload>, senders: seq<Sender>, readers: seq<Sender>)
    requires Inv(s)
    ensures var t := PrepareFailed(s, payloads, senders, readers); Grows(s, t) && t.h == s.h
  {
    hide Append, Reply, ActionsOk, WritesOk, ApplyOk, OriginOk, Ready, TicketsOk, AnswersOk;
    Appended(s.log, s.term, payloads);
  }

  lemma ExecuteHistory(s: State, payloads: seq<Payload>, senders: seq<Sender>, readers: seq<Sender>, env: Env)
    requires Inv(s)
    ensures var t := Execute(s, payloads, senders, readers, env);
      Grows(s, t) && t.h.seen == s.h.seen && t.h.reported == s.h.reported
  {
    hide Inv, Grows, StoreWrites, PrepareFailed, RouteReads, Accepts;
    var t := StoreWrites(s, payloads, senders, env);
    StoreHistory(s, payloads, senders, env);
    RefuseHistory(s, payloads, senders, readers);
    RouteHistory(t, readers, env);
    SameGrows(t, RouteReads(t, readers, env));
    GrowsOn(s, t, RouteReads(t, readers, env));
  }

  lemma FlushHistory(s: State, heartbeat: bool, env: Env)
    requires Inv(s)
    ensures var t := Flush(s, env); Grows(s, t) && t.h.seen == s.h.seen && t.h.reported == s.h.reported
    ensures var t := Tick(s, heartbeat, env); Grows(s, t) && t.h.seen == s.h.seen && t.h.reported == s.h.reported
  {
    hide Inv, Execute, ServeQueues, Expire, Accepts;
    TakenInv(s);
    ExecuteHistory(FlushPropose(s).(linearReads := []), s.proposePayloads, s.proposeSenders, s.linearReads, env);
    ExecuteHistory(FlushPropose(s), s.proposePayloads, s.proposeSenders, [], env);
    QueuesHistory(Execute(FlushPropose(s).(linearReads := []), s.proposePayloads, s.proposeSenders, s.linearReads, env), env, 0);
    QueuesHistory(Execute(FlushPropose(s), s.proposePayloads, s.proposeSenders, [], env), env, env.now);
    QueuesHistory(s, env, env.now);
  }

  lemma ProposeHistory(s: State, x: Sender, cmd: Option<string>)
    requires TicketsOk(s.h.tickets, s.h.seen) && x !in s.h.seen
    ensures var t := PushPropose(s, x, cmd); Grows(s, t) && t.h.seen == s.h.seen + {x} && t.h.reported == s.h.reported
  {
    hide Reply;
  }

  lemma ReadHistory(s: State, x: Sender, policy: ReadPolicy)
    ensures var t := PushRead(s, x, policy); Grows(s, t) && t.h.seen == s.h.seen + {x} && t.h.reported == s.h.reported
  {
    hide Reply, Rejects;
    match policy
    case Linearizable =>
    case Lease =>
    case Eventual =>
  }

  lemma JoinHistory(s: State, x: Sender, admitted: bool, change: nat, deadline: nat)
    requires Inv(s)
    ensures var t := Join(s, x, admitted, change, deadline); Grows(s, t) && t.h.seen == s.h.seen + {x} && t.h.reported == s.h.reported
  {
    hide Reply, Append, Inv, Grows;
    OwnHistory(s, Config(change));
    var seen := s.h.(seen := s.h.seen + {x});
    FrameGrows(s, AppendOwn(s, Config(change)), Join(s, x, admitted, change, deadline), seen);
    FrameGrows(s, s, Join(s, x, admitted, change, deadline), seen);
  }

  lemma FrameGrows(s: State, t: State, u: State, h: History)
    requires Grows(s, t) || s == t
    requires Extends(s.h, t.h) ==> Extends(s.h, h)
    ensures u.h == h && u.term == t.term && u.log == t.log && u.commitIndex == t.commitIndex && u.lastApplied == t.lastApplied
            ==> Grows(s, u)
  {
  }

  lemma OwnHistory(s: State, p: Payload)
    requires Inv(s)
    ensures var t := AppendOwn(s, p); Grows(s, t) && t.h.seen == s.h.seen && t.h.reported == s.h.reported
  {
    hide Append, ActionsOk, WritesOk, ApplyOk, Ready, TicketsOk, AnswersOk, OriginOk;
    Appended(s.log, s.term, [p]);
  }

  lemma CommitHistory(s: State, n: nat)
    requires s.commitIndex <= n
    ensures var t := CommitTo(s, n); Grows(s, t) && t.h == s.h && t.commitIndex == n && t.term == s.term && t.lastApplied == s.lastApplied
    ensures CommitTo(s, n).noopLogId == if HasNoop(Upto(s.commitActions, n)) then Some(s.log.maxIndex) else s.noopLogId
  {
    hide DrainWrites, DrainActions;
    DrainHistory(s.(commitIndex := n), n, TermOutdated);
    ActionsHistory(DrainWrites(s.(commitIndex := n), n), n);
  }

  /** Draining the actions records the no-op if it is among them. */
  lemma ActionsHistory(s: State, n: nat)
    ensures var t := DrainActions(s, n);
      && SameHistory(s.(noopLogId := t.noopLogId), t)
      && t.noopLogId == if HasNoop(Upto(s.commitActions, n)) then Some(s.log.maxIndex) else s.noopLogId
  {
    hide ReplyBatches, Upto, Above, JoinSenders, HasNoop;
  }

  lemma ReportHistory(s: State, last: nat, results: seq<ApplyResult>)
    ensures var t := ApplyCompleted(s, last, results);
      Grows(s, t) && t.h == s.h.(reported := s.h.reported + ResultSet(results))
      && t.commitIndex == s.commitIndex && t.noopLogId == s.noopLogId && t.term == s.term && t.lastApplied == s.lastApplied
  {
    hide Respond, ServeReads, ResultSet, Grows;
    var t := s.(h := s.h.(reported := s.h.reported + ResultSet(results)));
    ReportedGrows(s, ResultSet(results));
    RespondHistory(t, results);
    SameGrows(t, Respond(t, results));
    DrainHistory(Respond(t, results), last, TermOutdated);
    SameGrows(Respond(t, results), ServeReads(Respond(t, results), last));
    GrowsOn(s, t, Respond(t, results));
    GrowsOn(s, Respond(t, results), ServeReads(Respond(t, results), last));
  }

  lemma ReportedGrows(s: State, rs: set<ApplyResult>)
    ensures Grows(s, s.(h := s.h.(reported := s.h.reported + rs)))
  {
  }

  lemma InvTickets(s: State)
    requires Inv(s)
    ensures TicketsOk(s.h.tickets, s.h.seen)
  {
    hide LogOk, ActionsOk, WritesOk, ApplyOk, Ready, TicketsOk, AnswersOk, OriginOk;
  }

  /** History grows by exactly these channels and results. */
  ghost predicate Advanced(s: State, t: State, arrivals: set<Sender>, results: set<ApplyResult>)
  {
    Grows(s, t) && t.h.seen == s.h.seen + arrivals && t.h.reported == s.h.reported + results
  }

  lemma SameAdvanced(s: State, t: State)
    requires SameHistory(s, t)
    ensures Advanced(s, t, {}, {})
  {
    SameGrows(s, t);
  }

  lemma KeptAdvanced(s: State, t: State)
    requires Grows(s, t) && t.h.seen == s.h.seen && t.h.reported == s.h.reported
    ensures Advanced(s, t, {}, {})
  {
    hide Grows;
  }

  lemma ArrivedAdvanced(s: State, t: State, x: Sender)
    requires Grows(s, t) && t.h.seen == s.h.seen + {x} && t.h.reported == s.h.reported
    ensures Advanced(s, t, {x}, {})
  {
    hide Grows;
  }

  lemma ReportedAdvanced(s: State, t: State, rs: set<ApplyResult>)
    requires Grows(s, t) && t.h == s.h.(reported := s.h.reported + rs)
    ensures Advanced(s, t, {}, rs)
  {
    hide Grows;
  }

  /** History only grows: by the event's own channels and reported results. */
  lemma NextHistory(s: State, e: Event)
    requires Inv(s) && Enabled(s, e)
    ensures Advanced(s, Next(s, e), Arrivals(e), Results(e))
  {
    hide Inv, Flush, Tick, CommitTo, ServeLease, AckQuorum, ApplyCompleted, FailWrites, StepDown, Fatal, Join, AppendOwn;
    hide PushPropose, PushRead, PushScan, Grows, SameHistory, Advanced, ResultSet;
    match e
    case Propose(x, cmd) => InvTickets(s); ProposeHistory(s, x, cmd); ArrivedAdvanced(s, PushPropose(s, x, cmd), x);
    case Read(x, policy) => ReadHistory(s, x, policy); ArrivedAdvanced(s, PushRead(s, x, policy), x);
    case Scan(x) => FieldHistory(s, x, 0); ArrivedAdvanced(s, PushScan(s, x), x);
    case FlushBuffers(env) => FlushHistory(s, true, env); KeptAdvanced(s, Flush(s, env));
    case TickAt(heartbeat, env) => FlushHistory(s, heartbeat, env); KeptAdvanced(s, Tick(s, heartbeat, env));
    case Committed(n) => CommitHistory(s, n); KeptAdvanced(s, CommitTo(s, n));
    case LeaseRenewed => StopHistory(s); SameAdvanced(s, ServeLease(s));
    case QuorumAcked => StopHistory(s); SameAdvanced(s, AckQuorum(s));
    case StateMachineApplied(n) => FieldHistory(s, 0, n); KeptAdvanced(s, s.(lastApplied := n));
    case ApplyReported(last, results) =>
      ReportHistory(s, last, results);
      ReportedAdvanced(s, ApplyCompleted(s, last, results), ResultSet(results));
    case HigherTermSeen(term) => HigherTermHistory(s, term);
    case VoteSeen(term) => TermGrows(s, term); KeptAdvanced(s, s.(term := term));
    case SteppedDown => StopHistory(s); SameAdvanced(s, StepDown(s));
    case FatalError => StopHistory(s); SameAdvanced(s, Fatal(s));
    case JoinRequested(x, admitted, change, deadline) =>
      JoinHistory(s, x, admitted, change, deadline);
      ArrivedAdvanced(s, Join(s, x, admitted, change, deadline), x);
    case ConfigProposed(change) => OwnHistory(s, Config(change)); KeptAdvanced(s, AppendOwn(s, Config(change)));
    case DiskPoisoned => FieldHistory(s, 0, 0); KeptAdvanced(s, s.(log := s.log.(poisoned := true)));
  }

  lemma TermGrows(s: State, term: nat)
    requires s.term <= term
    ensures Grows(s, s.(term := term))
  {
  }

  lemma SameFacts(s: State, t: State)
    requires SameHistory(s, t)
    ensures t.h == s.h && t.commitIndex == s.commitIndex && t.noopLogId == s.noopLogId && t.term == s.term && t.lastApplied == s.lastApplied
  {
  }

  lemma HigherTermHistory(s: State, term: nat)
    requires s.term < term
    ensures var t := FailWrites(s.(term := term), TermOutdated);
      && Advanced(s, t, {}, {}) && t.h == s.h && t.commitIndex == s.commitIndex && t.noopLogId == s.noopLogId
      && t.term == term && t.lastApplied == s.lastApplied
  {
    hide FailWrites, Grows, SameHistory;
    var t := s.(term := term);
    var u := FailWrites(t, TermOutdated);
    FailHistory(t, TermOutdated);
    TermGrows(s, term);
    SameGrows(t, u);
    GrowsOn(s, t, u);
    SameFacts(t, u);
  }

  lemma FieldHistory(s: State, x: Sender, n: nat)
    ensures Grows(s, PushScan(s, x)) && PushScan(s, x).h == s.h.(seen := s.h.seen + {x})
    ensures s.lastApplied <= n ==> Grows(s, s.(lastApplied := n))
    ensures Grows(s, s.(log := s.log.(poisoned := true)))
  {
    hide Reply;
  }

  lemma GrowsOn(s: State, t: State, u: State)
    requires Grows(s, t) && Grows(t, u)
    ensures Grows(s, u)
  {
  }

  lemma {:induction false} RunGrows(tr: seq<State>, es: seq<Event>, i: nat, j: nat)
    requires Run(tr, es) && i <= j < |tr|
    ensures Grows(tr[i], tr[j])
    decreases j - i
  {
    hide Inv, Next, Elected, InitiateNoop, Grows;
    if i == j {
      SameGrows(tr[i], tr[j]);
    } else {
      RunGrows(tr, es, i, j - 1);
      RunInv(tr, es, j - 1);
      NextHistory(tr[j - 1], es[j - 1]);
      GrowsOn(tr[i], tr[j - 1], tr[j]);
    }
  }

  /** The term a leadership began with is remembered. */
  lemma RunSince(tr: seq<State>, es: seq<Event>, i: nat)
    requires Run(tr, es) && i < |tr|
    ensures tr[i].h.since == tr[0].term <= tr[i].term
  {
    hide Next, Append, Bounded;
    RunGrows(tr, es, 0, i);
  }
}
