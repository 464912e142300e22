/** Promises of the leader's pipeline, over every run. */
module PipelineTheorems {
  import opened Types
  import opened Bags
  import opened RaftLogs
  import opened LeaderPipeline
  import opened PipelineConservation
  import opened PipelineInvariants
  import opened PipelineHistory
  import CommitIndex

  // ---- Conservation of response channels ----------------------------------------------------

  function One(b: bool): nat { if b then 1 else 0 }

  /** A channel appended to one of the queues. */
  lemma QueueCopies(x: Sender, s: State, y: Sender)
    ensures Copies(s.(proposeSenders := s.proposeSenders + [y]), x) == Copies(s, x) + One(x == y)
    ensures Copies(s.(linearReads := s.linearReads + [y]), x) == Copies(s, x) + One(x == y)
    ensures Copies(s.(leaseQueue := s.leaseQueue + [y]), x) == Copies(s, x) + One(x == y)
    ensures Copies(s.(eventualQueue := s.eventualQueue + [y]), x) == Copies(s, x) + One(x == y)
  {
    hide Bag, LeaseSenders;
  }

  lemma AnswerCopies(x: Sender, s: State, y: Sender, r: Response)
    ensures Copies(s.(outbox := Reply(s.outbox, [y], r)), x) == Copies(s, x) + One(x == y)
  {
    hide Copies, Reply;
    ReplyKeeps(x, s, [y], r);
    assert multiset([y])[x] == One(x == y);
  }

  lemma HistoryCopies(x: Sender, s: State, seen: set<Sender>, tickets: map<Sender, Ticket>, payloads: seq<Payload>)
    ensures Copies(s.(h := s.h.(seen := seen)), x) == Copies(s, x)
    ensures Copies(s.(h := s.h.(tickets := tickets), proposePayloads := payloads), x) == Copies(s, x)
  {
    hide Bag, LeaseSenders;
  }

  lemma ProposeCopies(x: Sender, s: State, y: Sender, cmd: Option<string>)
    ensures Copies(PushPropose(s, y, cmd), x) == Copies(s, x) + One(x == y)
  {
    hide Copies, Reply;
    var t := s.(h := s.h.(seen := s.h.seen + {y}));
    AnswerCopies(x, t, y, Refused(ResourceExhausted));
    AnswerCopies(x, t, y, Refused(InvalidArgument));
    HistoryCopies(x, s, s.h.seen + {y}, s.h.tickets, s.proposePayloads);
    if cmd.Some? {
      var tickets, payloads := s.h.tickets[y := Ticket(|s.h.tickets|, Command(cmd.value))], s.proposePayloads + [Command(cmd.value)];
      QueueCopies(x, t, y);
      HistoryCopies(x, t.(proposeSenders := t.proposeSenders + [y]), s.h.seen, tickets, payloads);
    }
  }

  lemma ReadCopies(x: Sender, s: State, y: Sender, policy: ReadPolicy)
    ensures Copies(PushRead(s, y, policy), x) == Copies(s, x) + One(x == y)
    ensures Copies(PushScan(s, y), x) == Copies(s, x) + One(x == y)
  {
    hide Copies, Reply;
    var t := s.(h := s.h.(seen := s.h.seen + {y}));
    HistoryCopies(x, s, s.h.seen + {y}, s.h.tickets, s.proposePayloads);
    QueueCopies(x, t, y);
    AnswerCopies(x, t, y, Refused(ResourceExhausted));
    AnswerCopies(x, t, y, ReadResults(s.lastApplied));
  }

  lemma TakeCopies(x: Sender, s: State)
    ensures Copies(FlushPropose(s), x) + multiset(s.proposeSenders)[x] == Copies(s, x)
    ensures Copies(FlushPropose(s).(linearReads := []), x) + multiset(s.proposeSenders)[x] + multiset(s.linearReads)[x]
            == Copies(s, x)
  {
    hide Bag, LeaseSenders;
  }

  lemma FreshKey(s: State, n: nat)
    requires Inv(s) && n > 0
    ensures s.log.maxIndex + n !in s.pendingWrites && s.log.maxIndex + n !in s.commitActions
  {
    hide LogOk, ApplyOk, OriginOk, AnswersOk, TicketsOk, Ready, DisjointBatches, Held;
  }

  lemma FlushCopies(x: Sender, s: State, env: Env)
    requires Inv(s)
    ensures Copies(Flush(s, env), x) == Copies(s, x)
  {
    hide Inv, Copies, Execute, ServeQueues;
    var t := FlushPropose(s).(linearReads := []);
    TakeCopies(x, s);
    if s.proposeSenders != [] { FreshKey(s, |s.proposeSenders|); }
    ExecuteKeeps(x, t, s.proposePayloads, s.proposeSenders, s.linearReads, env);
    ServeQueuesKeeps(x, Execute(t, s.proposePayloads, s.proposeSenders, s.linearReads, env), env);
  }

  lemma TickCopies(x: Sender, s: State, heartbeat: bool, env: Env)
    requires Inv(s)
    ensures Copies(Tick(s, heartbeat, env), x) == Copies(s, x)
  {
    hide Inv, Copies, Execute, Expire;
    TakeCopies(x, s);
    if s.proposeSenders != [] { FreshKey(s, |s.proposeSenders|); }
    ExecuteKeeps(x, FlushPropose(s), s.proposePayloads, s.proposeSenders, [], env);
    ExpireKeeps(x, s, env.now);
    ExpireKeeps(x, Execute(FlushPropose(s), s.proposePayloads, s.proposeSenders, [], env), env.now);
  }

  lemma BatchFacts(s: State)
    requires Inv(s)
    ensures DisjointBatches(s.pendingWrites) && Before(s.pendingWriteApply, s.pendingWrites)
  {
    hide LogOk, ActionsOk, OriginOk, AnswersOk, TicketsOk, Ready, DisjointBatches, Held, Before;
  }

  lemma CommitCopies(x: Sender, s: State, n: nat)
    requires Inv(s)
    ensures Copies(CommitTo(s, n), x) == Copies(s, x)
  {
    hide Inv, Copies, DrainWrites, DrainActions, DisjointBatches;
    BatchFacts(s);
    var t := s.(commitIndex := n);
    FieldCopies(x, s, n, s.lastApplied, s.log);
    DrainWritesKeeps(x, t, n);
    DrainActionsKeeps(x, DrainWrites(t, n), n);
  }

  lemma FieldCopies(x: Sender, s: State, commit: nat, applied: nat, l: Log)
    ensures Copies(s.(commitIndex := commit), x) == Copies(s, x)
    ensures Copies(s.(lastApplied := applied), x) == Copies(s, x)
    ensures Copies(s.(log := l), x) == Copies(s, x)
  {
    hide Bag, LeaseSenders;
  }

  lemma AckCopies(x: Sender, s: State)
    ensures Copies(ServeLease(s), x) == Copies(s, x) && Copies(AckQuorum(s), x) == Copies(s, x)
  {
    hide Bag, ServeReads;
    ServeReadsKeeps(x, ServeLease(s), s.lastApplied);
  }

  lemma ReportedCopies(x: Sender, s: State, reported: set<ApplyResult>)
    ensures Copies(s.(h := s.h.(reported := reported)), x) == Copies(s, x)
  {
    hide Bag, LeaseSenders;
  }

  lemma ReportCopies(x: Sender, s: State, last: nat, results: seq<ApplyResult>)
    ensures Copies(ApplyCompleted(s, last, results), x) == Copies(s, x)
  {
    hide Copies, Respond, ServeReads;
    var t := s.(h := s.h.(reported := s.h.reported + ResultSet(results)));
    ReportedCopies(x, s, t.h.reported);
    RespondKeeps(x, t, results);
    ServeReadsKeeps(x, Respond(t, results), last);
  }

  lemma HigherTermCopies(x: Sender, s: State, term: nat)
    ensures Copies(s.(term := term), x) == Copies(FailWrites(s.(term := term), TermOutdated), x) == Copies(s, x)
  {
    hide FailWrites, Bag;
    FailWritesKeeps(x, s.(term := term), TermOutdated);
  }

  lemma JoinCopies(x: Sender, s: State, y: Sender, admitted: bool, change: nat, deadline: nat)
    requires Inv(s)
    ensures Copies(Join(s, y, admitted, change, deadline), x) == Copies(s, x) + One(x == y)
  {
    hide Inv, Copies, Append, Join;
    FreshKey(s, 1);
    LogFacts(s);
    Appended(s.log, s.term, [Config(change)]);
    JoinKeeps(x, s, y, admitted, change, deadline);
  }

  /** One event adds exactly its own arrivals and loses nothing. */
  lemma NextCopies(x: Sender, s: State, e: Event)
    requires Inv(s) && Enabled(s, e)
    ensures Copies(Next(s, e), x) == Copies(s, x) + One(x in Arrivals(e))
  {
    hide Inv, Copies, Flush, Tick, CommitTo, ServeLease, AckQuorum, ApplyCompleted, FailWrites, StepDown, Fatal, Join;
    hide PushPropose, PushRead, PushScan, Append;
    match e
    case Propose(y, cmd) => ProposeCopies(x, s, y, cmd);
    case Read(y, policy) => ReadCopies(x, s, y, policy);
    case Scan(y) => ReadCopies(x, s, y, Eventual);
    case FlushBuffers(env) => FlushCopies(x, s, env);
    case TickAt(heartbeat, env) => TickCopies(x, s, heartbeat, env);
    case Committed(n) => CommitCopies(x, s, n);
    case LeaseRenewed => AckCopies(x, s);
    case QuorumAcked => AckCopies(x, s);
    case StateMachineApplied(n) => FieldCopies(x, s, 0, n, s.log);
    case ApplyReported(last, results) => ReportCopies(x, s, last, results);
    case HigherTermSeen(term) => HigherTermCopies(x, s, term);
    case VoteSeen(term) => HigherTermCopies(x, s, term);
    case SteppedDown => StepDownKeeps(x, s);
    case FatalError => FatalKeeps(x, s);
    case JoinRequested(y, admitted, change, deadline) => JoinCopies(x, s, y, admitted, change, deadline);
    case ConfigProposed(change) => FieldCopies(x, s, 0, 0, Append(s.log, s.term, [Config(change)]));
    case DiskPoisoned => FieldCopies(x, s, 0, 0, s.log.(poisoned := true));
  }

  lemma NoopBag(x: Sender, k: nat, deadline: nat, term: nat)
    ensures Bag(JoinSenders(map[k := PostCommit(deadline, LeaderNoop(term))]))[x] == 0
    ensures Bag(JoinSenders(map[]))[x] == 0
  {
    var m := JoinSenders(map[k := PostCommit(deadline, LeaderNoop(term))]);
    assert JoinSenders(map[]) == map[];
    BagEmpty(x);
    BagRemove(m, k, x);
    assert m - {k} == map[];
  }

  lemma InitialCopies(x: Sender, s: State, deadline: nat)
    requires Elected(s)
    ensures Copies(InitiateNoop(s, deadline), x) == 0
  {
    hide Bag, Append, Bounded;
    EmptyMaps(x);
    NoopBag(x, s.log.maxIndex + 1, deadline, s.term);
  }

  /**
   * Sender conservation: in every state of every run a channel handed to this leader waits in
   * exactly one place or has been answered exactly once, and no other channel appears.
   */
  lemma {:induction false} SenderConservation(tr: seq<State>, es: seq<Event>, i: nat, x: Sender)
    requires Run(tr, es) && i < |tr|
    ensures Waiting(tr[i], x) + tr[i].outbox.answered[x] == One(x in tr[i].h.seen)
  {
    hide Inv, Next, Waiting, Elected, Grows;
    if i == 0 {
      var s, deadline :| Elected(s) && tr[0] == InitiateNoop(s, deadline);
      InitialCopies(x, s, deadline);
      InitialSeen(s, deadline);
    } else {
      SenderConservation(tr, es, i - 1, x);
      RunInv(tr, es, i - 1);
      NextCopies(x, tr[i - 1], es[i - 1]);
      NextHistory(tr[i - 1], es[i - 1]);
    }
  }

  lemma InitialSeen(s: State, deadline: nat)
    requires Elected(s)
    ensures InitiateNoop(s, deadline).h.seen == {}
  {
  }

  /** A stepping-down leader answers everything except the writes and actions it leaves as they are. */
  lemma StepDownDrains(s: State, x: Sender)
    ensures StepDown(s).pendingWriteApply == s.pendingWriteApply && StepDown(s).commitActions == s.commitActions
    ensures Waiting(StepDown(s), x)
            == Bag(ApplySenders(s.pendingWriteApply))[x] + Bag(JoinSenders(s.commitActions))[x]
    ensures StepDown(s).outbox.answered[x] + Waiting(StepDown(s), x) == s.outbox.answered[x] + Waiting(s, x)
  {
    StepDownKeeps(x, s);
    hide Bag, Reply, ReplyBatches;
    EmptyMaps(x);
  }

  // ---- Own results ----------------------------------------------------------------------------

  /** Some event before step `i` reported that the entry at `r.index` was applied with this outcome. */
  ghost predicate ReportedBefore(es: seq<Event>, i: nat, r: ApplyResult)
  {
    exists k :: 0 <= k < i && k < |es| && es[k].ApplyReported? && r in es[k].results
  }

  lemma {:induction false} ReportedCause(tr: seq<State>, es: seq<Event>, i: nat, r: ApplyResult)
    requires Run(tr, es) && i < |tr| && r in tr[i].h.reported
    ensures ReportedBefore(es, i, r)
  {
    hide Inv, Next, Grows;
    if i == 0 {
      assert false;
    } else {
      RunInv(tr, es, i - 1);
      NextHistory(tr[i - 1], es[i - 1]);
      if r in tr[i - 1].h.reported {
        ReportedCause(tr, es, i - 1, r);
      }
    }
  }

  /** Every accepted write was accepted by a proposal before. */
  lemma {:induction false} TicketCause(tr: seq<State>, es: seq<Event>, i: nat, x: Sender) returns (p: nat)
    requires Run(tr, es) && i < |tr| && x in tr[i].h.tickets
    ensures p < i && AcceptedAt(tr, es, p, x)
  {
    hide Inv, Next, Enabled;
    CommitStep(tr[i - 1], es[i - 1]);
    if x in tr[i - 1].h.tickets {
      p := TicketCause(tr, es, i - 1, x);
    } else {
      p := i - 1;
    }
  }

  /** Event `p` accepted the write of `x` with the command that `e` stores. */
  ghost predicate StoresProposal(tr: seq<State>, es: seq<Event>, p: nat, x: Sender, e: Entry)
    requires |tr| == |es| + 1
  {
    AcceptedAt(tr, es, p, x) && es[p].cmd.Some? && e.payload == Command(es[p].cmd.value)
  }

  /**
   * Own-result correlation: an apply outcome is only ever sent to a channel whose write was accepted
   * before; the command proposed with it is what is stored at the reported index, and it is the
   * outcome the state machine reported for that index.
   */
  lemma OwnResult(tr: seq<State>, es: seq<Event>, i: nat, a: Answer)
    requires Run(tr, es) && i < |tr| && a in tr[i].outbox.answers && Outcome(a.response)
    ensures a.sender in tr[i].h.tickets && a.index in tr[i].log.entries && a.index <= tr[i].lastApplied
    ensures tr[0].term <= tr[i].log.entries[a.index].term
    ensures exists p :: 0 <= p < i && StoresProposal(tr, es, p, a.sender, tr[i].log.entries[a.index])
    ensures ReportedBefore(es, i, ApplyResult(a.index, a.response.WriteSuccess?))
    ensures forall b :: b in tr[i].outbox.answers && Outcome(b.response) && b.sender == a.sender ==> b.index == a.index
  {
    RunInv(tr, es, i);
    RunSince(tr, es, i);
    hide Next, Elected, InitiateNoop, LogOk, ActionsOk, WritesOk, ApplyOk, Ready, TicketsOk;
    var s := tr[i];
    assert AnswerOk(a, s.h.origin, s.lastApplied, s.h.reported);
    ReportedCause(tr, es, i, ApplyResult(a.index, a.response.WriteSuccess?));
    var p := TicketCause(tr, es, i, a.sender);
    AcceptedTicket(tr, es, p, i, a.sender);
    assert StoresProposal(tr, es, p, a.sender, s.log.entries[a.index]);
    forall b | b in s.outbox.answers && Outcome(b.response) && b.sender == a.sender ensures b.index == a.index {
      assert AnswerOk(b, s.h.origin, s.lastApplied, s.h.reported);
    }
  }

  /** Channel `x` was accepted as a write by event `i`. */
  ghost predicate AcceptedAt(tr: seq<State>, es: seq<Event>, i: nat, x: Sender)
    requires |tr| == |es| + 1
  {
    i < |es| && es[i].Propose? && es[i].x == x && x in tr[i + 1].h.tickets
  }

  lemma TicketOfPropose(s: State, x: Sender, cmd: Option<string>)
    requires TicketsOk(s.h.tickets, s.h.seen) && x !in s.h.seen && x in PushPropose(s, x, cmd).h.tickets
    ensures PushPropose(s, x, cmd).h.tickets[x].order == |s.h.tickets|
    ensures |PushPropose(s, x, cmd).h.tickets| == |s.h.tickets| + 1
    ensures cmd.Some? && PushPropose(s, x, cmd).h.tickets[x].payload == Command(cmd.value)
  {
    hide Reply;
  }

  lemma AcceptedTicket(tr: seq<State>, es: seq<Event>, i: nat, j: nat, x: Sender)
    requires Run(tr, es) && i < j < |tr| && AcceptedAt(tr, es, i, x)
    ensures x in tr[j].h.tickets && tr[j].h.tickets[x].order == |tr[i].h.tickets| < |tr[i + 1].h.tickets|
    ensures es[i].cmd.Some? && tr[j].h.tickets[x].payload == Command(es[i].cmd.value)
  {
    hide Inv, Elected, InitiateNoop, PushPropose, TicketsOk;
    RunInv(tr, es, i);
    InvTickets(tr[i]);
    TicketOfPropose(tr[i], x, es[i].cmd);
    RunGrows(tr, es, i + 1, j);
  }

  /** Writes enter the log in the order in which they were accepted, each with its own payload. */
  lemma AcceptanceOrder(tr: seq<State>, es: seq<Event>, p: nat, q: nat, j: nat, a: nat, b: nat)
    requires Run(tr, es) && p < q < j < |tr|
    requires a in tr[j].h.origin && AcceptedAt(tr, es, p, tr[j].h.origin[a])
    requires b in tr[j].h.origin && AcceptedAt(tr, es, q, tr[j].h.origin[b])
    ensures a < b
    ensures a in tr[j].log.entries && es[p].cmd.Some? && tr[j].log.entries[a].payload == Command(es[p].cmd.value)
  {
    hide Elected, InitiateNoop, Next, LogOk, ActionsOk, WritesOk, ApplyOk, Ready, TicketsOk, AnswersOk, Extends;
    AcceptedTicket(tr, es, p, j, tr[j].h.origin[a]);
    AcceptedTicket(tr, es, q, j, tr[j].h.origin[b]);
    TicketsCounted(tr, es, p + 1, q);
    RunInv(tr, es, j);
  }

  lemma TicketsCounted(tr: seq<State>, es: seq<Event>, p: nat, q: nat)
    requires Run(tr, es) && p <= q < |tr|
    ensures |tr[p].h.tickets| <= |tr[q].h.tickets|
  {
    hide Elected, InitiateNoop, Next, PartOf;
    RunGrows(tr, es, p, q);
  }

  // ---- Nothing is held back -----------------------------------------------------------------------

  /** A commit moves every batch it covers completely to the writes that wait for their apply result. */
  lemma CommitPassesOn(s: State, n: nat, k: nat, i: nat)
    requires Inv(s) && k <= n && Covers(s.pendingWrites, k, i)
    ensures var t := CommitTo(s, n);
      && k !in t.pendingWrites
      && i in t.pendingWriteApply && t.pendingWriteApply[i] == Laid(s.pendingWrites[k].senders, s.pendingWrites[k].start)[i]
  {
    hide Spread, Inv, Immediate, ReplyBatches, Laid, JoinSenders, WriteSenders;
    BatchFacts(s);
    var c := Upto(s.pendingWrites, n);
    UptoDisjoint(s.pendingWriteApply, s.pendingWrites, n);
    assert Covers(c, k, i);
    SpreadAt(c, k, i);
  }

  /** Position `j` holds the first result for its index. */
  predicate FirstFor(results: seq<ApplyResult>, j: nat)
  {
    j < |results| && forall i :: 0 <= i < j ==> results[i].index != results[j].index
  }

  /** A waiting write is answered with the first result reported for its index. */
  lemma {:induction false} ReportAnswers(s: State, results: seq<ApplyResult>, j: nat)
    requires FirstFor(results, j) && results[j].index in s.pendingWriteApply
    ensures var r := results[j];
      && r.index !in Respond(s, results).pendingWriteApply
      && Answer(s.pendingWriteApply[r.index], if r.succeeded then WriteSuccess else CasFailure, r.index)
         in Respond(s, results).outbox.answers
    decreases |results|
  {
    var r, first := results[j], results[0];
    var t := if first.index !in s.pendingWriteApply then s else
      s.(pendingWriteApply := s.pendingWriteApply - {first.index},
         outbox := Send(s.outbox, s.pendingWriteApply[first.index],
                        if first.succeeded then WriteSuccess else CasFailure, first.index));
    if j == 0 {
      RespondKeepsAnswers(t, results[1..], r.index);
    } else {
      assert results[1..][j - 1] == r && forall i :: 0 <= i < j - 1 ==> results[1..][i] == results[i + 1];
      ReportAnswers(t, results[1..], j - 1);
    }
  }

  lemma {:induction false} RespondKeepsAnswers(s: State, results: seq<ApplyResult>, k: nat)
    ensures s.outbox.answers <= Respond(s, results).outbox.answers
    ensures k !in s.pendingWriteApply ==> k !in Respond(s, results).pendingWriteApply
    decreases |results|
  {
    if results != [] {
      var r := results[0];
      if r.index in s.pendingWriteApply {
        RespondKeepsAnswers(s.(pendingWriteApply := s.pendingWriteApply - {r.index},
                               outbox := Send(s.outbox, s.pendingWriteApply[r.index],
                                              if r.succeeded then WriteSuccess else CasFailure, r.index)),
                            results[1..], k);
      } else {
        RespondKeepsAnswers(s, results[1..], k);
      }
    }
  }

  /** An apply report serves every read that waits for an index it covers. */
  lemma ReportServesReads(s: State, last: nat, results: seq<ApplyResult>, k: nat, x: Sender)
    requires k in s.pendingReads && k <= last && x in s.pendingReads[k].requests
    ensures var t := ApplyCompleted(s, last, results);
      k !in t.pendingReads && Answer(x, ReadResults(s.lastApplied), 0) in t.outbox.answers
  {
    hide Respond, Bag, ResultSet;
    var t := s.(h := s.h.(reported := s.h.reported + ResultSet(results)));
    RespondHistory(t, results);
    RespondReads(t, results);
    var m := ReadSenders(Upto(s.pendingReads, last));
    assert k in m && x in m[k];
  }

  lemma {:induction false} RespondReads(s: State, results: seq<ApplyResult>)
    ensures Respond(s, results).pendingReads == s.pendingReads
    decreases |results|
  {
    if results != [] {
      hide Send;
      var r := results[0];
      if r.index in s.pendingWriteApply {
        RespondReads(s.(pendingWriteApply := s.pendingWriteApply - {r.index},
                        outbox := Send(s.outbox, s.pendingWriteApply[r.index],
                                       if r.succeeded then WriteSuccess else CasFailure, r.index)),
                     results[1..]);
      } else {
        RespondReads(s, results[1..]);
      }
    }
  }

  // ---- Commit index and accepted writes ---------------------------------------------------------------

  lemma ExecuteCommit(s: State, payloads: seq<Payload>, senders: seq<Sender>, readers: seq<Sender>, env: Env)
    ensures Kept(s, Execute(s, payloads, senders, readers, env))
  {
    hide Append, Reply, RouteReads, Laid, SameHistory;
    var t := StoreWrites(s, payloads, senders, env);
    RouteHistory(t, readers, env);
    SameKept(t, RouteReads(t, readers, env));
  }

  /** Term, commit index, applied index, recorded no-op and accepted writes are unchanged. */
  predicate Kept(s: State, t: State)
  {
    && t.commitIndex == s.commitIndex && t.noopLogId == s.noopLogId && t.h.tickets == s.h.tickets
    && t.term == s.term && t.lastApplied == s.lastApplied
  }

  lemma SameKept(s: State, t: State)
    requires SameHistory(s, t)
    ensures Kept(s, t)
  {
  }

  lemma FlushCommit(s: State, heartbeat: bool, env: Env)
    ensures Kept(s, Flush(s, env)) && Kept(s, Tick(s, heartbeat, env))
  {
    hide Execute, ServeQueues, Expire, Accepts;
    var a, b := FlushPropose(s).(linearReads := []), FlushPropose(s);
    ExecuteCommit(a, s.proposePayloads, s.proposeSenders, s.linearReads, env);
    ExecuteCommit(b, s.proposePayloads, s.proposeSenders, [], env);
    QueuesHistory(Execute(a, s.proposePayloads, s.proposeSenders, s.linearReads, env), env, 0);
    QueuesHistory(Execute(b, s.proposePayloads, s.proposeSenders, [], env), env, env.now);
    QueuesHistory(s, env, env.now);
  }

  lemma PushCommit(s: State, x: Sender, cmd: Option<string>)
    ensures Kept(s, PushPropose(s, x, cmd).(h := s.h))
    ensures Kept(s, PushScan(s, x))
    ensures forall y :: y != x ==> (y in PushPropose(s, x, cmd).h.tickets <==> y in s.h.tickets)
  {
    hide Reply;
  }

  lemma ReadCommit(s: State, x: Sender, policy: ReadPolicy)
    ensures Kept(s, PushRead(s, x, policy))
  {
    hide Reply, Rejects;
  }

  lemma JoinCommit(s: State, x: Sender, admitted: bool, change: nat, deadline: nat)
    ensures Kept(s, Join(s, x, admitted, change, deadline))
  {
    hide Reply, Append;
  }

  /**
   * The commit index moves exactly on a commit, and then to a higher index; the no-op is recorded exactly
   * when a commit reaches its action; the term changes exactly when a higher one is seen, the applied index
   * exactly when the state machine says so; only a proposal accepts a write.
   */
  lemma CommitStep(s: State, e: Event)
    requires Enabled(s, e)
    ensures Next(s, e).commitIndex == if e.Committed? then e.n else s.commitIndex
    ensures e.Committed? ==> s.commitIndex < e.n
    ensures Next(s, e).noopLogId
            == if e.Committed? && HasNoop(Upto(s.commitActions, e.n)) then Some(s.log.maxIndex) else s.noopLogId
    ensures Next(s, e).term == if e.HigherTermSeen? || e.VoteSeen? then e.term else s.term
    ensures Next(s, e).lastApplied == if e.StateMachineApplied? then e.n else s.lastApplied
    ensures forall y :: y in Next(s, e).h.tickets ==> y in s.h.tickets || (e.Propose? && y == e.x)
  {
    hide Flush, Tick, CommitTo, ServeLease, AckQuorum, ApplyCompleted, FailWrites, StepDown, Fatal, Join, Append;
    hide PushPropose, PushRead, PushScan;
    match e
    case Propose(x, cmd) => PushCommit(s, x, cmd);
    case Read(x, policy) => ReadCommit(s, x, policy);
    case Scan(x) => PushCommit(s, x, None);
    case FlushBuffers(env) => FlushCommit(s, true, env);
    case TickAt(heartbeat, env) => FlushCommit(s, heartbeat, env);
    case Committed(n) => CommitHistory(s, n);
    case LeaseRenewed => StopHistory(s);
    case QuorumAcked => StopHistory(s);
    case StateMachineApplied(n) =>
    case ApplyReported(last, results) => ReportHistory(s, last, results);
    case HigherTermSeen(term) => HigherTermHistory(s, term);
    case VoteSeen(term) =>
    case SteppedDown => StopHistory(s);
    case FatalError => StopHistory(s);
    case JoinRequested(x, admitted, change, deadline) => JoinCommit(s, x, admitted, change, deadline);
    case ConfigProposed(change) =>
    case DiskPoisoned =>
  }

  ghost predicate AnyCommit(es: seq<Event>, i: nat, j: nat) { exists k :: i <= k < j && k < |es| && es[k].Committed? }

  /** Over a run the commit index never decreases, and it is higher exactly if something was committed in between. */
  lemma {:induction false} CommitRises(tr: seq<State>, es: seq<Event>, i: nat, j: nat)
    requires Run(tr, es) && i <= j < |tr|
    ensures tr[i].commitIndex <= tr[j].commitIndex
    ensures tr[i].commitIndex < tr[j].commitIndex <==> AnyCommit(es, i, j)
    decreases j - i
  {
    hide Next, Enabled, Elected, InitiateNoop;
    if i < j {
      CommitRises(tr, es, i, j - 1);
      CommitStep(tr[j - 1], es[j - 1]);
      if AnyCommit(es, i, j - 1) {
        var k :| i <= k < j - 1 && k < |es| && es[k].Committed?;
        assert i <= k < j && es[k].Committed?;
      }
    }
  }

  function View(s: State): CommitIndex.LogView
  {
    CommitIndex.LogView(s.log.maxIndex, map i | i in s.log.entries :: s.log.entries[i].term)
  }

  /** The confirmed indexes `values` make the leader compute `n`. */
  predicate Computes(s: State, values: seq<nat>, n: nat)
  {
    CommitIndex.Computed(s.term, s.commitIndex, values, View(s)) == Some(n)
  }

  /**
   * Where commits come from: an index that the leader computes from what its peers confirmed is one it
   * may commit, and every entry of its own term above the commit index is so computed from some
   * confirmations.
   */
  lemma CommitFromQuorum(s: State, n: nat)
    requires Bounded(s.log)
    ensures (exists values :: Computes(s, values, n))
            <==> Enabled(s, Committed(n)) && n in s.log.entries && s.log.entries[n].term == s.term
  {
    hide CommitIndex.Median;
    if s.commitIndex < n && n in s.log.entries && s.log.entries[n].term == s.term {
      CommitIndex.OnePeer(n, s.log.maxIndex);
      assert Computes(s, [n], n);
    }
  }
}
