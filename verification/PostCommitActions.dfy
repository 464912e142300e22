/** Post-commit actions: run at most once, only when committed; and the index of the no-op. */
module PostCommitActions {
  import opened Types
  import opened Bags
  import opened RaftLogs
  import opened LeaderPipeline
  import opened PipelineConservation
  import opened PipelineInvariants
  import opened PipelineHistory
  import PipelineTheorems

  // ---- What each step does to the actions ------------------------------------------------------

  predicate SameActions(s: State, t: State)
  {
    t.commitActions == s.commitActions && t.outbox.fired == s.outbox.fired
  }

  lemma ProposeActions(s: State, x: Sender, cmd: Option<string>)
    ensures SameActions(s, PushPropose(s, x, cmd)) && SameActions(s, PushScan(s, x))
  {
    hide ToAll;
  }

  lemma ReadActions(s: State, x: Sender, policy: ReadPolicy)
    ensures SameActions(s, PushRead(s, x, policy))
  {
    hide ToAll;
  }

  lemma ExecuteActions(s: State, payloads: seq<Payload>, senders: seq<Sender>, readers: seq<Sender>, env: Env)
    ensures SameActions(s, Execute(s, payloads, senders, readers, env))
  {
    hide ToAll, Append, Laid, Await, ReadIndex;
    RouteActions(StoreWrites(s, payloads, senders, env), readers, env);
    hide RouteReads;
  }

  lemma RouteActions(s: State, readers: seq<Sender>, env: Env)
    ensures SameActions(s, RouteReads(s, readers, env))
  {
    hide ToAll, Await, ReadIndex;
  }

  lemma QueuesActions(s: State, env: Env)
    ensures SameActions(s, ServeQueues(s, env))
  {
    hide ToAll, Filter, Without, Stamp;
  }

  lemma FlushActions(s: State, env: Env)
    ensures SameActions(s, Flush(s, env))
  {
    hide Execute, ServeQueues, Accepts;
    var t := FlushPropose(s).(linearReads := []);
    ExecuteActions(t, s.proposePayloads, s.proposeSenders, s.linearReads, env);
    QueuesActions(Execute(t, s.proposePayloads, s.proposeSenders, s.linearReads, env), env);
  }

  lemma ExpireActions(s: State, now: nat)
    ensures Expire(s, now).commitActions == LiveActions(s.commitActions, now) && Expire(s, now).outbox.fired == s.outbox.fired
  {
    hide ToAll, Bag, LiveLease, ExpiredLease, WriteSenders, ReadSenders, JoinSenders;
  }

  /** A tick either keeps every action or drops exactly the expired ones. */
  lemma TickActions(s: State, heartbeat: bool, env: Env)
    ensures var t := Tick(s, heartbeat, env);
      && t.outbox.fired == s.outbox.fired
      && (t.commitActions == s.commitActions || t.commitActions == LiveActions(s.commitActions, env.now))
  {
    hide Execute, Expire, Accepts, LiveActions;
    ExpireActions(s, env.now);
    ExecuteActions(FlushPropose(s), s.proposePayloads, s.proposeSenders, [], env);
    ExpireActions(Execute(FlushPropose(s), s.proposePayloads, s.proposeSenders, [], env), env.now);
  }

  lemma CommitActions(s: State, n: nat)
    ensures CommitTo(s, n).commitActions == Above(s.commitActions, n)
    ensures CommitTo(s, n).outbox.fired == s.outbox.fired + multiset(Upto(s.commitActions, n).Keys)
  {
    hide Bag, Spread, Immediate, WriteSenders, JoinSenders;
  }

  lemma ServeActions(s: State, n: nat, code: ErrorCode)
    ensures SameActions(s, ServeReads(s, n)) && SameActions(s, FailWrites(s, code))
  {
    hide Bag, WriteSenders, ReadSenders;
  }

  lemma {:induction false} RespondActions(s: State, results: seq<ApplyResult>)
    ensures SameActions(s, Respond(s, results))
    decreases |results|
  {
    if results != [] {
      var r := results[0];
      if r.index in s.pendingWriteApply {
        RespondActions(s.(pendingWriteApply := s.pendingWriteApply - {r.index},
                          outbox := Send(s.outbox, s.pendingWriteApply[r.index],
                                         if r.succeeded then WriteSuccess else CasFailure, r.index)),
                       results[1..]);
      } else {
        RespondActions(s, results[1..]);
      }
    }
  }

  lemma StopActions(s: State)
    ensures SameActions(s, StepDown(s)) && SameActions(s, Fatal(s)) && SameActions(s, AckQuorum(s))
    ensures SameActions(s, ServeLease(s))
  {
    hide ToAll, Bag, LeaseSenders, WriteSenders, ReadSenders, ApplySenders;
  }

  lemma JoinActions(s: State, x: Sender, admitted: bool, change: nat, deadline: nat, k: nat)
    requires Inv(s) && k in s.commitActions
    ensures var t := Join(s, x, admitted, change, deadline);
      t.outbox.fired == s.outbox.fired && k in t.commitActions && t.commitActions[k] == s.commitActions[k]
  {
    hide Append, ToAll, WritesOk, ApplyOk, OriginOk, Ready, TicketsOk, AnswersOk;
    Appended(s.log, s.term, [Config(change)]);
  }

  lemma JoinFires(s: State, x: Sender, admitted: bool, change: nat, deadline: nat)
    ensures Join(s, x, admitted, change, deadline).outbox.fired == s.outbox.fired
  {
    hide Append, ToAll;
  }

  // ---- The life of an action --------------------------------------------------------------------

  /** Event `e` commits past index `k`. */
  predicate Commits(e: Event, k: nat) { e.Committed? && k <= e.n }

  /** Event `e` is a tick past `deadline`. */
  predicate Expires(e: Event, deadline: nat) { e.TickAt? && deadline <= e.env.now }

  /** Only a commit changes what has been run: by exactly the waiting actions it reaches. */
  lemma NextFires(s: State, e: Event)
    ensures Next(s, e).outbox.fired
            == if e.Committed? then s.outbox.fired + multiset(Upto(s.commitActions, e.n).Keys) else s.outbox.fired
  {
    hide Flush, Tick, CommitTo, ServeLease, AckQuorum, FailWrites, StepDown, Fatal, Join, PushPropose, PushRead, PushScan;
    hide Respond, ServeReads, Upto, Append;
    match e
    case Propose(x, cmd) => ProposeActions(s, x, cmd);
    case Read(x, policy) => ReadActions(s, x, policy);
    case Scan(x) => ProposeActions(s, x, None);
    case FlushBuffers(env) => FlushActions(s, env);
    case TickAt(heartbeat, env) => TickActions(s, heartbeat, env);
    case Committed(n) => CommitActions(s, n);
    case LeaseRenewed => StopActions(s);
    case QuorumAcked => StopActions(s);
    case StateMachineApplied(n) =>
    case ApplyReported(last, results) => ReportActions(s, last, results);
    case HigherTermSeen(term) => ServeActions(s.(term := term), 0, TermOutdated);
    case VoteSeen(term) =>
    case SteppedDown => StopActions(s);
    case FatalError => StopActions(s);
    case JoinRequested(x, admitted, change, deadline) => JoinFires(s, x, admitted, change, deadline);
    case ConfigProposed(change) =>
    case DiskPoisoned =>
  }

  lemma ReportActions(s: State, last: nat, results: seq<ApplyResult>)
    ensures SameActions(s, ApplyCompleted(s, last, results))
  {
    hide Respond, ServeReads;
    var t := s.(h := s.h.(reported := s.h.reported + ResultSet(results)));
    RespondActions(t, results);
    ServeActions(Respond(t, results), last, TermOutdated);
  }

  /** A waiting action keeps waiting, unless a commit reaches it or a tick finds it expired. */
  lemma NextKeeps(s: State, e: Event, k: nat)
    requires Inv(s) && Enabled(s, e) && k in s.commitActions
    requires !Commits(e, k) && !Expires(e, s.commitActions[k].deadline)
    ensures k in Next(s, e).commitActions && Next(s, e).commitActions[k] == s.commitActions[k]
  {
    hide Inv, Flush, Tick, CommitTo, ServeLease, AckQuorum, FailWrites, StepDown, Fatal, Join, PushPropose, PushRead, PushScan;
    hide Respond, ServeReads, Append;
    match e
    case Propose(x, cmd) => ProposeActions(s, x, cmd);
    case Read(x, policy) => ReadActions(s, x, policy);
    case Scan(x) => ProposeActions(s, x, None);
    case FlushBuffers(env) => FlushActions(s, env);
    case TickAt(heartbeat, env) => TickActions(s, heartbeat, env);
    case Committed(n) => CommitActions(s, n);
    case LeaseRenewed => StopActions(s);
    case QuorumAcked => StopActions(s);
    case StateMachineApplied(n) =>
    case ApplyReported(last, results) => ReportActions(s, last, results);
    case HigherTermSeen(term) => ServeActions(s.(term := term), 0, TermOutdated);
    case VoteSeen(term) =>
    case SteppedDown => StopActions(s);
    case FatalError => StopActions(s);
    case JoinRequested(x, admitted, change, deadline) => JoinActions(s, x, admitted, change, deadline, k);
    case ConfigProposed(change) =>
    case DiskPoisoned =>
  }

  ghost predicate CommittedWhileWaiting(tr: seq<State>, es: seq<Event>, i: nat, k: nat)
    requires |tr| == |es| + 1
  {
    i < |es| && Commits(es[i], k) && k in tr[i].commitActions
  }

  /**
   * An action runs at most once over a whole run, and it has run exactly when some commit
   * reached its index while it was waiting.
   */
  lemma {:induction false} FiresOnce(tr: seq<State>, es: seq<Event>, j: nat, k: nat)
    requires Run(tr, es) && j < |tr|
    ensures tr[j].outbox.fired[k] <= 1
    ensures tr[j].outbox.fired[k] == 1 ==> k <= tr[j].commitIndex
    ensures tr[j].outbox.fired[k] == 1 <==> exists i :: 0 <= i < j && CommittedWhileWaiting(tr, es, i, k)
  {
    RunInv(tr, es, j);
    FiredBounds(tr[j], k);
    hide Next, Inv, Elected;
    if j == 0 {
    } else {
      FiresOnce(tr, es, j - 1, k);
      NextFires(tr[j - 1], es[j - 1]);
      if CommittedWhileWaiting(tr, es, j - 1, k) {
        assert k in Upto(tr[j - 1].commitActions, es[j - 1].n);
      }
    }
  }

  lemma FiredBounds(s: State, k: nat)
    requires Inv(s)
    ensures s.outbox.fired[k] <= 1 && (s.outbox.fired[k] == 1 ==> k <= s.commitIndex)
  {
    hide LogOk, WritesOk, ApplyOk, OriginOk, Ready, TicketsOk, AnswersOk;
  }

  /** Some event from step `i` up to step `j` commits past `k`, or is a tick past `deadline`. */
  ghost predicate Ended(es: seq<Event>, i: nat, j: nat, k: nat, deadline: nat)
  {
    exists t :: i <= t < j && t < |es| && (Commits(es[t], k) || Expires(es[t], deadline))
  }

  /** An action still waits as it was registered, and a commit index that has moved since lies below it. */
  predicate StillWaits(s: State, t: State, k: nat)
  {
    && k in s.commitActions && k in t.commitActions && t.commitActions[k] == s.commitActions[k]
    && (t.commitIndex == s.commitIndex || t.commitIndex < k)
  }

  /** A registered action is never lost: it still waits, or a commit reached it, or a tick found it expired. */
  lemma {:induction false} ActionFate(tr: seq<State>, es: seq<Event>, i: nat, j: nat, k: nat)
    requires Run(tr, es) && i <= j < |tr| && k in tr[i].commitActions
    ensures StillWaits(tr[i], tr[j], k) || Ended(es, i, j, k, tr[i].commitActions[k].deadline)
    decreases j - i
  {
    hide Next, Inv, Elected, InitiateNoop, Ended, Enabled;
    if i < j {
      ActionFate(tr, es, i, j - 1, k);
      var d := tr[i].commitActions[k].deadline;
      if !Ended(es, i, j, k, d) {
        NotEndedBefore(es, i, j, k, d);
        FateStep(tr, es, i, j, k);
      }
    }
  }

  lemma NotEndedBefore(es: seq<Event>, i: nat, j: nat, k: nat, deadline: nat)
    requires 0 < j && !Ended(es, i, j, k, deadline)
    ensures !Ended(es, i, j - 1, k, deadline)
  {
  }

  lemma FateStep(tr: seq<State>, es: seq<Event>, i: nat, j: nat, k: nat)
    requires Run(tr, es) && i < j < |tr| && k in tr[i].commitActions
    requires !Ended(es, i, j, k, tr[i].commitActions[k].deadline) && StillWaits(tr[i], tr[j - 1], k)
    ensures StillWaits(tr[i], tr[j], k)
  {
    hide Next, Inv, Elected, InitiateNoop, Expires, Enabled;
    RunInv(tr, es, j - 1);
    NextKeeps(tr[j - 1], es[j - 1], k);
    PipelineTheorems.CommitStep(tr[j - 1], es[j - 1]);
  }

  /**
   * If the no-op lies above the commit index of the election, then all that waits for a commit, the
   * no-op's own key aside, lies above the commit index in every state.
   */
  lemma WaitsAbove(tr: seq<State>, es: seq<Event>, i: nat, k: nat)
    requires Run(tr, es) && i < |tr| && tr[0].commitIndex < tr[0].h.noopIndex
    ensures k in tr[i].pendingWrites ==> tr[i].commitIndex < k
    ensures k in tr[i].commitActions && tr[i].commitActions[k].action.NodeJoin? ==> tr[i].commitIndex < k
  {
    hide Next, Append, Bounded, LogOk, ApplyOk, OriginOk, Ready, TicketsOk, AnswersOk, DisjointBatches, Held;
    RunInv(tr, es, i);
    RunBase(tr, es, i);
  }

  lemma RunBase(tr: seq<State>, es: seq<Event>, i: nat)
    requires Run(tr, es) && i < |tr|
    ensures tr[i].h.base == tr[0].commitIndex && tr[i].h.noopIndex == tr[0].h.noopIndex
  {
    hide Next, Append, Bounded;
    RunGrows(tr, es, 0, i);
  }

  // ---- The no-op ------------------------------------------------------------------------------------

  /**
   * Whatever log was elected: the index under which the no-op is registered is the one it gets if and
   * only if the log was aligned, and the no-op lies above the commit index if and only if the commit
   * index lies below the next index to be handed out.
   */
  lemma NoopPredicted(s: State, deadline: nat)
    requires Elected(s) && !s.log.poisoned
    ensures var t := InitiateNoop(s, deadline);
      && t.h.noopIndex in t.log.entries && t.log.entries[t.h.noopIndex] == Entry(s.term, Noop)
      && t.commitActions == map[s.log.maxIndex + 1 := PostCommit(deadline, LeaderNoop(s.term))]
      && (t.h.noopIndex == s.log.maxIndex + 1 <==> Aligned(s.log))
      && (t.commitIndex < t.h.noopIndex <==> s.commitIndex < s.log.nextId)
      && Aligned(t.log)
  {
  }

  /** A node elected with this log and commit index, all of it applied. */
  function ElectedWith(log: Log, commit: nat): State
  {
    State(Limits(0, 0), 3, log, commit, commit, None, [], [], [], [], [],
          map[], map[], map[], [], map[], Outbox(multiset{}, {}, multiset{}), History({}, map[], map[], 0, {}, 3, commit))
  }

  /** A log whose tail was truncated after index 9 had been handed out: predicted 8, stored at 10. */
  lemma NoopMispredicted()
    ensures var s := ElectedWith(Log(map[7 := Entry(1, Noop)], 7, 10, false), 0);
      Elected(s) && InitiateNoop(s, 5).commitActions.Keys == {8} && InitiateNoop(s, 5).h.noopIndex == 10
  {
    var s := ElectedWith(Log(map[7 := Entry(1, Noop)], 7, 10, false), 0);
    assert InitiateNoop(s, 5).commitActions.Keys == {8};
  }

  /** A log emptied by a purge up to its committed end: predicted 1, below the commit index, stored at 8. */
  lemma PurgedNoopMispredicted()
    ensures var s := ElectedWith(PurgeTo(Log(map[7 := Entry(1, Noop)], 7, 8, false), 7), 7);
      Elected(s) && InitiateNoop(s, 5).commitActions.Keys == {1} && InitiateNoop(s, 5).h.noopIndex == 8
  {
    var l := PurgeTo(Log(map[7 := Entry(1, Noop)], 7, 8, false), 7);
    assert l == Log(map[], 0, 8, false);
    assert InitiateNoop(ElectedWith(l, 7), 5).commitActions.Keys == {1};
  }

  /** Entries up to 3, then a snapshot installed at 7 that purges them: the no-op is stored at 4, below the commit index. */
  lemma NoopBelowCommit()
    ensures var s := ElectedWith(PurgeTo(Log(map[3 := Entry(1, Noop)], 3, 4, false), 7), 7);
      Elected(s) && InitiateNoop(s, 5).h.noopIndex == 4 < InitiateNoop(s, 5).commitIndex
  {
    assert PurgeTo(Log(map[3 := Entry(1, Noop)], 3, 4, false), 7) == Log(map[], 0, 4, false);
  }

  /**
   * Once the no-op is confirmed it is committed and stored below the recorded index; and nothing
   * commits under this leader before its no-op, however the index was predicted.
   */
  lemma NoopConfirmed(tr: seq<State>, es: seq<Event>, i: nat)
    requires Run(tr, es) && i < |tr|
    ensures tr[i].noopLogId.Some? ==>
      && 0 < tr[i].h.noopIndex <= tr[i].commitIndex && tr[i].h.noopIndex <= tr[i].noopLogId.value
      && tr[i].h.noopIndex in tr[i].log.entries
      && tr[i].log.entries[tr[i].h.noopIndex] == Entry(tr[0].term, Noop)
    ensures i < |es| && es[i].Committed? ==> tr[i].h.noopIndex <= es[i].n
  {
    RunInv(tr, es, i);
    RunSince(tr, es, i);
    hide Next, Elected, InitiateNoop, WritesOk, ApplyOk, OriginOk, Ready, TicketsOk, AnswersOk;
    if i < |es| && es[i].Committed? { CommitCoversNoop(tr[i], es[i].n); }
  }

  /** A commit that reaches the waiting no-op records it, under the last index; that is the only way. */
  lemma NoopRecorded(tr: seq<State>, es: seq<Event>, i: nat)
    requires Run(tr, es) && i < |es|
    ensures (exists k :: CommittedWhileWaiting(tr, es, i, k) && tr[i].commitActions[k].action.LeaderNoop?)
            ==> tr[i + 1].noopLogId == Some(tr[i].log.maxIndex)
    ensures !(exists k :: CommittedWhileWaiting(tr, es, i, k) && tr[i].commitActions[k].action.LeaderNoop?)
            ==> tr[i + 1].noopLogId == tr[i].noopLogId
  {
    hide Next, Enabled, Elected, InitiateNoop;
    PipelineTheorems.CommitStep(tr[i], es[i]);
    if es[i].Committed? {
      var m := Upto(tr[i].commitActions, es[i].n);
      if k :| CommittedWhileWaiting(tr, es, i, k) && tr[i].commitActions[k].action.LeaderNoop? {
        assert k in m && m[k].action.LeaderNoop?;
      }
      if k :| k in m && m[k].action.LeaderNoop? { assert CommittedWhileWaiting(tr, es, i, k); }
    }
  }

  /** A recorded no-op stays recorded. */
  lemma {:induction false} NoopStays(tr: seq<State>, es: seq<Event>, i: nat, j: nat)
    requires Run(tr, es) && i <= j < |tr| && tr[i].noopLogId.Some?
    ensures tr[j].noopLogId.Some?
    decreases j - i
  {
    hide Next, Enabled, Elected, InitiateNoop;
    if i < j {
      NoopStays(tr, es, i, j - 1);
      NoopRecorded(tr, es, j - 1);
    }
  }
}
