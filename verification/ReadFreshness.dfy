/** A linearizable read never misses a write that was answered before the read was flushed. */
module ReadFreshness {
  import opened Types
  import opened Bags
  import opened RaftLogs
  import opened LeaderPipeline
  import opened PipelineConservation
  import opened PipelineInvariants
  import opened PipelineHistory
  import opened PipelineTheorems

  // ---- A flushed read with floor `f` -----------------------------------------------------------

  ghost predicate ReadsGuarded(m: map<nat, ReadBatch>, x: Sender, f: nat)
  {
    forall k :: k in m && x in m[k].requests ==> f <= k
  }

  ghost predicate AnswersGuarded(o: Outbox, x: Sender, f: nat)
  {
    forall a :: a in o.answers && a.sender == x && a.response.ReadResults? ==> f <= a.response.applied
  }

  /** `x` has left the read queues; it waits at or above `f`, or was served from `f` or later. */
  ghost predicate Guarded(s: State, x: Sender, f: nat)
  {
    && x in s.h.seen
    && x !in s.linearReads && x !in s.leaseQueue && x !in s.eventualQueue && x !in LeaseSenders(s.pendingLease)
    && ReadsGuarded(s.pendingReads, x, f)
    && AnswersGuarded(s.outbox, x, f)
  }

  // ---- Sending ---------------------------------------------------------------------------------

  lemma ReplyGuards(o: Outbox, xs: seq<Sender>, r: Response, x: Sender, f: nat)
    requires AnswersGuarded(o, x, f) && (x in xs && r.ReadResults? ==> f <= r.applied)
    ensures AnswersGuarded(Reply(o, xs, r), x, f)
  {
  }

  lemma BatchesGuard(o: Outbox, m: map<nat, seq<Sender>>, r: Response, x: Sender, f: nat)
    requires AnswersGuarded(o, x, f)
    requires r.ReadResults? && (exists k :: k in m && x in m[k]) ==> f <= r.applied
    ensures AnswersGuarded(ReplyBatches(o, m, r), x, f)
  {
    hide Bag;
  }

  lemma AwaitGuards(m: map<nat, ReadBatch>, k: nat, readers: seq<Sender>, deadline: nat, x: Sender, f: nat)
    requires ReadsGuarded(m, x, f) && (x in readers ==> f <= k)
    ensures ReadsGuarded(Await(m, k, readers, deadline), x, f)
  {
  }

  lemma ReadsPart(d: map<nat, ReadBatch>, m: map<nat, ReadBatch>, x: Sender, f: nat)
    requires ReadsGuarded(m, x, f) && PartOf(d, m)
    ensures ReadsGuarded(d, x, f)
  {
  }

  // ---- The read queues --------------------------------------------------------------------------

  lemma {:induction false} FilterMember(q: seq<Sender>, keep: set<Sender>, x: Sender)
    ensures x !in q ==> x !in Filter(q, keep) && x !in Without(q, keep)
  {
    if q != [] { FilterMember(q[1..], keep, x); }
  }

  lemma LeaseMember(q: seq<LeaseRead>, senders: seq<Sender>, deadline: nat, x: Sender)
    requires x !in LeaseSenders(q) && x !in senders
    ensures x !in LeaseSenders(q + Stamp(senders, deadline))
  {
    LeasePlus(q, Stamp(senders, deadline));
    StampSenders(senders, deadline);
  }

  lemma LiveLeaseMember(q: seq<LeaseRead>, now: nat, x: Sender)
    requires x !in LeaseSenders(q)
    ensures x !in LeaseSenders(LiveLease(q, now))
  {
    LeaseBag(x, q, now);
  }

  // ---- The steps ----------------------------------------------------------------------------------

  lemma PushGuards(s: State, y: Sender, cmd: Option<string>, x: Sender, f: nat)
    requires Guarded(s, x, f) && y != x
    ensures Guarded(PushPropose(s, y, cmd), x, f) && Guarded(PushScan(s, y), x, f)
  {
    hide Reply, LeaseSenders, AnswersGuarded, ReadsGuarded;
    ReplyGuards(s.outbox, [y], Refused(ResourceExhausted), x, f);
    ReplyGuards(s.outbox, [y], Refused(InvalidArgument), x, f);
    ReplyGuards(s.outbox, [y], ReadResults(s.lastApplied), x, f);
  }

  lemma ReadGuards(s: State, y: Sender, policy: ReadPolicy, x: Sender, f: nat)
    requires Guarded(s, x, f) && y != x
    ensures Guarded(PushRead(s, y, policy), x, f)
  {
    hide Reply, LeaseSenders, AnswersGuarded, ReadsGuarded, Rejects;
    ReplyGuards(s.outbox, [y], Refused(ResourceExhausted), x, f);
  }

  /** Routing a read: it waits at the read index or is served from at least there. */
  lemma RouteGuards(s: State, readers: seq<Sender>, env: Env, x: Sender, f: nat)
    requires Guarded(s, x, f) && (x in readers && s.noopLogId.Some? ==> f <= ReadIndex(s))
    ensures Guarded(RouteReads(s, readers, env), x, f)
  {
    hide Reply, LeaseSenders, AnswersGuarded, ReadsGuarded, Await, ReadIndex;
    ReplyGuards(s.outbox, readers, Refused(Unavailable), x, f);
    if s.noopLogId.Some? {
      if s.lastApplied >= ReadIndex(s) { ReplyGuards(s.outbox, readers, ReadResults(s.lastApplied), x, f); }
      AwaitGuards(s.pendingReads, ReadIndex(s), readers, env.now + env.timeout, x, f);
    }
  }

  lemma ExecuteGuards(s: State, payloads: seq<Payload>, senders: seq<Sender>, readers: seq<Sender>, env: Env, x: Sender, f: nat)
    requires Guarded(s, x, f) && (x in readers && s.noopLogId.Some? ==> f <= ReadIndex(s))
    ensures Guarded(Execute(s, payloads, senders, readers, env), x, f)
  {
    hide Reply, LeaseSenders, AnswersGuarded, ReadsGuarded, RouteReads, Append, Laid;
    ReplyGuards(s.outbox, senders, ClientError(ProposeFailed), x, f);
    ReplyGuards(Reply(s.outbox, senders, ClientError(ProposeFailed)), readers, Refused(FailedPrecondition), x, f);
    RouteGuards(StoreWrites(s, payloads, senders, env), readers, env, x, f);
  }

  lemma ServeQueuesGuards(s: State, env: Env, x: Sender, f: nat)
    requires Guarded(s, x, f)
    ensures Guarded(ServeQueues(s, env), x, f)
  {
    hide Reply, LeaseSenders, AnswersGuarded, ReadsGuarded, Filter, Without, Stamp;
    FilterMember(s.leaseQueue, env.leaseServed, x);
    LeaseMember(s.pendingLease, Without(s.leaseQueue, env.leaseServed), env.now + env.timeout, x);
    var served := Filter(s.leaseQueue, env.leaseServed);
    ReplyGuards(s.outbox, served, ReadResults(s.lastApplied), x, f);
    ReplyGuards(Reply(s.outbox, served, ReadResults(s.lastApplied)), s.eventualQueue, ReadResults(s.lastApplied), x, f);
  }

  /** Flushing: the read is taken from the queue and gets its floor. */
  lemma FlushGuards(s: State, env: Env, x: Sender, f: nat)
    requires Guarded(s.(linearReads := []), x, f) && (x in s.linearReads && s.noopLogId.Some? ==> f <= ReadIndex(s))
    ensures Guarded(Flush(s, env), x, f)
  {
    hide Execute, ServeQueues, LeaseSenders, AnswersGuarded, ReadsGuarded;
    var t := FlushPropose(s).(linearReads := []);
    ExecuteGuards(t, s.proposePayloads, s.proposeSenders, s.linearReads, env, x, f);
    ServeQueuesGuards(Execute(t, s.proposePayloads, s.proposeSenders, s.linearReads, env), env, x, f);
  }

  lemma ExpireGuards(s: State, now: nat, x: Sender, f: nat)
    requires Guarded(s, x, f)
    ensures Guarded(Expire(s, now), x, f)
  {
    hide Reply, ReplyBatches, LeaseSenders, AnswersGuarded, ReadsGuarded, LiveLease, ExpiredLease, WriteSenders, ReadSenders, JoinSenders;
    LiveLeaseMember(s.pendingLease, now, x);
    ReadsPart(LiveReads(s.pendingReads, now), s.pendingReads, x, f);
    var late := Refused(DeadlineExceeded);
    var w, r := WriteSenders(ExpiredWrites(s.pendingWrites, now)), ReadSenders(ExpiredReads(s.pendingReads, now));
    BatchesGuard(s.outbox, w, late, x, f);
    BatchesGuard(ReplyBatches(s.outbox, w, late), r, late, x, f);
    var o := ReplyBatches(ReplyBatches(s.outbox, w, late), r, late);
    ReplyGuards(o, ExpiredLease(s.pendingLease, now), late, x, f);
    BatchesGuard(Reply(o, ExpiredLease(s.pendingLease, now), late), JoinSenders(ExpiredActions(s.commitActions, now)), late, x, f);
  }

  lemma TickGuards(s: State, heartbeat: bool, env: Env, x: Sender, f: nat)
    requires Guarded(s, x, f)
    ensures Guarded(Tick(s, heartbeat, env), x, f)
  {
    hide Execute, Expire, LeaseSenders, AnswersGuarded, ReadsGuarded;
    ExecuteGuards(FlushPropose(s), s.proposePayloads, s.proposeSenders, [], env, x, f);
    ExpireGuards(s, env.now, x, f);
    ExpireGuards(Execute(FlushPropose(s), s.proposePayloads, s.proposeSenders, [], env), env.now, x, f);
  }

  lemma FireGuards(o: Outbox, ks: set<nat>, x: Sender, f: nat)
    requires AnswersGuarded(o, x, f)
    ensures AnswersGuarded(Fire(o, ks), x, f)
  {
  }

  lemma CommitGuards(s: State, n: nat, x: Sender, f: nat)
    requires Guarded(s, x, f)
    ensures Guarded(CommitTo(s, n), x, f)
  {
    hide ReplyBatches, LeaseSenders, AnswersGuarded, ReadsGuarded, Spread, Immediate, WriteSenders, JoinSenders, Upto, Above, Fire;
    var w := WriteSenders(Immediate(Upto(s.pendingWrites, n)));
    BatchesGuard(s.outbox, w, WriteSuccess, x, f);
    var o := ReplyBatches(s.outbox, w, WriteSuccess);
    var a := Upto(s.commitActions, n);
    BatchesGuard(o, JoinSenders(a), JoinSuccess, x, f);
    FireGuards(ReplyBatches(o, JoinSenders(a), JoinSuccess), a.Keys, x, f);
  }

  /** Serving waiting reads up to an index that is applied. */
  lemma ServeReadsGuards(s: State, n: nat, x: Sender, f: nat)
    requires Guarded(s, x, f) && n <= s.lastApplied
    ensures Guarded(ServeReads(s, n), x, f)
  {
    hide ReplyBatches, LeaseSenders, AnswersGuarded, ReadSenders;
    var m := Upto(s.pendingReads, n);
    assert (exists k :: k in ReadSenders(m) && x in ReadSenders(m)[k]) ==> f <= s.lastApplied by { ServedFloor(s.pendingReads, n, x, f); }
    BatchesGuard(s.outbox, ReadSenders(m), ReadResults(s.lastApplied), x, f);
  }

  lemma ServedFloor(m: map<nat, ReadBatch>, n: nat, x: Sender, f: nat)
    requires ReadsGuarded(m, x, f)
    ensures (exists k :: k in ReadSenders(Upto(m, n)) && x in ReadSenders(Upto(m, n))[k]) ==> f <= n
  {
  }

  lemma AckGuards(s: State, x: Sender, f: nat)
    requires Guarded(s, x, f)
    ensures Guarded(ServeLease(s), x, f) && Guarded(AckQuorum(s), x, f)
  {
    hide Reply, ServeReads, AnswersGuarded, ReadsGuarded;
    ReplyGuards(s.outbox, LeaseSenders(s.pendingLease), ReadResults(s.lastApplied), x, f);
    ServeReadsGuards(ServeLease(s), s.lastApplied, x, f);
  }

  lemma SendGuards(o: Outbox, y: Sender, r: ApplyResult, x: Sender, f: nat)
    requires AnswersGuarded(o, x, f)
    ensures AnswersGuarded(Send(o, y, if r.succeeded then WriteSuccess else CasFailure, r.index), x, f)
  {
  }

  lemma {:induction false} RespondGuards(s: State, results: seq<ApplyResult>, x: Sender, f: nat)
    requires Guarded(s, x, f)
    ensures Guarded(Respond(s, results), x, f)
    decreases |results|
  {
    hide Send, LeaseSenders, AnswersGuarded, ReadsGuarded;
    if results != [] {
      var r := results[0];
      if r.index in s.pendingWriteApply {
        SendGuards(s.outbox, s.pendingWriteApply[r.index], r, x, f);
        RespondGuards(s.(pendingWriteApply := s.pendingWriteApply - {r.index},
                         outbox := Send(s.outbox, s.pendingWriteApply[r.index],
                                        if r.succeeded then WriteSuccess else CasFailure, r.index)),
                      results[1..], x, f);
      } else {
        RespondGuards(s, results[1..], x, f);
      }
    }
  }

  lemma ReportGuards(s: State, last: nat, results: seq<ApplyResult>, x: Sender, f: nat)
    requires Guarded(s, x, f) && last <= s.lastApplied
    ensures Guarded(ApplyCompleted(s, last, results), x, f)
  {
    hide Respond, ServeReads, LeaseSenders, AnswersGuarded, ReadsGuarded;
    var t := s.(h := s.h.(reported := s.h.reported + ResultSet(results)));
    RespondGuards(t, results, x, f);
    RespondHistory(t, results);
    ServeReadsGuards(Respond(t, results), last, x, f);
  }

  lemma FailGuards(s: State, code: ErrorCode, x: Sender, f: nat)
    requires Guarded(s, x, f)
    ensures Guarded(FailWrites(s, code), x, f)
  {
    hide ReplyBatches, LeaseSenders, AnswersGuarded, ReadsGuarded, WriteSenders;
    BatchesGuard(s.outbox, WriteSenders(s.pendingWrites), ClientError(code), x, f);
  }

  lemma StopGuards(s: State, x: Sender, f: nat)
    requires Guarded(s, x, f)
    ensures Guarded(StepDown(s), x, f)
  {
    hide ReplyBatches, Reply, AnswersGuarded, ReadSenders, FailWrites;
    var q, r := s.linearReads + s.leaseQueue + s.eventualQueue, ReadSenders(s.pendingReads);
    ReplyGuards(s.outbox, q, Refused(Unavailable), x, f);
    var o := Reply(s.outbox, q, Refused(Unavailable));
    BatchesGuard(o, r, Refused(Unavailable), x, f);
    o := ReplyBatches(o, r, Refused(Unavailable));
    ReplyGuards(o, LeaseSenders(s.pendingLease), Refused(Unavailable), x, f);
    o := Reply(o, LeaseSenders(s.pendingLease), Refused(Unavailable));
    ReplyGuards(o, s.proposeSenders, Refused(FailedPrecondition), x, f);
    FailGuards(FlushPropose(s).(linearReads := [], leaseQueue := [], eventualQueue := [],
                                pendingReads := map[], pendingLease := [],
                                outbox := Reply(o, s.proposeSenders, Refused(FailedPrecondition))), ProposeFailed, x, f);
  }

  lemma FatalGuards(s: State, x: Sender, f: nat)
    requires Guarded(s, x, f)
    ensures Guarded(Fatal(s), x, f)
  {
    hide ReplyBatches, Reply, AnswersGuarded, ReadSenders, ApplySenders, LeaseSenders;
    var q := s.linearReads + s.leaseQueue + s.eventualQueue;
    BatchesGuard(s.outbox, ApplySenders(s.pendingWriteApply), Refused(Internal), x, f);
    var o := ReplyBatches(s.outbox, ApplySenders(s.pendingWriteApply), Refused(Internal));
    ReplyGuards(o, q, Refused(Internal), x, f);
    BatchesGuard(Reply(o, q, Refused(Internal)), ReadSenders(s.pendingReads), Refused(Internal), x, f);
  }

  lemma JoinGuards(s: State, y: Sender, admitted: bool, change: nat, deadline: nat, x: Sender, f: nat)
    requires Guarded(s, x, f)
    ensures Guarded(Join(s, y, admitted, change, deadline), x, f)
  {
    hide Reply, LeaseSenders, AnswersGuarded, ReadsGuarded, Append;
    ReplyGuards(s.outbox, [y], Refused(FailedPrecondition), x, f);
  }

  lemma FieldGuards(s: State, n: nat, l: Log, x: Sender, f: nat)
    requires Guarded(s, x, f)
    ensures Guarded(s.(lastApplied := n), x, f) && Guarded(s.(log := l), x, f) && Guarded(s.(linearReads := []), x, f)
  {
    hide LeaseSenders, AnswersGuarded, ReadsGuarded;
  }

  lemma NextGuards(s: State, e: Event, x: Sender, f: nat)
    requires Guarded(s, x, f) && Enabled(s, e)
    ensures Guarded(Next(s, e), x, f)
  {
    hide Flush, Tick, CommitTo, ServeLease, AckQuorum, ApplyCompleted, FailWrites, StepDown, Fatal, Join, Append;
    hide PushPropose, PushRead, PushScan, LeaseSenders, AnswersGuarded, ReadsGuarded;
    match e
    case Propose(y, cmd) => PushGuards(s, y, cmd, x, f);
    case Read(y, policy) => ReadGuards(s, y, policy, x, f);
    case Scan(y) => PushGuards(s, y, None, x, f);
    case FlushBuffers(env) => FieldGuards(s, 0, s.log, x, f); FlushGuards(s, env, x, f);
    case TickAt(heartbeat, env) => TickGuards(s, heartbeat, env, x, f);
    case Committed(n) => CommitGuards(s, n, x, f);
    case LeaseRenewed => AckGuards(s, x, f);
    case QuorumAcked => AckGuards(s, x, f);
    case StateMachineApplied(n) => FieldGuards(s, n, s.log, x, f);
    case ApplyReported(last, results) => ReportGuards(s, last, results, x, f);
    case HigherTermSeen(term) => FailGuards(s.(term := term), TermOutdated, x, f);
    case VoteSeen(term) =>
    case SteppedDown => StopGuards(s, x, f);
    case FatalError => FatalGuards(s, x, f);
    case JoinRequested(y, admitted, change, deadline) => JoinGuards(s, y, admitted, change, deadline, x, f);
    case ConfigProposed(change) => FieldGuards(s, 0, Append(s.log, s.term, [Config(change)]), x, f);
    case DiskPoisoned => FieldGuards(s, 0, s.log.(poisoned := true), x, f);
  }

  lemma {:induction false} RunGuards(tr: seq<State>, es: seq<Event>, i: nat, j: nat, x: Sender, f: nat)
    requires Run(tr, es) && i <= j < |tr| && Guarded(tr[i], x, f)
    ensures Guarded(tr[j], x, f)
    decreases j - i
  {
    hide Guarded, Next, Elected, InitiateNoop;
    if i < j {
      RunGuards(tr, es, i, j - 1, x, f);
      NextGuards(tr[j - 1], es[j - 1], x, f);
    }
  }

  // ---- The theorem -----------------------------------------------------------------------------------

  /** A read about to be flushed waits nowhere else and has not been answered. */
  lemma QueuedOnly(s: State, x: Sender, f: nat)
    requires Inv(s) && x in s.linearReads && Copies(s, x) == One(x in s.h.seen)
    ensures Guarded(s.(linearReads := []), x, f)
  {
    hide LogOk, ActionsOk, WritesOk, ApplyOk, OriginOk, Ready, TicketsOk, LeaseSenders, Bag;
    assert multiset(s.linearReads)[x] > 0;
    WaitsNowhere(s.pendingReads, x);
  }

  lemma WaitsNowhere(m: map<nat, ReadBatch>, x: Sender)
    requires Bag(ReadSenders(m))[x] == 0
    ensures forall k :: k in m ==> x !in m[k].requests
  {
    hide Bag;
    BagMember(ReadSenders(m), x);
    forall k | k in m ensures x !in m[k].requests { assert x !in ReadSenders(m)[k]; }
  }

  /** What a flushed read must see: the read index, or anything at all if it is to be refused. */
  lemma FlushedFloor(tr: seq<State>, es: seq<Event>, i: nat, j: nat, x: Sender, f: nat)
    requires Run(tr, es) && i < |es| && es[i].FlushBuffers? && x in tr[i].linearReads && i < j < |tr|
    requires tr[i].noopLogId.Some? ==> f <= ReadIndex(tr[i])
    ensures Guarded(tr[j], x, f)
  {
    hide Inv, Guarded, Flush, Elected, InitiateNoop, Waiting, ReadIndex;
    RunInv(tr, es, i);
    SenderConservation(tr, es, i, x);
    QueuedOnly(tr[i], x, f);
    FlushGuards(tr[i], es[i].env, x, f);
    RunGuards(tr, es, i + 1, j, x, f);
  }

  lemma WritesBelowReadIndex(s: State, a: Answer)
    requires Inv(s) && a in s.outbox.answers && Outcome(a.response)
    ensures a.index <= ReadIndex(s)
  {
    hide ActionsOk, WritesOk, ApplyOk, OriginOk, Ready, TicketsOk;
    assert AnswerOk(a, s.h.origin, s.lastApplied, s.h.reported);
  }

  lemma NoopBelowReadIndex(s: State)
    requires Inv(s) && s.noopLogId.Some?
    ensures 0 < s.h.noopIndex <= s.commitIndex && s.h.noopIndex <= ReadIndex(s)
    ensures s.h.noopIndex in s.log.entries && s.log.entries[s.h.noopIndex] == Entry(s.h.since, Noop)
  {
    hide WritesOk, ApplyOk, OriginOk, Ready, TicketsOk, AnswersOk;
  }

  /**
   * Read freshness: if a linearizable read flushed at step `i` is ever answered with a result,
   * on any of the serving paths, then at the flush this leader's no-op was committed, and the
   * state machine that served it had applied the no-op and every write answered before the flush.
   */
  lemma FreshReads(tr: seq<State>, es: seq<Event>, i: nat, j: nat, x: Sender, applied: nat)
    requires Run(tr, es) && i < |es| && es[i].FlushBuffers? && x in tr[i].linearReads && i < j < |tr|
    requires Answer(x, ReadResults(applied), 0) in tr[j].outbox.answers
    ensures applied <= tr[j].lastApplied
    ensures forall a :: a in tr[i].outbox.answers && Outcome(a.response) ==> a.index <= applied
    ensures 0 < tr[i].h.noopIndex <= tr[i].commitIndex && tr[i].h.noopIndex <= applied
    ensures tr[i].h.noopIndex in tr[i].log.entries
            && tr[i].log.entries[tr[i].h.noopIndex] == Entry(tr[0].term, Noop)
  {
    hide Inv, Flush, Elected, InitiateNoop, ReadIndex, Next, ReadsGuarded;
    var s := tr[i];
    RunInv(tr, es, i);
    RunInv(tr, es, j);
    RunSince(tr, es, i);
    ServedApplied(tr[j], x, applied);
    if s.noopLogId.None? {
      FlushedFloor(tr, es, i, j, x, applied + 1);
      assert false;
    }
    FlushedFloor(tr, es, i, j, x, ReadIndex(s));
    forall a | a in s.outbox.answers && Outcome(a.response) ensures a.index <= applied { WritesBelowReadIndex(s, a); }
    NoopBelowReadIndex(s);
  }

  lemma ServedApplied(s: State, x: Sender, applied: nat)
    requires Inv(s) && Answer(x, ReadResults(applied), 0) in s.outbox.answers
    ensures applied <= s.lastApplied
  {
    hide LogOk, ActionsOk, WritesOk, ApplyOk, OriginOk, Ready, TicketsOk;
    assert AnswerOk(Answer(x, ReadResults(applied), 0), s.h.origin, s.lastApplied, s.h.reported);
  }
}
