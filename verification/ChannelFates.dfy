/**
 * The pipeline seen from one response channel: where it waits, and where each event takes it.  In every
 * run each channel is in exactly one place, and moves as the table `Fate` says.
 */
module ChannelFates {
  import opened Types
  import opened Bags
  import opened RaftLogs
  import opened LeaderPipeline
  import opened PipelineConservation
  import opened PipelineInvariants
  import opened PipelineHistory
  import opened PipelineTheorems

  /** A place of a channel: a queue, a buffer with the index or deadline it waits for, or its answer. */
  datatype Place =
    | Proposed(pos: nat)
    | LinearQueue
    | LeaseQueue
    | EventualQueue
    | WriteBatch(key: nat, index: nat)
    | AwaitsApply(index: nat)
    | AwaitsRead(key: nat)
    | ParkedLease(deadline: nat)
    | AwaitsJoin(key: nat)
    | Done(response: Response, index: nat)

  predicate Is(s: State, x: Sender, p: Place)
  {
    match p
    case Proposed(pos) => pos < |s.proposeSenders| && s.proposeSenders[pos] == x
    case LinearQueue => x in s.linearReads
    case LeaseQueue => x in s.leaseQueue
    case EventualQueue => x in s.eventualQueue
    case WriteBatch(k, i) => k in s.pendingWrites && Holds(s.pendingWrites[k], i, x)
    case AwaitsApply(i) => i in s.pendingWriteApply && s.pendingWriteApply[i] == x
    case AwaitsRead(k) => k in s.pendingReads && x in s.pendingReads[k].requests
    case ParkedLease(d) => LeaseRead(x, d) in s.pendingLease
    case AwaitsJoin(k) => k in s.commitActions && s.commitActions[k].action == NodeJoin(x)
    case Done(r, i) => Answer(x, r, i) in s.outbox.answers
  }

  /** The batch carries channel `x` for log index `i`. */
  predicate Holds(w: WriteMetadata, i: nat, x: Sender) { w.start <= i < w.start + |w.senders| && w.senders[i - w.start] == x }

  // ---- The table --------------------------------------------------------------------------------------

  /** The log takes a batch unless it has failed and there is something to write. */
  predicate Takes(s: State) { s.proposePayloads == [] || !s.log.poisoned }

  /** When a place expires, if it does. */
  function DeadlineOf(s: State, p: Place): Option<nat>
  {
    match p
    case WriteBatch(k, _) => if k in s.pendingWrites then Some(s.pendingWrites[k].deadline) else None
    case AwaitsRead(k) => if k in s.pendingReads then Some(s.pendingReads[k].deadline) else None
    case ParkedLease(d) => Some(d)
    case AwaitsJoin(k) => if k in s.commitActions then Some(s.commitActions[k].deadline) else None
    case _ => None
  }

  predicate Late(s: State, p: Place, now: nat) { DeadlineOf(s, p).Some? && DeadlineOf(s, p).value <= now }

  /** Both the commit index and the recorded no-op have been applied. */
  predicate Current(s: State) { s.commitIndex <= s.lastApplied && (s.noopLogId.Some? ==> s.noopLogId.value <= s.lastApplied) }

  /** What becomes of a linearizable read when it is flushed. */
  function LinearFate(s: State, env: Env): Place
  {
    if !Takes(s) then Done(Refused(FailedPrecondition), 0)
    else if s.noopLogId.None? then Done(Refused(Unavailable), 0)
    else if env.confirmed && Current(s) then Done(ReadResults(s.lastApplied), 0)
    else AwaitsRead(Max(s.commitIndex, s.noopLogId.value))
  }

  function WriteFate(s: State, pos: nat): Place
  {
    if Takes(s) then WriteBatch(s.log.maxIndex + |s.proposeSenders|, s.log.maxIndex + 1 + pos) else Done(ClientError(ProposeFailed), 0)
  }

  function FlushFate(s: State, env: Env, x: Sender, p: Place): Place
  {
    match p
    case Proposed(pos) => WriteFate(s, pos)
    case LinearQueue => LinearFate(s, env)
    case LeaseQueue =>
      if !Takes(s) then p else if x in env.leaseServed then Done(ReadResults(s.lastApplied), 0) else ParkedLease(env.now + env.timeout)
    case EventualQueue => if Takes(s) then Done(ReadResults(s.lastApplied), 0) else p
    case _ => p
  }

  /** A tick expires what is late, unless its heartbeat failed; a write it has just stored has the full timeout. */
  function TickFate(s: State, heartbeat: bool, env: Env, p: Place): Place
  {
    if heartbeat && p.Proposed? then
      (if Takes(s) && env.timeout == 0 then Done(Refused(DeadlineExceeded), 0) else WriteFate(s, p.pos))
    else if (heartbeat ==> Takes(s)) && Late(s, p, env.now) then Done(Refused(DeadlineExceeded), 0)
    else p
  }

  /** The first result reported for index `i`. */
  function ResultFor(results: seq<ApplyResult>, i: nat): Option<ApplyResult>
  {
    if results == [] then None else if results[0].index == i then Some(results[0]) else ResultFor(results[1..], i)
  }

  function ReportFate(s: State, last: nat, results: seq<ApplyResult>, p: Place): Place
  {
    match p
    case AwaitsApply(i) =>
      var r := ResultFor(results, i);
      if r.None? then p else Done(if r.value.succeeded then WriteSuccess else CasFailure, i)
    case AwaitsRead(k) => if k <= last then Done(ReadResults(s.lastApplied), 0) else p
    case _ => p
  }

  function CommitFate(n: nat, p: Place): Place
  {
    match p
    case WriteBatch(k, i) => if k <= n then AwaitsApply(i) else p
    case AwaitsJoin(k) => if k <= n then Done(JoinSuccess, 0) else p
    case _ => p
  }

  function StepDownFate(p: Place): Place
  {
    match p
    case Proposed(_) => Done(Refused(FailedPrecondition), 0)
    case WriteBatch(_, _) => Done(ClientError(ProposeFailed), 0)
    case AwaitsApply(_) => p
    case AwaitsJoin(_) => p
    case Done(_, _) => p
    case _ => Done(Refused(Unavailable), 0)
  }

  function FatalFate(p: Place): Place
  {
    match p
    case Proposed(_) => p
    case WriteBatch(_, _) => p
    case ParkedLease(_) => p
    case AwaitsJoin(_) => p
    case Done(_, _) => p
    case _ => Done(Refused(Internal), 0)
  }

  /** Where an event takes a channel that is not its own. */
  function Fate(s: State, e: Event, x: Sender, p: Place): Place
  {
    match e
    case FlushBuffers(env) => FlushFate(s, env, x, p)
    case TickAt(heartbeat, env) => TickFate(s, heartbeat, env, p)
    case Committed(n) => CommitFate(n, p)
    case LeaseRenewed => if p.ParkedLease? then Done(ReadResults(s.lastApplied), 0) else p
    case QuorumAcked =>
      if p.ParkedLease? || (p.AwaitsRead? && p.key <= s.lastApplied) then Done(ReadResults(s.lastApplied), 0) else p
    case ApplyReported(last, results) => ReportFate(s, last, results, p)
    case HigherTermSeen(_) => if p.WriteBatch? then Done(ClientError(TermOutdated), 0) else p
    case SteppedDown => StepDownFate(p)
    case FatalError => FatalFate(p)
    case _ => p
  }

  predicate Full(limit: nat, queued: nat) { 0 < limit <= queued }

  /** Where a channel arrives: refused at the limit, queued by what is asked, or answered at once. */
  function Arrival(s: State, e: Event): Place
    requires e.Propose? || e.Read? || e.Scan? || e.JoinRequested?
  {
    var refused := Done(Refused(ResourceExhausted), 0);
    if e.Propose? then
      (if Full(s.limits.maxWrites, |s.proposeSenders|) then refused
       else if e.cmd.None? then Done(Refused(InvalidArgument), 0) else Proposed(|s.proposeSenders|))
    else if e.Read? then
      (match e.policy
       case Linearizable => if Full(s.limits.maxReads, |s.linearReads|) then refused else LinearQueue
       case Lease => if Full(s.limits.maxReads, |s.leaseQueue|) then refused else LeaseQueue
       case Eventual => if Full(s.limits.maxReads, |s.eventualQueue|) then refused else EventualQueue)
    else if e.Scan? then Done(ReadResults(s.lastApplied), 0)
    else if e.admitted && !s.log.poisoned then AwaitsJoin(s.log.maxIndex + 1) else Done(Refused(FailedPrecondition), 0)
  }

  // ---- Moving ------------------------------------------------------------------------------------------

  /** Whatever place `x` has in `s` becomes its place in `t`, and it has no other there. */
  ghost predicate Moves(s: State, t: State, e: Event, x: Sender)
  {
    && (forall p :: Is(s, x, p) ==> Is(t, x, Fate(s, e, x, p)))
    && (forall q :: Is(t, x, q) ==> exists p :: Is(s, x, p) && Fate(s, e, x, p) == q)
  }

  lemma Told(xs: seq<Sender>, r: Response, x: Sender, r': Response, i: nat)
    ensures Answer(x, r', i) in ToAll(xs, r) <==> x in xs && r' == r && i == 0
  {
  }

  lemma BatchTold(m: map<nat, seq<Sender>>, r: Response, x: Sender, r': Response, i: nat)
    ensures Answer(x, r', i) in ToBatches(m, r) <==> r' == r && i == 0 && exists k :: k in m && x in m[k]
  {
  }

  lemma WritesTold(m: map<nat, WriteMetadata>, r: Response, x: Sender, r': Response, i: nat)
    ensures Answer(x, r', i) in ToBatches(WriteSenders(m), r) <==> r' == r && i == 0 && exists k, j :: k in m && Holds(m[k], j, x)
  {
    BatchTold(WriteSenders(m), r, x, r', i);
    if k :| k in m && x in WriteSenders(m)[k] {
      var j :| 0 <= j < |m[k].senders| && m[k].senders[j] == x;
      assert Holds(m[k], m[k].start + j, x);
    }
    if k, j :| k in m && Holds(m[k], j, x) {
      assert k in WriteSenders(m) && x in WriteSenders(m)[k];
    }
  }

  lemma ReadsTold(m: map<nat, ReadBatch>, r: Response, x: Sender, r': Response, i: nat)
    ensures Answer(x, r', i) in ToBatches(ReadSenders(m), r) <==> r' == r && i == 0 && exists k :: k in m && x in m[k].requests
  {
    BatchTold(ReadSenders(m), r, x, r', i);
    if k :| k in m && x in m[k].requests { assert k in ReadSenders(m) && x in ReadSenders(m)[k]; }
    if k :| k in ReadSenders(m) && x in ReadSenders(m)[k] { assert k in m && x in m[k].requests; }
  }

  lemma JoinsTold(m: map<nat, PostCommit>, r: Response, x: Sender, r': Response, i: nat)
    ensures Answer(x, r', i) in ToBatches(JoinSenders(m), r) <==> r' == r && i == 0 && exists k :: k in m && m[k].action == NodeJoin(x)
  {
    BatchTold(JoinSenders(m), r, x, r', i);
    if k :| k in m && m[k].action == NodeJoin(x) { assert k in JoinSenders(m) && x in JoinSenders(m)[k]; }
    if k :| k in JoinSenders(m) && x in JoinSenders(m)[k] { assert k in m && m[k].action == NodeJoin(x); }
  }

  lemma AppliesTold(m: map<nat, Sender>, r: Response, x: Sender, r': Response, i: nat)
    ensures Answer(x, r', i) in ToBatches(ApplySenders(m), r) <==> r' == r && i == 0 && exists k :: k in m && m[k] == x
  {
    BatchTold(ApplySenders(m), r, x, r', i);
    if k :| k in m && m[k] == x { assert k in ApplySenders(m) && x in ApplySenders(m)[k]; }
    if k :| k in ApplySenders(m) && x in ApplySenders(m)[k] { assert k in m && m[k] == x; }
  }

  lemma LeaseTold(q: seq<LeaseRead>, r: Response, x: Sender, r': Response, i: nat)
    ensures Answer(x, r', i) in ToAll(LeaseSenders(q), r) <==> r' == r && i == 0 && exists d :: LeaseRead(x, d) in q
  {
    Told(LeaseSenders(q), r, x, r', i);
    LeaseHas(q, x);
  }

  lemma {:induction false} LeaseHas(q: seq<LeaseRead>, x: Sender)
    ensures x in LeaseSenders(q) <==> exists d :: LeaseRead(x, d) in q
  {
    if q != [] {
      LeaseHas(q[1..], x);
      if d :| LeaseRead(x, d) in q { assert LeaseRead(x, d) == q[0] || LeaseRead(x, d) in q[1..]; }
      if x == q[0].sender { assert LeaseRead(x, q[0].deadline) in q; }
      if x in LeaseSenders(q[1..]) { var d :| LeaseRead(x, d) in q[1..]; assert LeaseRead(x, d) in q; }
    }
  }

  predicate SameQueues(s: State, t: State)
  {
    && t.proposeSenders == s.proposeSenders && t.linearReads == s.linearReads
    && t.leaseQueue == s.leaseQueue && t.eventualQueue == s.eventualQueue
  }

  /** Everything but the queues and the answers. */
  predicate SameBuffers(s: State, t: State)
  {
    && t.pendingWrites == s.pendingWrites && t.pendingWriteApply == s.pendingWriteApply && t.pendingReads == s.pendingReads
    && t.pendingLease == s.pendingLease && t.commitActions == s.commitActions
  }

  lemma SamePlaces(s: State, t: State, x: Sender, p: Place)
    requires SameQueues(s, t) && SameBuffers(s, t) && t.outbox.answers == s.outbox.answers
    ensures Is(s, x, p) <==> Is(t, x, p)
  {
  }

  // ---- Commit --------------------------------------------------------------------------------------------

  lemma CommitFields(s: State, n: nat)
    requires Inv(s)
    ensures var t := CommitTo(s, n);
      && SameQueues(s, t) && t.pendingReads == s.pendingReads && t.pendingLease == s.pendingLease
      && t.pendingWrites == Above(s.pendingWrites, n) && t.commitActions == Above(s.commitActions, n)
      && t.pendingWriteApply == s.pendingWriteApply + Spread(Upto(s.pendingWrites, n))
      && t.outbox.answers == s.outbox.answers + ToBatches(JoinSenders(Upto(s.commitActions, n)), JoinSuccess)
  {
    hide Inv, Bag, Spread, JoinSenders, Upto, Above, HasNoop;
    BatchFacts(s);
    NoImmediate(s.pendingWrites, n);
    assert ToBatches(map[], WriteSuccess) == {};
  }

  lemma SpreadIs(s: State, n: nat, x: Sender, i: nat)
    requires Inv(s)
    ensures var m, c := s.pendingWriteApply, Upto(s.pendingWrites, n);
      i in m + Spread(c) && (m + Spread(c))[i] == x
      <==> (i in m && m[i] == x) || exists k :: k in s.pendingWrites && k <= n && Holds(s.pendingWrites[k], i, x)
  {
    hide Inv, Spread, Covers, Laid;
    BatchFacts(s);
    var m, c := s.pendingWriteApply, Upto(s.pendingWrites, n);
    UptoDisjoint(m, s.pendingWrites, n);
    SpreadApart(m, c);
    if i in Spread(c) {
      var k := SpreadFromBatch(c, i);
      assert Holds(c[k], i, Spread(c)[i]);
      forall j | j in s.pendingWrites && j <= n && Holds(s.pendingWrites[j], i, x) ensures Spread(c)[i] == x { SpreadOfBatch(c, j, i, x); }
    }
    forall j | j in s.pendingWrites && j <= n && Holds(s.pendingWrites[j], i, x) ensures i in Spread(c) && Spread(c)[i] == x {
      SpreadOfBatch(c, j, i, x);
    }
  }

  lemma SpreadOfBatch(c: map<nat, WriteMetadata>, k: nat, i: nat, x: Sender)
    requires DisjointBatches(c) && k in c && Holds(c[k], i, x)
    ensures i in Spread(c) && Spread(c)[i] == x
  {
    hide Spread;
    assert Covers(c, k, i);
    SpreadAt(c, k, i);
  }

  lemma SpreadFromBatch(c: map<nat, WriteMetadata>, i: nat) returns (k: nat)
    requires DisjointBatches(c) && i in Spread(c)
    ensures k in c && Holds(c[k], i, Spread(c)[i])
  {
    k :| Covers(c, k, i);
    SpreadAt(c, k, i);
  }

  lemma CommitGoes(s: State, n: nat, x: Sender, p: Place)
    requires Inv(s) && Is(s, x, p)
    ensures Is(CommitTo(s, n), x, CommitFate(n, p))
  {
    hide Inv, CommitTo, Spread, JoinSenders, ToBatches;
    CommitFields(s, n);
    match p
    case WriteBatch(k, i) => SpreadIs(s, n, x, i);
    case AwaitsApply(i) => SpreadIs(s, n, x, i);
    case AwaitsJoin(k) =>
      var m := Upto(s.commitActions, n);
      JoinsTold(m, JoinSuccess, x, JoinSuccess, 0);
      assert k <= n ==> k in m && m[k].action == NodeJoin(x);
    case _ =>
  }

  lemma CommitComes(s: State, n: nat, x: Sender, q: Place) returns (p: Place)
    requires Inv(s) && Is(CommitTo(s, n), x, q)
    ensures Is(s, x, p) && CommitFate(n, p) == q
  {
    hide Inv, CommitTo, Spread, JoinSenders, ToBatches;
    CommitFields(s, n);
    p := q;
    match q
    case AwaitsApply(i) =>
      SpreadIs(s, n, x, i);
      if !Is(s, x, q) {
        var k :| k in s.pendingWrites && k <= n && Holds(s.pendingWrites[k], i, x);
        p := WriteBatch(k, i);
      }
    case Done(r, i) =>
      var m := Upto(s.commitActions, n);
      JoinsTold(m, JoinSuccess, x, r, i);
      if !Is(s, x, q) {
        var k :| k in m && m[k].action == NodeJoin(x);
        p := AwaitsJoin(k);
      }
    case _ =>
  }

  // ---- Quorum confirmations and apply reports -----------------------------------------------------------------

  lemma LeaseGoes(s: State, x: Sender, p: Place)
    requires Is(s, x, p)
    ensures Is(ServeLease(s), x, if p.ParkedLease? then Done(ReadResults(s.lastApplied), 0) else p)
  {
    hide LeaseSenders, ToAll;
    if p.ParkedLease? { LeaseTold(s.pendingLease, ReadResults(s.lastApplied), x, ReadResults(s.lastApplied), 0); }
  }

  lemma LeaseComes(s: State, x: Sender, q: Place) returns (p: Place)
    requires Is(ServeLease(s), x, q)
    ensures Is(s, x, p) && q == if p.ParkedLease? then Done(ReadResults(s.lastApplied), 0) else p
  {
    hide LeaseSenders, ToAll;
    p := q;
    if q.Done? && !Is(s, x, q) {
      LeaseTold(s.pendingLease, ReadResults(s.lastApplied), x, q.response, q.index);
      var d :| LeaseRead(x, d) in s.pendingLease;
      p := ParkedLease(d);
    }
  }

  function ServedFate(s: State, n: nat, p: Place): Place
  {
    if p.AwaitsRead? && p.key <= n then Done(ReadResults(s.lastApplied), 0) else p
  }

  lemma ServedGoes(s: State, n: nat, x: Sender, p: Place)
    requires Is(s, x, p)
    ensures Is(ServeReads(s, n), x, ServedFate(s, n, p))
  {
    hide ReadSenders, Bag, ToBatches;
    var m := Upto(s.pendingReads, n);
    if p.AwaitsRead? && p.key <= n {
      ReadsTold(m, ReadResults(s.lastApplied), x, ReadResults(s.lastApplied), 0);
      assert p.key in m && x in m[p.key].requests;
    }
  }

  lemma ServedComes(s: State, n: nat, x: Sender, q: Place) returns (p: Place)
    requires Is(ServeReads(s, n), x, q)
    ensures Is(s, x, p) && ServedFate(s, n, p) == q
  {
    hide ReadSenders, Bag, ToBatches;
    p := q;
    if q.Done? && !Is(s, x, q) {
      var m := Upto(s.pendingReads, n);
      ReadsTold(m, ReadResults(s.lastApplied), x, q.response, q.index);
      var k :| k in m && x in m[k].requests;
      p := AwaitsRead(k);
    }
  }

  lemma AckGoes(s: State, x: Sender, p: Place)
    requires Is(s, x, p)
    ensures Is(AckQuorum(s), x, Fate(s, QuorumAcked, x, p))
  {
    hide ServeLease, ServeReads, Is;
    LeaseGoes(s, x, p);
    StopHistory(s);
    ServedGoes(ServeLease(s), s.lastApplied, x, if p.ParkedLease? then Done(ReadResults(s.lastApplied), 0) else p);
  }

  lemma AckComes(s: State, x: Sender, q: Place) returns (p: Place)
    requires Is(AckQuorum(s), x, q)
    ensures Is(s, x, p) && Fate(s, QuorumAcked, x, p) == q
  {
    hide ServeLease, ServeReads, Is;
    StopHistory(s);
    var mid := ServedComes(ServeLease(s), s.lastApplied, x, q);
    p := LeaseComes(s, x, mid);
  }

  function AppliedFate(results: seq<ApplyResult>, p: Place): Place
  {
    if !p.AwaitsApply? then p else
    var r := ResultFor(results, p.index);
    if r.None? then p else Done(if r.value.succeeded then WriteSuccess else CasFailure, p.index)
  }

  /** The state after the first result. */
  function FirstDone(s: State, r: ApplyResult): State
  {
    if r.index !in s.pendingWriteApply then s else
    s.(pendingWriteApply := s.pendingWriteApply - {r.index},
       outbox := Send(s.outbox, s.pendingWriteApply[r.index], if r.succeeded then WriteSuccess else CasFailure, r.index))
  }

  lemma ResultOne(r: ApplyResult, i: nat)
    ensures ResultFor([r], i) == if r.index == i then Some(r) else None
  {
    assert [r][1..] == [] && ResultFor([], i) == None;
  }

  lemma OneGoes(s: State, r: ApplyResult, x: Sender, p: Place)
    requires Is(s, x, p)
    ensures Is(FirstDone(s, r), x, AppliedFate([r], p))
  {
    if p.AwaitsApply? { ResultOne(r, p.index); }
  }

  lemma OneComes(s: State, r: ApplyResult, x: Sender, q: Place) returns (p: Place)
    requires Is(FirstDone(s, r), x, q)
    ensures Is(s, x, p) && AppliedFate([r], p) == q
  {
    p := q;
    if q.Done? && !Is(s, x, q) { p := AwaitsApply(r.index); }
    if p.AwaitsApply? { ResultOne(r, p.index); }
  }

  lemma RespondOne(s: State, results: seq<ApplyResult>)
    requires results != []
    ensures Respond(s, results) == Respond(FirstDone(s, results[0]), results[1..])
  {
  }

  lemma FateOne(results: seq<ApplyResult>, p: Place)
    requires results != []
    ensures AppliedFate(results, p) == AppliedFate(results[1..], AppliedFate([results[0]], p))
  {
    if p.AwaitsApply? { ResultOne(results[0], p.index); }
  }

  lemma {:induction false} RespondGoes(s: State, results: seq<ApplyResult>, x: Sender, p: Place)
    requires Is(s, x, p)
    ensures Is(Respond(s, results), x, AppliedFate(results, p))
    decreases |results|
  {
    hide Is, FirstDone, AppliedFate;
    if results == [] {
      assert Respond(s, results) == s && AppliedFate(results, p) == p by { NoResults(s, p); }
    } else {
      RespondOne(s, results);
      FateOne(results, p);
      OneGoes(s, results[0], x, p);
      RespondGoes(FirstDone(s, results[0]), results[1..], x, AppliedFate([results[0]], p));
    }
  }

  lemma NoResults(s: State, p: Place)
    ensures Respond(s, []) == s && AppliedFate([], p) == p
  {
  }

  lemma {:induction false} RespondComes(s: State, results: seq<ApplyResult>, x: Sender, q: Place) returns (p: Place)
    requires Is(Respond(s, results), x, q)
    ensures Is(s, x, p) && AppliedFate(results, p) == q
    decreases |results|
  {
    hide Is, FirstDone, AppliedFate;
    if results == [] {
      NoResults(s, q);
      p := q;
    } else {
      RespondOne(s, results);
      var mid := RespondComes(FirstDone(s, results[0]), results[1..], x, q);
      p := OneComes(s, results[0], x, mid);
      FateOne(results, p);
    }
  }

  lemma ReportGoes(s: State, last: nat, results: seq<ApplyResult>, x: Sender, p: Place)
    requires Is(s, x, p)
    ensures Is(ApplyCompleted(s, last, results), x, ReportFate(s, last, results, p))
  {
    hide Respond, ServeReads, ResultSet;
    var t := s.(h := s.h.(reported := s.h.reported + ResultSet(results)));
    SamePlaces(s, t, x, p);
    RespondGoes(t, results, x, p);
    RespondHistory(t, results);
    ServedGoes(Respond(t, results), last, x, AppliedFate(results, p));
  }

  lemma ReportComes(s: State, last: nat, results: seq<ApplyResult>, x: Sender, q: Place) returns (p: Place)
    requires Is(ApplyCompleted(s, last, results), x, q)
    ensures Is(s, x, p) && ReportFate(s, last, results, p) == q
  {
    hide Respond, ServeReads, ResultSet;
    var t := s.(h := s.h.(reported := s.h.reported + ResultSet(results)));
    RespondHistory(t, results);
    var mid := ServedComes(Respond(t, results), last, x, q);
    p := RespondComes(t, results, x, mid);
    SamePlaces(s, t, x, p);
  }

  // ---- Expiry --------------------------------------------------------------------------------------------------

  function LateFate(s: State, now: nat, p: Place): Place
  {
    if Late(s, p, now) then Done(Refused(DeadlineExceeded), 0) else p
  }

  lemma ExpireFields(s: State, now: nat)
    ensures var t, late := Expire(s, now), Refused(DeadlineExceeded);
      && SameQueues(s, t) && t.pendingWriteApply == s.pendingWriteApply
      && t.pendingWrites == LiveWrites(s.pendingWrites, now) && t.pendingReads == LiveReads(s.pendingReads, now)
      && t.pendingLease == LiveLease(s.pendingLease, now) && t.commitActions == LiveActions(s.commitActions, now)
      && t.outbox.answers == s.outbox.answers
         + ToBatches(WriteSenders(ExpiredWrites(s.pendingWrites, now)), late)
         + ToBatches(ReadSenders(ExpiredReads(s.pendingReads, now)), late)
         + ToAll(ExpiredLease(s.pendingLease, now), late)
         + ToBatches(JoinSenders(ExpiredActions(s.commitActions, now)), late)
  {
    hide Bag, WriteSenders, ReadSenders, JoinSenders, LiveWrites, LiveReads, LiveActions, LiveLease, ExpiredLease, ToAll, ToBatches;
  }

  lemma {:induction false} LeaseParts(q: seq<LeaseRead>, now: nat, x: Sender, d: nat)
    ensures LeaseRead(x, d) in LiveLease(q, now) <==> LeaseRead(x, d) in q && now < d
    ensures LeaseRead(x, d) in q && d <= now ==> x in ExpiredLease(q, now)
  {
    if q != [] {
      LeaseParts(q[1..], now, x, d);
      assert q == [q[0]] + q[1..];
    }
  }

  lemma {:induction false} ExpiredFrom(q: seq<LeaseRead>, now: nat, x: Sender) returns (d: nat)
    requires x in ExpiredLease(q, now)
    ensures LeaseRead(x, d) in q && d <= now
  {
    if q[0].deadline <= now && q[0].sender == x {
      d := q[0].deadline;
      assert LeaseRead(x, d) == q[0];
    } else {
      d := ExpiredFrom(q[1..], now, x);
    }
  }

  lemma ExpireGoes(s: State, now: nat, x: Sender, p: Place)
    requires Is(s, x, p)
    ensures Is(Expire(s, now), x, LateFate(s, now, p))
  {
    hide Expire, WriteSenders, ReadSenders, JoinSenders, ToAll, ToBatches, LiveLease, ExpiredLease;
    ExpireFields(s, now);
    var late := Refused(DeadlineExceeded);
    match p
    case WriteBatch(k, i) =>
      var m := ExpiredWrites(s.pendingWrites, now);
      WritesTold(m, late, x, late, 0);
      assert Late(s, p, now) ==> k in m && Holds(m[k], i, x);
    case AwaitsRead(k) =>
      var m := ExpiredReads(s.pendingReads, now);
      ReadsTold(m, late, x, late, 0);
      assert Late(s, p, now) ==> k in m && x in m[k].requests;
    case ParkedLease(d) =>
      LeaseParts(s.pendingLease, now, x, d);
      Told(ExpiredLease(s.pendingLease, now), late, x, late, 0);
    case AwaitsJoin(k) =>
      var m := ExpiredActions(s.commitActions, now);
      JoinsTold(m, late, x, late, 0);
      assert Late(s, p, now) ==> k in m && m[k].action == NodeJoin(x);
    case _ =>
  }

  lemma ExpireComes(s: State, now: nat, x: Sender, q: Place) returns (p: Place)
    requires Is(Expire(s, now), x, q)
    ensures Is(s, x, p) && LateFate(s, now, p) == q
  {
    hide Expire, WriteSenders, ReadSenders, JoinSenders, ToAll, ToBatches, LiveLease, ExpiredLease;
    ExpireFields(s, now);
    p := q;
    match q
    case ParkedLease(d) => LeaseParts(s.pendingLease, now, x, d);
    case Done(r, i) => if !Is(s, x, q) { p := ExpiredPlace(s, now, x, r, i); }
    case _ =>
  }

  lemma ExpiredPlace(s: State, now: nat, x: Sender, r: Response, i: nat) returns (p: Place)
    requires Answer(x, r, i) in Expire(s, now).outbox.answers && Answer(x, r, i) !in s.outbox.answers
    ensures Is(s, x, p) && LateFate(s, now, p) == Done(r, i)
  {
    hide Expire, WriteSenders, ReadSenders, JoinSenders, ToAll, ToBatches, LiveLease, ExpiredLease;
    ExpireFields(s, now);
    var late := Refused(DeadlineExceeded);
    var w, b, a := ExpiredWrites(s.pendingWrites, now), ExpiredReads(s.pendingReads, now), ExpiredActions(s.commitActions, now);
    WritesTold(w, late, x, r, i);
    ReadsTold(b, late, x, r, i);
    JoinsTold(a, late, x, r, i);
    Told(ExpiredLease(s.pendingLease, now), late, x, r, i);
    if k, j :| k in w && Holds(w[k], j, x) {
      p := WriteBatch(k, j);
    } else if k :| k in b && x in b[k].requests {
      p := AwaitsRead(k);
    } else if k :| k in a && a[k].action == NodeJoin(x) {
      p := AwaitsJoin(k);
    } else {
      var d := ExpiredFrom(s.pendingLease, now, x);
      p := ParkedLease(d);
    }
  }

  // ---- Giving up ---------------------------------------------------------------------------------------------------

  function FailedFate(code: ErrorCode, p: Place): Place { if p.WriteBatch? then Done(ClientError(code), 0) else p }

  lemma FailGoes(s: State, code: ErrorCode, x: Sender, p: Place)
    requires Is(s, x, p)
    ensures Is(FailWrites(s, code), x, FailedFate(code, p))
  {
    hide WriteSenders, Bag, ToBatches;
    if p.WriteBatch? { WritesTold(s.pendingWrites, ClientError(code), x, ClientError(code), 0); }
  }

  lemma FailComes(s: State, code: ErrorCode, x: Sender, q: Place) returns (p: Place)
    requires Is(FailWrites(s, code), x, q)
    ensures Is(s, x, p) && FailedFate(code, p) == q
  {
    hide WriteSenders, Bag, ToBatches;
    p := q;
    if q.Done? && !Is(s, x, q) {
      WritesTold(s.pendingWrites, ClientError(code), x, q.response, q.index);
      var k, j :| k in s.pendingWrites && Holds(s.pendingWrites[k], j, x);
      p := WriteBatch(k, j);
    }
  }

  lemma StepDownFields(s: State)
    ensures var t, gone := StepDown(s), Refused(Unavailable);
      && t.proposeSenders == t.linearReads == t.leaseQueue == t.eventualQueue == [] && t.pendingWrites == map[]
      && t.pendingReads == map[] && t.pendingLease == []
      && t.pendingWriteApply == s.pendingWriteApply && t.commitActions == s.commitActions
      && t.outbox.answers == s.outbox.answers
         + ToAll(s.linearReads + s.leaseQueue + s.eventualQueue, gone)
         + ToBatches(ReadSenders(s.pendingReads), gone)
         + ToAll(LeaseSenders(s.pendingLease), gone)
         + ToAll(s.proposeSenders, Refused(FailedPrecondition))
         + ToBatches(WriteSenders(s.pendingWrites), ClientError(ProposeFailed))
  {
    hide Bag, WriteSenders, ReadSenders, LeaseSenders, ToAll, ToBatches;
  }

  lemma StepDownGoes(s: State, x: Sender, p: Place)
    requires Is(s, x, p)
    ensures Is(StepDown(s), x, StepDownFate(p))
  {
    hide StepDown, WriteSenders, ReadSenders, LeaseSenders, ToAll, ToBatches;
    StepDownFields(s);
    var gone := Refused(Unavailable);
    match p
    case Proposed(pos) => Told(s.proposeSenders, Refused(FailedPrecondition), x, Refused(FailedPrecondition), 0);
    case WriteBatch(k, i) => WritesTold(s.pendingWrites, ClientError(ProposeFailed), x, ClientError(ProposeFailed), 0);
    case AwaitsRead(k) => ReadsTold(s.pendingReads, gone, x, gone, 0);
    case ParkedLease(d) => LeaseTold(s.pendingLease, gone, x, gone, 0);
    case _ => Told(s.linearReads + s.leaseQueue + s.eventualQueue, gone, x, gone, 0);
  }

  /** The queue a channel of the three read queues is in. */
  lemma QueueOf(s: State, x: Sender) returns (p: Place)
    requires x in s.linearReads + s.leaseQueue + s.eventualQueue
    ensures Is(s, x, p) && (p.LinearQueue? || p.LeaseQueue? || p.EventualQueue?)
  {
    p := if x in s.linearReads then LinearQueue else if x in s.leaseQueue then LeaseQueue else EventualQueue;
  }

  lemma StepDownComes(s: State, x: Sender, q: Place) returns (p: Place)
    requires Is(StepDown(s), x, q)
    ensures Is(s, x, p) && StepDownFate(p) == q
  {
    hide StepDown, WriteSenders, ReadSenders, LeaseSenders, ToAll, ToBatches;
    StepDownFields(s);
    p := q;
    if q.Done? && !Is(s, x, q) {
      var gone, r, i := Refused(Unavailable), q.response, q.index;
      var queues := s.linearReads + s.leaseQueue + s.eventualQueue;
      Told(queues, gone, x, r, i);
      ReadsTold(s.pendingReads, gone, x, r, i);
      LeaseTold(s.pendingLease, gone, x, r, i);
      Told(s.proposeSenders, Refused(FailedPrecondition), x, r, i);
      WritesTold(s.pendingWrites, ClientError(ProposeFailed), x, r, i);
      if r == Refused(FailedPrecondition) {
        var pos :| 0 <= pos < |s.proposeSenders| && s.proposeSenders[pos] == x;
        p := Proposed(pos);
      } else if r == ClientError(ProposeFailed) {
        var k, j :| k in s.pendingWrites && Holds(s.pendingWrites[k], j, x);
        p := WriteBatch(k, j);
      } else if x in queues {
        p := QueueOf(s, x);
      } else if k :| k in s.pendingReads && x in s.pendingReads[k].requests {
        p := AwaitsRead(k);
      } else {
        var d :| LeaseRead(x, d) in s.pendingLease;
        p := ParkedLease(d);
      }
    }
  }

  lemma FatalFields(s: State)
    ensures var t, gone := Fatal(s), Refused(Internal);
      && t.linearReads == t.leaseQueue == t.eventualQueue == [] && t.pendingWriteApply == map[] && t.pendingReads == map[]
      && t.proposeSenders == s.proposeSenders && t.pendingWrites == s.pendingWrites && t.pendingLease == s.pendingLease
      && t.commitActions == s.commitActions
      && t.outbox.answers == s.outbox.answers + ToBatches(ApplySenders(s.pendingWriteApply), gone)
         + ToAll(s.linearReads + s.leaseQueue + s.eventualQueue, gone) + ToBatches(ReadSenders(s.pendingReads), gone)
  {
    hide Bag, ApplySenders, ReadSenders, ToAll, ToBatches;
  }

  lemma FatalGoes(s: State, x: Sender, p: Place)
    requires Is(s, x, p)
    ensures Is(Fatal(s), x, FatalFate(p))
  {
    hide Fatal, ApplySenders, ReadSenders, ToAll, ToBatches;
    FatalFields(s);
    var gone := Refused(Internal);
    match p
    case AwaitsApply(i) => AppliesTold(s.pendingWriteApply, gone, x, gone, 0);
    case AwaitsRead(k) => ReadsTold(s.pendingReads, gone, x, gone, 0);
    case _ => Told(s.linearReads + s.leaseQueue + s.eventualQueue, gone, x, gone, 0);
  }

  lemma FatalComes(s: State, x: Sender, q: Place) returns (p: Place)
    requires Is(Fatal(s), x, q)
    ensures Is(s, x, p) && FatalFate(p) == q
  {
    hide Fatal, ApplySenders, ReadSenders, ToAll, ToBatches;
    FatalFields(s);
    p := q;
    if q.Done? && !Is(s, x, q) {
      var gone, r, i := Refused(Internal), q.response, q.index;
      var queues := s.linearReads + s.leaseQueue + s.eventualQueue;
      Told(queues, gone, x, r, i);
      ReadsTold(s.pendingReads, gone, x, r, i);
      AppliesTold(s.pendingWriteApply, gone, x, r, i);
      if x in queues {
        p := QueueOf(s, x);
      } else if k :| k in s.pendingReads && x in s.pendingReads[k].requests {
        p := AwaitsRead(k);
      } else {
        var k :| k in s.pendingWriteApply && s.pendingWriteApply[k] == x;
        p := AwaitsApply(k);
      }
    }
  }

  // ---- Flushing ----------------------------------------------------------------------------------------------------

  lemma RouteFields(s: State, rs: seq<Sender>, env: Env)
    ensures var u := RouteReads(s, rs, env);
      && SameQueues(s, u) && u.pendingWriteApply == s.pendingWriteApply && u.pendingLease == s.pendingLease
      && u.commitActions == s.commitActions && u.lastApplied == s.lastApplied && u.pendingWrites == s.pendingWrites
      && (rs == [] ==> u.pendingReads == s.pendingReads && u.outbox.answers == s.outbox.answers)
      && (rs != [] && s.noopLogId.None? ==>
            u.pendingReads == s.pendingReads && u.outbox.answers == s.outbox.answers + ToAll(rs, Refused(Unavailable)))
      && (rs != [] && s.noopLogId.Some? && env.confirmed && Current(s) ==>
            u.pendingReads == s.pendingReads && u.outbox.answers == s.outbox.answers + ToAll(rs, ReadResults(s.lastApplied)))
      && (rs != [] && s.noopLogId.Some? && !(env.confirmed && Current(s)) ==>
            u.pendingReads == Await(s.pendingReads, Max(s.commitIndex, s.noopLogId.value), rs, env.now + env.timeout)
            && u.outbox.answers == s.outbox.answers)
  {
    hide ToAll, Await;
  }

  lemma RefusedFields(s: State, ps: seq<Payload>, xs: seq<Sender>, rs: seq<Sender>)
    ensures var u := PrepareFailed(s, ps, xs, rs);
      && SameQueues(s, u) && SameBuffers(s, u) && u.lastApplied == s.lastApplied
      && u.outbox.answers == s.outbox.answers + ToAll(xs, ClientError(ProposeFailed)) + ToAll(rs, Refused(FailedPrecondition))
  {
    hide Append, ToAll;
  }

  lemma StoredFields(s: State, ps: seq<Payload>, xs: seq<Sender>, env: Env)
    ensures var u := StoreWrites(s, ps, xs, env);
      && SameQueues(s, u) && u.pendingWriteApply == s.pendingWriteApply && u.pendingLease == s.pendingLease
      && u.commitActions == s.commitActions && u.lastApplied == s.lastApplied && u.pendingReads == s.pendingReads
      && u.outbox == s.outbox && u.noopLogId == s.noopLogId && u.commitIndex == s.commitIndex
      && u.pendingWrites == (if xs == [] then s.pendingWrites else
           s.pendingWrites[s.log.maxIndex + |xs| := WriteMetadata(s.log.maxIndex + 1, xs, true, env.now + env.timeout)])
  {
    hide Append, Laid;
  }

  /** What executing a batch does to the buffers and the answers. */
  lemma ExecuteFields(s: State, ps: seq<Payload>, xs: seq<Sender>, rs: seq<Sender>, env: Env)
    ensures var u := Execute(s, ps, xs, rs, env);
      && SameQueues(s, u) && u.pendingWriteApply == s.pendingWriteApply && u.pendingLease == s.pendingLease
      && u.commitActions == s.commitActions && u.lastApplied == s.lastApplied
    ensures var u := Execute(s, ps, xs, rs, env);
      !(ps == [] || !s.log.poisoned) ==>
        SameBuffers(s, u)
        && u.outbox.answers == s.outbox.answers + ToAll(xs, ClientError(ProposeFailed)) + ToAll(rs, Refused(FailedPrecondition))
    ensures var u := Execute(s, ps, xs, rs, env);
      ps == [] || !s.log.poisoned ==>
        && u.pendingWrites == (if xs == [] then s.pendingWrites else
             s.pendingWrites[s.log.maxIndex + |xs| := WriteMetadata(s.log.maxIndex + 1, xs, true, env.now + env.timeout)])
        && (rs == [] ==> u.pendingReads == s.pendingReads && u.outbox.answers == s.outbox.answers)
        && (rs != [] && s.noopLogId.None? ==>
              u.pendingReads == s.pendingReads && u.outbox.answers == s.outbox.answers + ToAll(rs, Refused(Unavailable)))
        && (rs != [] && s.noopLogId.Some? && env.confirmed && Current(s) ==>
              u.pendingReads == s.pendingReads && u.outbox.answers == s.outbox.answers + ToAll(rs, ReadResults(s.lastApplied)))
        && (rs != [] && s.noopLogId.Some? && !(env.confirmed && Current(s)) ==>
              u.pendingReads == Await(s.pendingReads, Max(s.commitIndex, s.noopLogId.value), rs, env.now + env.timeout)
              && u.outbox.answers == s.outbox.answers)
  {
    hide StoreWrites, RouteReads, PrepareFailed, ToAll, Await;
    RefusedFields(s, ps, xs, rs);
    StoredFields(s, ps, xs, env);
    RouteFields(StoreWrites(s, ps, xs, env), rs, env);
  }

  /** The batch of a flush, or of a heartbeat, which carries no reads. */
  function Batch(s: State, env: Env, reading: bool): State
  {
    if reading then Execute(FlushPropose(s).(linearReads := []), s.proposePayloads, s.proposeSenders, s.linearReads, env)
    else Execute(FlushPropose(s), s.proposePayloads, s.proposeSenders, [], env)
  }

  function BatchFate(s: State, env: Env, reading: bool, p: Place): Place
  {
    if p.Proposed? then WriteFate(s, p.pos) else if reading && p.LinearQueue? then LinearFate(s, env) else p
  }

  lemma AwaitHas(m: map<nat, ReadBatch>, k: nat, rs: seq<Sender>, d: nat, j: nat, x: Sender)
    ensures var t := Await(m, k, rs, d);
      j in t && x in t[j].requests <==> (j in m && x in m[j].requests) || (j == k && x in rs)
    ensures j in m ==> Await(m, k, rs, d)[j].deadline == m[j].deadline
  {
  }

  /** A flushed read goes where the table says. */
  lemma LinearGoes(s: State, env: Env, x: Sender)
    requires x in s.linearReads
    ensures Is(Batch(s, env, true), x, LinearFate(s, env))
  {
    hide Execute, ToAll, Await;
    var b := FlushPropose(s).(linearReads := []);
    ExecuteFields(b, s.proposePayloads, s.proposeSenders, s.linearReads, env);
    Told(s.linearReads, Refused(FailedPrecondition), x, Refused(FailedPrecondition), 0);
    Told(s.linearReads, Refused(Unavailable), x, Refused(Unavailable), 0);
    Told(s.linearReads, ReadResults(s.lastApplied), x, ReadResults(s.lastApplied), 0);
    if s.noopLogId.Some? {
      var k := Max(s.commitIndex, s.noopLogId.value);
      AwaitHas(s.pendingReads, k, s.linearReads, env.now + env.timeout, k, x);
    }
  }

  lemma WriteGoes(s: State, env: Env, reading: bool, x: Sender, pos: nat)
    requires Is(s, x, Proposed(pos))
    ensures Is(Batch(s, env, reading), x, WriteFate(s, pos))
  {
    hide Execute, ToAll, Await;
    ExecuteFields(FlushPropose(s).(linearReads := []), s.proposePayloads, s.proposeSenders, s.linearReads, env);
    ExecuteFields(FlushPropose(s), s.proposePayloads, s.proposeSenders, [], env);
    Told(s.proposeSenders, ClientError(ProposeFailed), x, ClientError(ProposeFailed), 0);
  }

  lemma StaysInBatch(s: State, env: Env, reading: bool, x: Sender, p: Place)
    requires Inv(s) && Is(s, x, p) && !p.Proposed? && !(reading && p.LinearQueue?)
    ensures Is(Batch(s, env, reading), x, p)
  {
    hide Execute, ToAll, Await, Inv;
    if s.proposeSenders != [] { FreshKey(s, |s.proposeSenders|); }
    ExecuteFields(FlushPropose(s).(linearReads := []), s.proposePayloads, s.proposeSenders, s.linearReads, env);
    ExecuteFields(FlushPropose(s), s.proposePayloads, s.proposeSenders, [], env);
    if p.AwaitsRead? && s.noopLogId.Some? {
      AwaitHas(s.pendingReads, Max(s.commitIndex, s.noopLogId.value), s.linearReads, env.now + env.timeout, p.key, x);
    }
  }

  lemma BatchGoes(s: State, env: Env, reading: bool, x: Sender, p: Place)
    requires Inv(s) && Is(s, x, p)
    ensures Is(Batch(s, env, reading), x, BatchFate(s, env, reading, p))
  {
    hide Inv, Batch, WriteFate, LinearFate;
    if p.Proposed? {
      WriteGoes(s, env, reading, x, p.pos);
    } else if reading && p.LinearQueue? {
      LinearGoes(s, env, x);
    } else {
      StaysInBatch(s, env, reading, x, p);
    }
  }

  lemma BatchAnswered(s: State, env: Env, reading: bool, x: Sender, r: Response, i: nat) returns (p: Place)
    requires Answer(x, r, i) in Batch(s, env, reading).outbox.answers && Answer(x, r, i) !in s.outbox.answers
    ensures Is(s, x, p) && BatchFate(s, env, reading, p) == Done(r, i)
  {
    hide Execute, ToAll, Await;
    var b := if reading then FlushPropose(s).(linearReads := []) else FlushPropose(s);
    var rs := if reading then s.linearReads else [];
    ExecuteFields(b, s.proposePayloads, s.proposeSenders, rs, env);
    Told(s.proposeSenders, ClientError(ProposeFailed), x, r, i);
    Told(rs, Refused(FailedPrecondition), x, r, i);
    Told(rs, Refused(Unavailable), x, r, i);
    Told(rs, ReadResults(s.lastApplied), x, r, i);
    if x in rs && LinearFate(s, env) == Done(r, i) {
      p := LinearQueue;
    } else {
      var pos :| 0 <= pos < |s.proposeSenders| && s.proposeSenders[pos] == x;
      p := Proposed(pos);
    }
  }

  lemma BatchComes(s: State, env: Env, reading: bool, x: Sender, q: Place) returns (p: Place)
    requires Inv(s) && Is(Batch(s, env, reading), x, q)
    ensures Is(s, x, p) && BatchFate(s, env, reading, p) == q
  {
    hide Execute, ToAll, Await, Inv;
    if s.proposeSenders != [] { FreshKey(s, |s.proposeSenders|); }
    var b := if reading then FlushPropose(s).(linearReads := []) else FlushPropose(s);
    var rs := if reading then s.linearReads else [];
    ExecuteFields(b, s.proposePayloads, s.proposeSenders, rs, env);
    p := q;
    match q
    case WriteBatch(k, i) =>
      if !Is(s, x, q) { p := Proposed(i - s.log.maxIndex - 1); }
    case AwaitsRead(k) =>
      if s.noopLogId.Some? { AwaitHas(s.pendingReads, Max(s.commitIndex, s.noopLogId.value), rs, env.now + env.timeout, k, x); }
      if !Is(s, x, q) { p := LinearQueue; }
    case Done(r, i) => if !Is(s, x, q) { p := BatchAnswered(s, env, reading, x, r, i); }
    case _ =>
  }

  function QueuesFate(s: State, env: Env, x: Sender, p: Place): Place
  {
    match p
    case LeaseQueue => if x in env.leaseServed then Done(ReadResults(s.lastApplied), 0) else ParkedLease(env.now + env.timeout)
    case EventualQueue => Done(ReadResults(s.lastApplied), 0)
    case _ => p
  }

  lemma {:induction false} FilterHas(q: seq<Sender>, keep: set<Sender>, x: Sender)
    ensures x in Filter(q, keep) <==> x in q && x in keep
    ensures x in Without(q, keep) <==> x in q && x !in keep
  {
    if q != [] { FilterHas(q[1..], keep, x); }
  }

  lemma {:induction false} StampHas(q: seq<Sender>, d: nat, x: Sender, d': nat)
    ensures LeaseRead(x, d') in Stamp(q, d) <==> x in q && d' == d
  {
    if q != [] { StampHas(q[1..], d, x, d'); }
  }

  lemma QueuesFields(s: State, env: Env)
    ensures var t, res := ServeQueues(s, env), ReadResults(s.lastApplied);
      && t.proposeSenders == s.proposeSenders && t.linearReads == s.linearReads && t.leaseQueue == t.eventualQueue == []
      && t.pendingWrites == s.pendingWrites && t.pendingWriteApply == s.pendingWriteApply && t.pendingReads == s.pendingReads
      && t.commitActions == s.commitActions
      && t.pendingLease == s.pendingLease + Stamp(Without(s.leaseQueue, env.leaseServed), env.now + env.timeout)
      && t.outbox.answers == s.outbox.answers + ToAll(Filter(s.leaseQueue, env.leaseServed), res) + ToAll(s.eventualQueue, res)
  {
    hide Filter, Without, Stamp, ToAll;
  }

  lemma QueuesGoes(s: State, env: Env, x: Sender, p: Place)
    requires Is(s, x, p)
    ensures Is(ServeQueues(s, env), x, QueuesFate(s, env, x, p))
  {
    hide ServeQueues, Filter, Without, Stamp, ToAll;
    QueuesFields(s, env);
    var res := ReadResults(s.lastApplied);
    FilterHas(s.leaseQueue, env.leaseServed, x);
    Told(Filter(s.leaseQueue, env.leaseServed), res, x, res, 0);
    Told(s.eventualQueue, res, x, res, 0);
    StampHas(Without(s.leaseQueue, env.leaseServed), env.now + env.timeout, x, env.now + env.timeout);
  }

  lemma QueuesComes(s: State, env: Env, x: Sender, q: Place) returns (p: Place)
    requires Is(ServeQueues(s, env), x, q)
    ensures Is(s, x, p) && QueuesFate(s, env, x, p) == q
  {
    hide ServeQueues, Filter, Without, Stamp, ToAll;
    QueuesFields(s, env);
    var res := ReadResults(s.lastApplied);
    FilterHas(s.leaseQueue, env.leaseServed, x);
    p := q;
    match q
    case ParkedLease(d) =>
      StampHas(Without(s.leaseQueue, env.leaseServed), env.now + env.timeout, x, d);
      if !Is(s, x, q) { p := LeaseQueue; }
    case Done(r, i) =>
      Told(Filter(s.leaseQueue, env.leaseServed), res, x, r, i);
      Told(s.eventualQueue, res, x, r, i);
      if !Is(s, x, q) { p := if x in s.eventualQueue then EventualQueue else LeaseQueue; }
    case _ =>
  }

  lemma BatchKeeps(s: State, env: Env, reading: bool)
    ensures Batch(s, env, reading).lastApplied == s.lastApplied
    ensures Flush(s, env) == if Takes(s) then ServeQueues(Batch(s, env, true), env) else Batch(s, env, true)
    ensures Tick(s, true, env) == if Takes(s) then Expire(Batch(s, env, false), env.now) else Batch(s, env, false)
  {
    hide Execute, ServeQueues, Expire;
    ExecuteFields(FlushPropose(s).(linearReads := []), s.proposePayloads, s.proposeSenders, s.linearReads, env);
    ExecuteFields(FlushPropose(s), s.proposePayloads, s.proposeSenders, [], env);
  }

  /** The table for a flush, in two steps. */
  lemma FlushComposes(s: State, t: State, env: Env, x: Sender, p: Place)
    requires t.lastApplied == s.lastApplied
    ensures FlushFate(s, env, x, p)
            == if Takes(s) then QueuesFate(t, env, x, BatchFate(s, env, true, p)) else BatchFate(s, env, true, p)
  {
  }

  lemma FlushGoes(s: State, env: Env, x: Sender, p: Place)
    requires Inv(s) && Is(s, x, p)
    ensures Is(Flush(s, env), x, FlushFate(s, env, x, p))
  {
    hide Inv, Is, Flush, Batch, ServeQueues, Tick, Takes, FlushFate, QueuesFate, BatchFate;
    BatchKeeps(s, env, true);
    BatchGoes(s, env, true, x, p);
    FlushComposes(s, Batch(s, env, true), env, x, p);
    if Takes(s) { QueuesGoes(Batch(s, env, true), env, x, BatchFate(s, env, true, p)); }
  }

  lemma FlushComes(s: State, env: Env, x: Sender, q: Place) returns (p: Place)
    requires Inv(s) && Is(Flush(s, env), x, q)
    ensures Is(s, x, p) && FlushFate(s, env, x, p) == q
  {
    hide Inv, Is, Flush, Batch, ServeQueues, Tick, Takes, FlushFate, QueuesFate, BatchFate;
    BatchKeeps(s, env, true);
    var mid := q;
    if Takes(s) { mid := QueuesComes(Batch(s, env, true), env, x, q); }
    p := BatchComes(s, env, true, x, mid);
    FlushComposes(s, Batch(s, env, true), env, x, p);
  }

  // ---- Ticks -----------------------------------------------------------------------------------------------------------

  /** After a heartbeat: a stored write has the new deadline, everything else the one it had. */
  lemma BatchDeadlines(s: State, env: Env, x: Sender, p: Place)
    requires Inv(s) && Is(s, x, p) && Takes(s)
    ensures DeadlineOf(Batch(s, env, false), BatchFate(s, env, false, p))
            == if p.Proposed? then Some(env.now + env.timeout) else DeadlineOf(s, p)
  {
    hide Execute, ToAll, Inv;
    if s.proposeSenders != [] { FreshKey(s, |s.proposeSenders|); }
    ExecuteFields(FlushPropose(s), s.proposePayloads, s.proposeSenders, [], env);
  }

  lemma TickGoes(s: State, heartbeat: bool, env: Env, x: Sender, p: Place)
    requires Inv(s) && Is(s, x, p)
    ensures Is(Tick(s, heartbeat, env), x, TickFate(s, heartbeat, env, p))
  {
    hide Inv, Is, Flush, Batch, Expire, DeadlineOf;
    if heartbeat {
      BatchKeeps(s, env, false);
      BatchGoes(s, env, false, x, p);
      if Takes(s) {
        BatchDeadlines(s, env, x, p);
        NoDeadline(s, p);
        ExpireGoes(Batch(s, env, false), env.now, x, BatchFate(s, env, false, p));
      } else {
        NoDeadline(s, p);
      }
    } else {
      ExpireGoes(s, env.now, x, p);
    }
  }

  lemma NoDeadline(s: State, p: Place)
    ensures p.Proposed? ==> DeadlineOf(s, p).None?
  {
  }

  lemma TickComes(s: State, heartbeat: bool, env: Env, x: Sender, q: Place) returns (p: Place)
    requires Inv(s) && Is(Tick(s, heartbeat, env), x, q)
    ensures Is(s, x, p) && TickFate(s, heartbeat, env, p) == q
  {
    hide Inv, Is, Flush, Batch, Expire, DeadlineOf;
    if heartbeat {
      BatchKeeps(s, env, false);
      var mid := q;
      if Takes(s) { mid := ExpireComes(Batch(s, env, false), env.now, x, q); }
      p := BatchComes(s, env, false, x, mid);
      NoDeadline(s, p);
      if Takes(s) { BatchDeadlines(s, env, x, p); }
    } else {
      p := ExpireComes(s, env.now, x, q);
    }
  }

  // ---- Arrivals and every event ------------------------------------------------------------------------------------------

  /** `t` has the places of `s`, and `y` the place `p` in addition. */
  predicate Gains(s: State, t: State, y: Sender, p: Place, x: Sender, q: Place)
  {
    Is(t, x, q) <==> Is(s, x, q) || (x == y && q == p)
  }

  lemma AnsweredAt(s: State, y: Sender, r: Response, x: Sender, q: Place)
    ensures Gains(s, s.(outbox := Reply(s.outbox, [y], r)), y, Done(r, 0), x, q)
  {
    hide ToAll;
    if q.Done? { Told([y], r, x, q.response, q.index); }
  }

  lemma QueuedAt(s: State, y: Sender, ps: seq<Payload>, x: Sender, q: Place)
    ensures Gains(s, s.(proposePayloads := ps, proposeSenders := s.proposeSenders + [y]), y, Proposed(|s.proposeSenders|), x, q)
    ensures Gains(s, s.(linearReads := s.linearReads + [y]), y, LinearQueue, x, q)
    ensures Gains(s, s.(leaseQueue := s.leaseQueue + [y]), y, LeaseQueue, x, q)
    ensures Gains(s, s.(eventualQueue := s.eventualQueue + [y]), y, EventualQueue, x, q)
  {
  }

  lemma JoinedAt(s: State, y: Sender, k: nat, deadline: nat, l: Log, x: Sender, q: Place)
    requires k !in s.commitActions
    ensures Gains(s, s.(log := l, commitActions := s.commitActions[k := PostCommit(deadline, NodeJoin(y))]), y, AwaitsJoin(k), x, q)
  {
  }

  lemma HistoryOnly(s: State, h: History, l: Log, x: Sender, q: Place)
    ensures Is(s, x, q) <==> Is(s.(h := h), x, q)
    ensures Is(s, x, q) <==> Is(s.(h := h, log := l), x, q)
  {
  }

  lemma ProposeFields(s: State, y: Sender, cmd: Option<string>, x: Sender, q: Place)
    ensures Gains(s, PushPropose(s, y, cmd), y, Arrival(s, Propose(y, cmd)), x, q)
  {
    hide Is, Reply;
    var t := s.(h := s.h.(seen := s.h.seen + {y}));
    HistoryOnly(s, t.h, s.log, x, q);
    AnsweredAt(t, y, Refused(ResourceExhausted), x, q);
    AnsweredAt(t, y, Refused(InvalidArgument), x, q);
    if cmd.Some? {
      var u := t.(h := t.h.(tickets := t.h.tickets[y := Ticket(|t.h.tickets|, Command(cmd.value))]));
      HistoryOnly(t, u.h, s.log, x, q);
      QueuedAt(u, y, s.proposePayloads + [Command(cmd.value)], x, q);
    }
  }

  lemma ReadFields(s: State, y: Sender, policy: ReadPolicy, x: Sender, q: Place)
    ensures Gains(s, PushRead(s, y, policy), y, Arrival(s, Read(y, policy)), x, q)
    ensures Gains(s, PushScan(s, y), y, Arrival(s, Scan(y)), x, q)
  {
    hide Is, Reply;
    var t := s.(h := s.h.(seen := s.h.seen + {y}));
    HistoryOnly(s, t.h, s.log, x, q);
    AnsweredAt(t, y, Refused(ResourceExhausted), x, q);
    AnsweredAt(t, y, ReadResults(s.lastApplied), x, q);
    QueuedAt(t, y, [], x, q);
  }

  lemma JoinFields(s: State, y: Sender, admitted: bool, change: nat, deadline: nat, x: Sender, q: Place)
    requires Inv(s)
    ensures Gains(s, Join(s, y, admitted, change, deadline), y, Arrival(s, JoinRequested(y, admitted, change, deadline)), x, q)
  {
    hide Is, Reply, Append, Inv;
    var t := s.(h := s.h.(seen := s.h.seen + {y}));
    var l := Append(s.log, s.term, [Config(change)]);
    LogFacts(s);
    FreshKey(s, 1);
    Appended(s.log, s.term, [Config(change)]);
    HistoryOnly(s, t.h, l, x, q);
    AnsweredAt(t, y, Refused(FailedPrecondition), x, q);
    AnsweredAt(t.(log := l), y, Refused(FailedPrecondition), x, q);
    JoinedAt(t, y, s.log.maxIndex + 1, deadline, l, x, q);
  }

  /** An event takes every channel that is not its own where the table says, and nowhere else. */
  lemma NextMoves(s: State, e: Event, x: Sender)
    requires Inv(s) && Enabled(s, e) && x !in Arrivals(e)
    ensures Moves(s, Next(s, e), e, x)
  {
    hide Inv, Is, Next, Fate, Enabled;
    forall p | Is(s, x, p) ensures Is(Next(s, e), x, Fate(s, e, x, p)) { NextGoes(s, e, x, p); }
    forall q | Is(Next(s, e), x, q) ensures exists p :: Is(s, x, p) && Fate(s, e, x, p) == q {
      var p := NextComes(s, e, x, q);
    }
  }

  lemma NextGoes(s: State, e: Event, x: Sender, p: Place)
    requires Inv(s) && Enabled(s, e) && x !in Arrivals(e) && Is(s, x, p)
    ensures Is(Next(s, e), x, Fate(s, e, x, p))
  {
    hide Inv, Flush, Tick, CommitTo, ServeLease, AckQuorum, ApplyCompleted, FailWrites, StepDown, Fatal, Join, Append, Is;
    hide PushPropose, PushRead, PushScan, Arrival, FlushFate, TickFate, CommitFate, ReportFate, StepDownFate, FatalFate;
    match e
    case Propose(y, cmd) => ProposeFields(s, y, cmd, x, p);
    case Read(y, policy) => ReadFields(s, y, policy, x, p);
    case Scan(y) => ReadFields(s, y, Eventual, x, p);
    case FlushBuffers(env) => FlushGoes(s, env, x, p);
    case TickAt(heartbeat, env) => TickGoes(s, heartbeat, env, x, p);
    case Committed(n) => CommitGoes(s, n, x, p);
    case LeaseRenewed => LeaseGoes(s, x, p);
    case QuorumAcked => AckGoes(s, x, p);
    case StateMachineApplied(n) => SamePlaces(s, s.(lastApplied := n), x, p);
    case ApplyReported(last, results) => ReportGoes(s, last, results, x, p);
    case HigherTermSeen(term) => SamePlaces(s, s.(term := term), x, p); FailGoes(s.(term := term), TermOutdated, x, p);
    case VoteSeen(term) => SamePlaces(s, s.(term := term), x, p);
    case SteppedDown => StepDownGoes(s, x, p);
    case FatalError => FatalGoes(s, x, p);
    case JoinRequested(y, admitted, change, deadline) => JoinFields(s, y, admitted, change, deadline, x, p);
    case ConfigProposed(change) => SamePlaces(s, AppendOwn(s, Config(change)), x, p);
    case DiskPoisoned => SamePlaces(s, s.(log := s.log.(poisoned := true)), x, p);
  }

  lemma NextComes(s: State, e: Event, x: Sender, q: Place) returns (p: Place)
    requires Inv(s) && Enabled(s, e) && x !in Arrivals(e) && Is(Next(s, e), x, q)
    ensures Is(s, x, p) && Fate(s, e, x, p) == q
  {
    hide Inv, Flush, Tick, CommitTo, ServeLease, AckQuorum, ApplyCompleted, FailWrites, StepDown, Fatal, Join, Append, Is;
    hide PushPropose, PushRead, PushScan, Arrival, FlushFate, TickFate, CommitFate, ReportFate, StepDownFate, FatalFate;
    p := q;
    match e
    case Propose(y, cmd) => ProposeFields(s, y, cmd, x, q);
    case Read(y, policy) => ReadFields(s, y, policy, x, q);
    case Scan(y) => ReadFields(s, y, Eventual, x, q);
    case FlushBuffers(env) => p := FlushComes(s, env, x, q);
    case TickAt(heartbeat, env) => p := TickComes(s, heartbeat, env, x, q);
    case Committed(n) => p := CommitComes(s, n, x, q);
    case LeaseRenewed => p := LeaseComes(s, x, q);
    case QuorumAcked => p := AckComes(s, x, q);
    case StateMachineApplied(n) => SamePlaces(s, s.(lastApplied := n), x, q);
    case ApplyReported(last, results) => p := ReportComes(s, last, results, x, q);
    case HigherTermSeen(term) => p := FailComes(s.(term := term), TermOutdated, x, q); SamePlaces(s, s.(term := term), x, p);
    case VoteSeen(term) => SamePlaces(s, s.(term := term), x, q);
    case SteppedDown => p := StepDownComes(s, x, q);
    case FatalError => p := FatalComes(s, x, q);
    case JoinRequested(y, admitted, change, deadline) => JoinFields(s, y, admitted, change, deadline, x, q);
    case ConfigProposed(change) => SamePlaces(s, AppendOwn(s, Config(change)), x, q);
    case DiskPoisoned => SamePlaces(s, s.(log := s.log.(poisoned := true)), x, q);
  }

  lemma ArrivalGains(s: State, e: Event, x: Sender, q: Place)
    requires Inv(s) && Enabled(s, e) && x in Arrivals(e)
    ensures Gains(s, Next(s, e), x, Arrival(s, e), x, q)
  {
    hide Inv, Join, PushPropose, PushRead, PushScan, Is, Gains, Arrival;
    match e
    case Propose(y, cmd) => ProposeFields(s, y, cmd, x, q);
    case Read(y, policy) => ReadFields(s, y, policy, x, q);
    case Scan(y) => ReadFields(s, y, Eventual, x, q);
    case JoinRequested(y, admitted, change, deadline) => JoinFields(s, y, admitted, change, deadline, x, q);
  }

  // ---- Runs ---------------------------------------------------------------------------------------------------------------

  /** `x` is in place `p` and in no other. */
  ghost predicate Only(s: State, x: Sender, p: Place) { forall q :: Is(s, x, q) <==> q == p }

  ghost predicate Nowhere(s: State, x: Sender) { forall q :: !Is(s, x, q) }

  /** A channel not yet handed over is nowhere; any other is in exactly one place. */
  ghost predicate Placed(s: State, x: Sender)
  {
    if x in s.h.seen then exists p :: Only(s, x, p) else Nowhere(s, x)
  }

  lemma StartNowhere(s: State, deadline: nat, x: Sender)
    requires Elected(s)
    ensures Nowhere(InitiateNoop(s, deadline), x) && InitiateNoop(s, deadline).h.seen == {}
  {
    hide Append, Bounded;
  }

  /** The place of a channel moves by the table. */
  lemma Moved(s: State, e: Event, x: Sender, p: Place)
    requires Inv(s) && Enabled(s, e) && x !in Arrivals(e) && Only(s, x, p)
    ensures Only(Next(s, e), x, Fate(s, e, x, p))
  {
    hide Inv, Is, Next, Fate, Enabled;
    NextMoves(s, e, x);
    assert Is(s, x, p);
    forall q | Is(Next(s, e), x, q) ensures q == Fate(s, e, x, p) {
      var o :| Is(s, x, o) && Fate(s, e, x, o) == q;
    }
  }

  lemma StaysNowhere(s: State, e: Event, x: Sender)
    requires Inv(s) && Enabled(s, e) && x !in Arrivals(e) && Nowhere(s, x)
    ensures Nowhere(Next(s, e), x)
  {
    hide Inv, Is, Next, Fate, Enabled;
    NextMoves(s, e, x);
  }

  lemma Arrives(s: State, e: Event, x: Sender)
    requires Inv(s) && Enabled(s, e) && x in Arrivals(e) && Nowhere(s, x)
    ensures Only(Next(s, e), x, Arrival(s, e))
  {
    hide Inv, Is, Next, Arrival, Enabled;
    forall q ensures Is(Next(s, e), x, q) <==> q == Arrival(s, e) { ArrivalGains(s, e, x, q); }
  }

  lemma FreshArrival(s: State, e: Event, x: Sender)
    requires Enabled(s, e) && x in Arrivals(e)
    ensures x !in s.h.seen
  {
  }

  /** In every state of every run each channel handed over is in exactly one place, and no other is anywhere. */
  lemma {:induction false} OnePlace(tr: seq<State>, es: seq<Event>, i: nat, x: Sender)
    requires Run(tr, es) && i < |tr|
    ensures Placed(tr[i], x)
  {
    hide Inv, Next, Elected, Only, Nowhere, Fate, Arrival, Enabled, Grows, InitiateNoop;
    if i == 0 {
      var s, deadline :| Elected(s) && tr[0] == InitiateNoop(s, deadline);
      StartNowhere(s, deadline, x);
    } else {
      var s, e := tr[i - 1], es[i - 1];
      OnePlace(tr, es, i - 1, x);
      RunInv(tr, es, i - 1);
      NextHistory(s, e);
      if x in Arrivals(e) {
        FreshArrival(s, e, x);
        Arrives(s, e, x);
      } else if x in s.h.seen {
        var p :| Only(s, x, p);
        Moved(s, e, x, p);
      } else {
        StaysNowhere(s, e, x);
      }
    }
  }

  lemma OnlyPlace(tr: seq<State>, es: seq<Event>, i: nat, x: Sender, p: Place)
    requires Run(tr, es) && i < |tr| && Is(tr[i], x, p)
    ensures Only(tr[i], x, p)
  {
    hide Inv, Next, Elected, InitiateNoop, Is, Enabled;
    OnePlace(tr, es, i, x);
    assert x in tr[i].h.seen;
    var o :| Only(tr[i], x, o);
    assert Is(tr[i], x, p) ==> p == o;
  }

  /**
   * The fate of a channel: over every run, whatever place a channel has, the next event takes it to the
   * one place the table names; a channel that arrives gets the one place its request leads to.
   */
  lemma ChannelFate(tr: seq<State>, es: seq<Event>, i: nat, x: Sender, p: Place)
    requires Run(tr, es) && i < |es|
    ensures Is(tr[i], x, p) ==> x !in Arrivals(es[i]) && Only(tr[i + 1], x, Fate(tr[i], es[i], x, p))
    ensures x in Arrivals(es[i]) ==> Only(tr[i + 1], x, Arrival(tr[i], es[i]))
  {
    hide Inv, Next, Elected, InitiateNoop, Is, Enabled, Fate, Arrival, Only;
    RunInv(tr, es, i);
    OnePlace(tr, es, i, x);
    if x in Arrivals(es[i]) {
      FreshArrival(tr[i], es[i], x);
      assert !Is(tr[i], x, p) by { NowhereIs(tr[i], x, p); }
      Arrives(tr[i], es[i], x);
    } else if Is(tr[i], x, p) {
      OnlyPlace(tr, es, i, x, p);
      Moved(tr[i], es[i], x, p);
    }
  }

  lemma NowhereIs(s: State, x: Sender, p: Place)
    requires Nowhere(s, x)
    ensures !Is(s, x, p)
  {
  }

  // ---- What the table says of reads, writes and joins -------------------------------------------------------------------------

  lemma OnlyIs(s: State, x: Sender, p: Place, q: Place)
    requires Only(s, x, p)
    ensures Is(s, x, q) <==> q == p
  {
  }

  /** The read was answered from the state machine. */
  ghost predicate Served(s: State, x: Sender) { exists n :: Answer(x, ReadResults(n), 0) in s.outbox.answers }

  lemma ServedAt(s: State, x: Sender, p: Place)
    requires Only(s, x, p)
    ensures Served(s, x) <==> p.Done? && p.response.ReadResults? && p.index == 0
  {
    hide Only;
    if Served(s, x) {
      var n :| Answer(x, ReadResults(n), 0) in s.outbox.answers;
      OnlyIs(s, x, p, Done(ReadResults(n), 0));
    }
    OnlyIs(s, x, p, p);
    if p.Done? && p.response.ReadResults? && p.index == 0 {
      assert Answer(x, ReadResults(p.response.applied), 0) in s.outbox.answers;
    }
  }

  /** A read that waits for an index, or has been refused. */
  predicate Unserved(p: Place) { p.AwaitsRead? || (p.Done? && !p.response.ReadResults?) }

  /** Without a quorum confirmation or an apply report a waiting read is not served. */
  lemma {:induction false} StaysUnserved(tr: seq<State>, es: seq<Event>, i: nat, j: nat, x: Sender, p: Place) returns (q: Place)
    requires Run(tr, es) && i <= j < |tr| && Only(tr[i], x, p) && (Unserved(p) || p.Done?)
    requires forall k :: i <= k < j ==> !es[k].QuorumAcked? && !es[k].ApplyReported?
    ensures Only(tr[j], x, q) && (Unserved(q) || q.Done?) && (Unserved(q) <==> Unserved(p))
    ensures p.Done? ==> q == p
    decreases j - i
  {
    hide Next, Enabled, Elected, InitiateNoop, Is, Arrival, Only;
    q := p;
    if i < j {
      var mid := StaysUnserved(tr, es, i, j - 1, x, p);
      assert Is(tr[j - 1], x, mid) by { OnlyIs(tr[j - 1], x, mid, mid); }
      ChannelFate(tr, es, j - 1, x, mid);
      q := Fate(tr[j - 1], es[j - 1], x, mid);
    }
  }

  /**
   * Linearizable reads: one that is flushed at step `i` is refused at once exactly if the log fails or
   * the no-op is not confirmed yet; as long as no quorum confirmation and no apply report follow, it has
   * been served exactly if leadership was confirmed at the flush and both the commit index and the no-op
   * had been applied; otherwise it waits for the larger of the two.
   */
  lemma LinearReads(tr: seq<State>, es: seq<Event>, i: nat, j: nat, x: Sender)
    requires Run(tr, es) && i < |es| && es[i].FlushBuffers? && x in tr[i].linearReads && i < j < |tr|
    requires forall k :: i < k < j ==> !es[k].QuorumAcked? && !es[k].ApplyReported?
    ensures var s, took := tr[i], tr[i].proposePayloads == [] || !tr[i].log.poisoned;
      && (Served(tr[j], x) <==>
            && took && es[i].env.confirmed && s.noopLogId.Some?
            && s.commitIndex <= s.lastApplied && s.noopLogId.value <= s.lastApplied)
      && (Answer(x, Refused(FailedPrecondition), 0) in tr[i + 1].outbox.answers <==> !took)
      && (Answer(x, Refused(Unavailable), 0) in tr[i + 1].outbox.answers <==> took && s.noopLogId.None?)
      && (took && s.noopLogId.Some? && !Served(tr[j], x) ==>
            var k := Max(s.commitIndex, s.noopLogId.value);
            k in tr[i + 1].pendingReads && x in tr[i + 1].pendingReads[k].requests)
  {
    hide Next, Enabled, Elected, InitiateNoop, Only, Served, Unserved, Arrival;
    var p := LinearFate(tr[i], es[i].env);
    assert Is(tr[i], x, LinearQueue);
    ChannelFate(tr, es, i, x, LinearQueue);
    assert Only(tr[i + 1], x, p);
    assert Unserved(p) || p.Done? by { LinearKinds(tr[i], es[i].env); }
    var q := StaysUnserved(tr, es, i + 1, j, x, p);
    ServedAt(tr[j], x, q);
    LinearKinds(tr[i], es[i].env);
    KindsDiffer(q);
    OnlyIs(tr[i + 1], x, p, Done(Refused(FailedPrecondition), 0));
    OnlyIs(tr[i + 1], x, p, Done(Refused(Unavailable), 0));
    OnlyIs(tr[i + 1], x, p, p);
  }

  lemma LinearKinds(s: State, env: Env)
    ensures var p := LinearFate(s, env);
      (Unserved(p) || p.Done?) && (Unserved(p) <==> !(p.Done? && p.response.ReadResults?)) && (p.Done? ==> p.index == 0)
  {
  }

  lemma KindsDiffer(q: Place)
    ensures Unserved(q) ==> !(q.Done? && q.response.ReadResults?)
  {
  }

  /**
   * Expiry: a tick whose heartbeat, if any, does not fail answers a waiting write batch, read, lease read
   * or join with a deadline error exactly if its deadline has come.
   */
  lemma ExpiresExactly(tr: seq<State>, es: seq<Event>, i: nat, x: Sender, p: Place, d: nat)
    requires Run(tr, es) && i < |es| && es[i].TickAt? && Is(tr[i], x, p) && Waits(tr[i], p, d)
    requires es[i].heartbeat ==> tr[i].proposePayloads == [] || !tr[i].log.poisoned
    ensures Answer(x, Refused(DeadlineExceeded), 0) in tr[i + 1].outbox.answers <==> d <= es[i].env.now
    ensures es[i].env.now < d ==> Is(tr[i + 1], x, p)
  {
    hide Next, Enabled, Elected, InitiateNoop, Only, Is, Arrival;
    ChannelFate(tr, es, i, x, p);
    var q := Fate(tr[i], es[i], x, p);
    OnlyIs(tr[i + 1], x, q, Done(Refused(DeadlineExceeded), 0));
    OnlyIs(tr[i + 1], x, q, p);
    assert Answer(x, Refused(DeadlineExceeded), 0) in tr[i + 1].outbox.answers <==> Is(tr[i + 1], x, Done(Refused(DeadlineExceeded), 0)) by {
      DoneIs(tr[i + 1], x, Refused(DeadlineExceeded), 0);
    }
  }

  lemma DoneIs(s: State, x: Sender, r: Response, n: nat)
    ensures Is(s, x, Done(r, n)) <==> Answer(x, r, n) in s.outbox.answers
  {
  }

  /** What waits in place `p` has deadline `d`. */
  predicate Waits(s: State, p: Place, d: nat)
  {
    || (p.WriteBatch? && p.key in s.pendingWrites && s.pendingWrites[p.key].deadline == d)
    || (p.AwaitsRead? && p.key in s.pendingReads && s.pendingReads[p.key].deadline == d)
    || (p.ParkedLease? && p.deadline == d)
    || (p.AwaitsJoin? && p.key in s.commitActions && s.commitActions[p.key].deadline == d)
  }

  /** Backpressure: a client command is refused at the limit, and only there. */
  lemma RefusedAtLimit(tr: seq<State>, es: seq<Event>, i: nat)
    requires Run(tr, es) && i < |es| && (es[i].Propose? || es[i].Read?)
    ensures var s := tr[i];
      var limit := if es[i].Propose? then s.limits.maxWrites else s.limits.maxReads;
      var queued := if es[i].Propose? then |s.proposeSenders| else
        match es[i].policy case Linearizable => |s.linearReads| case Lease => |s.leaseQueue| case Eventual => |s.eventualQueue|;
      Answer(es[i].x, Refused(ResourceExhausted), 0) in tr[i + 1].outbox.answers <==> limit > 0 && queued >= limit
  {
    hide Next, Enabled, Elected, InitiateNoop, Only;
    var x, p := es[i].x, Arrival(tr[i], es[i]);
    assert x in Arrivals(es[i]);
    ChannelFate(tr, es, i, x, LinearQueue);
    OnlyIs(tr[i + 1], x, p, Done(Refused(ResourceExhausted), 0));
  }

  /** A commit that reaches a join answers it, and its configuration entry is stored where it waits. */
  lemma JoinAnswered(tr: seq<State>, es: seq<Event>, i: nat, k: nat, x: Sender)
    requires Run(tr, es) && i < |es| && es[i].Committed?
    requires k in tr[i].commitActions && tr[i].commitActions[k].action == NodeJoin(x)
    ensures Answer(x, JoinSuccess, 0) in tr[i + 1].outbox.answers <==> k <= es[i].n
  {
    hide Next, Enabled, Elected, InitiateNoop, Only;
    assert Is(tr[i], x, AwaitsJoin(k));
    ChannelFate(tr, es, i, x, AwaitsJoin(k));
    OnlyIs(tr[i + 1], x, CommitFate(es[i].n, AwaitsJoin(k)), Done(JoinSuccess, 0));
  }

  /** A configuration change of the leader's own, or of an admitted join, is stored at the next index. */
  lemma ChangeStored(tr: seq<State>, es: seq<Event>, i: nat)
    requires Run(tr, es) && i < |es| && !tr[i].log.poisoned
    requires es[i].ConfigProposed? || (es[i].JoinRequested? && es[i].admitted)
    ensures var k := tr[i].log.maxIndex + 1;
      && k !in tr[i].log.entries && tr[i + 1].log.maxIndex == k && k in tr[i + 1].log.entries
      && tr[i + 1].log.entries[k] == Entry(tr[i].term, Config(es[i].change))
  {
    hide Elected, InitiateNoop, Append, Reply;
    RunInv(tr, es, i);
    LogFacts(tr[i]);
    Appended(tr[i].log, tr[i].term, [Config(es[i].change)]);
    hide Inv;
  }

  /**
   * Deadlines: a flush gives every write batch and read batch that starts to wait the full timeout and
   * leaves every other deadline alone; a join waits as long as it was given.
   */
  lemma DeadlinesSet(tr: seq<State>, es: seq<Event>, i: nat, k: nat)
    requires Run(tr, es) && i < |es|
    ensures es[i].FlushBuffers? && k in tr[i + 1].pendingWrites ==>
      tr[i + 1].pendingWrites[k].deadline
      == if k in tr[i].pendingWrites then tr[i].pendingWrites[k].deadline else es[i].env.now + es[i].env.timeout
    ensures es[i].FlushBuffers? && k in tr[i + 1].pendingReads ==>
      tr[i + 1].pendingReads[k].deadline
      == if k in tr[i].pendingReads then tr[i].pendingReads[k].deadline else es[i].env.now + es[i].env.timeout
    ensures es[i].JoinRequested? && es[i].admitted && !tr[i].log.poisoned ==>
      && tr[i].log.maxIndex + 1 in tr[i + 1].commitActions
      && tr[i + 1].commitActions[tr[i].log.maxIndex + 1].deadline == es[i].deadline
  {
    hide Enabled, Elected, InitiateNoop, Inv, Flush, Join, Reply;
    RunInv(tr, es, i);
    if es[i].FlushBuffers? { FlushDeadlines(tr[i], es[i].env, k); }
    if es[i].JoinRequested? { JoinDeadline(tr[i], es[i].x, es[i].admitted, es[i].change, es[i].deadline); }
  }

  lemma FlushDeadlines(s: State, env: Env, k: nat)
    requires Inv(s)
    ensures var t := Flush(s, env);
      && (k in t.pendingWrites ==>
            t.pendingWrites[k].deadline == if k in s.pendingWrites then s.pendingWrites[k].deadline else env.now + env.timeout)
      && (k in t.pendingReads ==>
            t.pendingReads[k].deadline == if k in s.pendingReads then s.pendingReads[k].deadline else env.now + env.timeout)
  {
    hide Inv, Execute, ServeQueues, Tick;
    if s.proposeSenders != [] { FreshKey(s, |s.proposeSenders|); }
    ExecuteFields(FlushPropose(s).(linearReads := []), s.proposePayloads, s.proposeSenders, s.linearReads, env);
    QueuesFields(Batch(s, env, true), env);
  }

  lemma JoinDeadline(s: State, x: Sender, admitted: bool, change: nat, deadline: nat)
    requires Inv(s)
    ensures admitted && !s.log.poisoned ==>
      var t := Join(s, x, admitted, change, deadline);
      s.log.maxIndex + 1 in t.commitActions && t.commitActions[s.log.maxIndex + 1].deadline == deadline
  {
    hide Append, Reply, Inv;
    LogFacts(s);
    Appended(s.log, s.term, [Config(change)]);
  }
}
