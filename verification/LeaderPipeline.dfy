/**
 * The leader's request pipeline as a state machine: client writes, reads and joins move
 * through the leader's buffers until their response channel is used.  `Next` is the effect
 * of one event of the single-threaded loop.
 */
module LeaderPipeline {
  import opened Types
  import opened Bags
  import opened RaftLogs

  /** A one-shot response channel. */
  type Sender = nat

  /** The gRPC statuses and client error codes the leader answers with. */
  datatype Status = ResourceExhausted | InvalidArgument | FailedPrecondition | Unavailable | DeadlineExceeded | Internal
  datatype ErrorCode = ProposeFailed | TermOutdated

  datatype Response =
    | WriteSuccess                 // apply result: succeeded
    | CasFailure                   // apply result: compare-and-swap did not match
    | ReadResults(applied: nat)    // read from a state machine that had applied `applied`
    | JoinSuccess
    | ClientError(code: ErrorCode)
    | Refused(status: Status)

  /** A response as sent; `index` is the log index whose apply result it reports, 0 if none. */
  datatype Answer = Answer(sender: Sender, response: Response, index: nat)

  datatype WriteMetadata =
    WriteMetadata(start: nat, senders: seq<Sender>, waitForApply: bool, deadline: nat)
  datatype ReadBatch = ReadBatch(deadline: nat, requests: seq<Sender>)
  datatype LeaseRead = LeaseRead(sender: Sender, deadline: nat)
  datatype Action = LeaderNoop(term: nat) | NodeJoin(sender: Sender)
  datatype PostCommit = PostCommit(deadline: nat, action: Action)
  datatype ApplyResult = ApplyResult(index: nat, succeeded: bool)
  datatype ReadPolicy = Linearizable | Lease | Eventual

  /** Backpressure limits; 0 means unlimited. */
  datatype Limits = Limits(maxWrites: nat, maxReads: nat)

  /** Everything emitted so far: channels used, the responses sent, post-commit actions run. */
  datatype Outbox = Outbox(answered: multiset<Sender>, answers: set<Answer>, fired: multiset<nat>)

  /** The order in which a write was accepted, and its payload. */
  datatype Ticket = Ticket(order: nat, payload: Payload)

  /** What has happened so far, kept for the statements only. */
  datatype History = History(
    seen: set<Sender>,                        // channels handed to this leader
    tickets: map<Sender, Ticket>,             // accepted writes
    origin: map<nat, Sender>,                 // log index -> channel of the write stored there
    noopIndex: nat,                           // log index of this leader's no-op
    reported: set<ApplyResult>,               // apply results received
    since: nat,                               // the term this leader was elected in
    base: nat)                                // its commit index at the election

  datatype State = State(
    limits: Limits,
    term: nat,
    log: Log,
    commitIndex: nat,
    lastApplied: nat,                         // of the state machine
    noopLogId: Option<nat>,
    proposePayloads: seq<Payload>,
    proposeSenders: seq<Sender>,
    linearReads: seq<Sender>,
    leaseQueue: seq<Sender>,
    eventualQueue: seq<Sender>,
    pendingWrites: map<nat, WriteMetadata>,
    pendingWriteApply: map<nat, Sender>,
    pendingReads: map<nat, ReadBatch>,
    pendingLease: seq<LeaseRead>,
    commitActions: map<nat, PostCommit>,
    outbox: Outbox,
    h: History)

  // ---- Buffer contents ------------------------------------------------------------------

  function WriteSenders(m: map<nat, WriteMetadata>): map<nat, seq<Sender>> { map k | k in m :: m[k].senders }

  function ReadSenders(m: map<nat, ReadBatch>): map<nat, seq<Sender>> { map k | k in m :: m[k].requests }

  function ApplySenders(m: map<nat, Sender>): map<nat, seq<Sender>> { map k | k in m :: [m[k]] }

  function JoinSenders(m: map<nat, PostCommit>): map<nat, seq<Sender>>
  {
    map k | k in m :: if m[k].action.NodeJoin? then [m[k].action.sender] else []
  }

  function LeaseSenders(q: seq<LeaseRead>): seq<Sender>
  {
    if q == [] then [] else [q[0].sender] + LeaseSenders(q[1..])
  }

  function Upto<V>(m: map<nat, V>, n: nat): map<nat, V> { map k | k in m && k <= n :: m[k] }

  function Above<V>(m: map<nat, V>, n: nat): map<nat, V> { map k | k in m && n < k :: m[k] }

  // ---- Sending --------------------------------------------------------------------------

  function ToAll(xs: seq<Sender>, r: Response): set<Answer> { set x | x in xs :: Answer(x, r, 0) }

  /** One channel used, with the log index the response reports on. */
  function Send(o: Outbox, x: Sender, r: Response, index: nat): Outbox
  {
    Outbox(o.answered + multiset{x}, o.answers + {Answer(x, r, index)}, o.fired)
  }

  /** The same response to a list of channels. */
  function Reply(o: Outbox, xs: seq<Sender>, r: Response): Outbox
  {
    Outbox(o.answered + multiset(xs), o.answers + ToAll(xs, r), o.fired)
  }

  /** The same response to every channel of every batch. */
  ghost function ReplyBatches(o: Outbox, m: map<nat, seq<Sender>>, r: Response): Outbox
  {
    Outbox(o.answered + Bag(m), o.answers + ToBatches(m, r), o.fired)
  }

  function ToBatches(m: map<nat, seq<Sender>>, r: Response): set<Answer>
  {
    set k, x | k in m && x in m[k] :: Answer(x, r, 0)
  }

  /** The post-commit actions registered under `ks` are run. */
  function Fire(o: Outbox, ks: set<nat>): Outbox { o.(fired := o.fired + multiset(ks)) }

  // ---- Accepting client commands ----------------------------------------------------------

  predicate Rejects(limit: nat, pending: nat) { limit > 0 && pending >= limit }

  function PushPropose(s: State, x: Sender, cmd: Option<string>): State
  {
    var s := s.(h := s.h.(seen := s.h.seen + {x}));
    if Rejects(s.limits.maxWrites, |s.proposeSenders|) then
      s.(outbox := Reply(s.outbox, [x], Refused(ResourceExhausted)))
    else if cmd.None? then
      s.(outbox := Reply(s.outbox, [x], Refused(InvalidArgument)))
    else
      s.(proposePayloads := s.proposePayloads + [Command(cmd.value)],
         proposeSenders := s.proposeSenders + [x],
         h := s.h.(tickets := s.h.tickets[x := Ticket(|s.h.tickets|, Command(cmd.value))]))
  }

  function PushRead(s: State, x: Sender, policy: ReadPolicy): State
  {
    var s := s.(h := s.h.(seen := s.h.seen + {x}));
    var rejected := s.(outbox := Reply(s.outbox, [x], Refused(ResourceExhausted)));
    match policy
    case Linearizable =>
      if Rejects(s.limits.maxReads, |s.linearReads|) then rejected else s.(linearReads := s.linearReads + [x])
    case Lease =>
      if Rejects(s.limits.maxReads, |s.leaseQueue|) then rejected else s.(leaseQueue := s.leaseQueue + [x])
    case Eventual =>
      if Rejects(s.limits.maxReads, |s.eventualQueue|) then rejected else s.(eventualQueue := s.eventualQueue + [x])
  }

  function PushScan(s: State, x: Sender): State
  {
    s.(h := s.h.(seen := s.h.seen + {x}), outbox := Reply(s.outbox, [x], ReadResults(s.lastApplied)))
  }

  // ---- Appending and routing --------------------------------------------------------------

  /** What the loop observes while it executes a batch. */
  datatype Env = Env(
    now: nat,                 // the clock
    timeout: nat,             // general_raft_timeout
    confirmed: bool,          // single voter, or the lease is valid
    leaseServed: set<Sender>) // lease reads that found the lease valid

  /** The write metadata of a batch, with the predicted first index. */
  function Metadata(s: State, senders: seq<Sender>): WriteMetadata
  {
    WriteMetadata(s.log.maxIndex + 1, senders, true, 0)
  }

  /** `calculate_read_index` */
  function ReadIndex(s: State): nat
  {
    Max(s.commitIndex, if s.noopLogId.Some? then s.noopLogId.value else 0)
  }

  /** Phase 1 failed: nothing was stored, every channel of the batch is told so. */
  function PrepareFailed(s: State, payloads: seq<Payload>, senders: seq<Sender>, readers: seq<Sender>): State
  {
    s.(log := Append(s.log, s.term, payloads),
       outbox := Reply(Reply(s.outbox, senders, ClientError(ProposeFailed)), readers, Refused(FailedPrecondition)))
  }

  /** Phases 1 and 2: the payloads are stored and the batch waits under its last index. */
  function StoreWrites(s: State, payloads: seq<Payload>, senders: seq<Sender>, env: Env): State
  {
    var meta := Metadata(s, senders).(deadline := env.now + env.timeout);
    s.(log := Append(s.log, s.term, payloads),
       h := s.h.(origin := s.h.origin + Laid(senders, s.log.nextId)),
       pendingWrites :=
         if senders == [] then s.pendingWrites
         else s.pendingWrites[meta.start + |senders| - 1 := meta])
  }

  /** Phase 3: refuse before the no-op commits, serve when current, otherwise wait. */
  function RouteReads(s: State, readers: seq<Sender>, env: Env): State
  {
    if readers == [] then s
    else if s.noopLogId.None? then s.(outbox := Reply(s.outbox, readers, Refused(Unavailable)))
    else if env.confirmed && s.lastApplied >= ReadIndex(s) then
      s.(outbox := Reply(s.outbox, readers, ReadResults(s.lastApplied)))
    else
      s.(pendingReads := Await(s.pendingReads, ReadIndex(s), readers, env.now + env.timeout))
  }

  /** Reads join the batch waiting for the same index, and share its deadline. */
  function Await(m: map<nat, ReadBatch>, k: nat, readers: seq<Sender>, deadline: nat): map<nat, ReadBatch>
  {
    m[k := if k in m then ReadBatch(m[k].deadline, m[k].requests + readers) else ReadBatch(deadline, readers)]
  }

  /** `execute_and_process_raft_rpc`, phases 0 to 3. */
  function Execute(s: State, payloads: seq<Payload>, senders: seq<Sender>, readers: seq<Sender>, env: Env): State
  {
    if !Accepts(s.log, payloads) then PrepareFailed(s, payloads, senders, readers)
    else RouteReads(StoreWrites(s, payloads, senders, env), readers, env)
  }

  /** The propose buffer handed over in one piece. */
  function FlushPropose(s: State): State { s.(proposePayloads := [], proposeSenders := []) }

  function ServeQueues(s: State, env: Env): State
  {
    var served := Filter(s.leaseQueue, env.leaseServed);
    var waiting := Without(s.leaseQueue, env.leaseServed);
    s.(leaseQueue := [], eventualQueue := [],
       pendingLease := s.pendingLease + Stamp(waiting, env.now + env.timeout),
       outbox := Reply(Reply(s.outbox, served, ReadResults(s.lastApplied)), s.eventualQueue, ReadResults(s.lastApplied)))
  }

  function Filter(q: seq<Sender>, keep: set<Sender>): seq<Sender>
  {
    if q == [] then [] else
    var rest := Filter(q[1..], keep);
    if q[0] in keep then [q[0]] + rest else rest
  }

  function Without(q: seq<Sender>, drop: set<Sender>): seq<Sender>
  {
    if q == [] then [] else
    var rest := Without(q[1..], drop);
    if q[0] in drop then rest else [q[0]] + rest
  }

  function Stamp(q: seq<Sender>, deadline: nat): seq<LeaseRead>
  {
    if q == [] then [] else [LeaseRead(q[0], deadline)] + Stamp(q[1..], deadline)
  }

  /** `flush_cmd_buffers`: writes and linearizable reads share one round; the rest follow. */
  function Flush(s: State, env: Env): State
  {
    var s1 := Execute(FlushPropose(s).(linearReads := []), s.proposePayloads, s.proposeSenders, s.linearReads, env);
    if Accepts(s.log, s.proposePayloads) then ServeQueues(s1, env) else s1
  }

  // ---- Commit, apply and expiry -----------------------------------------------------------

  /** Batch `k` of `c` holds the channel of log index `idx`. */
  predicate Covers(c: map<nat, WriteMetadata>, k: nat, idx: nat)
  {
    k in c && c[k].waitForApply && idx in Laid(c[k].senders, c[k].start)
  }

  /** The log indexes whose channels the batches of `c` pass on. */
  ghost function Indexes(c: map<nat, WriteMetadata>): (r: set<nat>)
    ensures forall idx :: idx in r <==> exists k :: Covers(c, k, idx)
  {
    var r := set k, idx | k in c && idx in Laid(c[k].senders, c[k].start) && Covers(c, k, idx) :: idx;
    assert forall k, idx :: Covers(c, k, idx) ==> idx in r;
    r
  }

  /** The per-index view of the batches that wait for their apply result. */
  ghost function Spread(c: map<nat, WriteMetadata>): map<nat, Sender>
  {
    map idx | idx in Indexes(c) :: var k :| Covers(c, k, idx); Laid(c[k].senders, c[k].start)[idx]
  }

  function Immediate(c: map<nat, WriteMetadata>): map<nat, WriteMetadata>
  {
    map k | k in c && !c[k].waitForApply :: c[k]
  }

  /** `drain_pending_client_writes` */
  ghost function DrainWrites(s: State, n: nat): State
  {
    var c := Upto(s.pendingWrites, n);
    s.(pendingWrites := Above(s.pendingWrites, n),
       pendingWriteApply := s.pendingWriteApply + Spread(c),
       outbox := ReplyBatches(s.outbox, WriteSenders(Immediate(c)), WriteSuccess))
  }

  predicate HasNoop(c: map<nat, PostCommit>) { exists k :: k in c && c[k].action.LeaderNoop? }

  /** `drain_commit_actions`; the no-op action records `last_entry_id` as the no-op index. */
  ghost function DrainActions(s: State, n: nat): State
  {
    var c := Upto(s.commitActions, n);
    s.(commitActions := Above(s.commitActions, n),
       noopLogId := if HasNoop(c) then Some(s.log.maxIndex) else s.noopLogId,
       outbox := Fire(ReplyBatches(s.outbox, JoinSenders(c), JoinSuccess), c.Keys))
  }

  /** The commit index advances to `n`; the write batches and actions it covers are drained. */
  ghost function CommitTo(s: State, n: nat): State
  {
    DrainActions(DrainWrites(s.(commitIndex := n), n), n)
  }

  /** Serve the linearizable reads that wait for an index up to `n`. */
  ghost function ServeReads(s: State, n: nat): State
  {
    s.(pendingReads := Above(s.pendingReads, n),
       outbox := ReplyBatches(s.outbox, ReadSenders(Upto(s.pendingReads, n)), ReadResults(s.lastApplied)))
  }

  /** `drain_pending_lease_reads`; a single voter does only this after a flush. */
  function ServeLease(s: State): State
  {
    s.(pendingLease := [], outbox := Reply(s.outbox, LeaseSenders(s.pendingLease), ReadResults(s.lastApplied)))
  }

  /** A quorum has just confirmed leadership. */
  ghost function AckQuorum(s: State): State { ServeReads(ServeLease(s), s.lastApplied) }

  /** Apply results matched to waiting writes, in the order reported. */
  function Respond(s: State, results: seq<ApplyResult>): State
    decreases |results|
  {
    if results == [] then s else
    var r := results[0];
    Respond(
      if r.index !in s.pendingWriteApply then s else
      s.(pendingWriteApply := s.pendingWriteApply - {r.index},
         outbox := Send(s.outbox, s.pendingWriteApply[r.index],
                        if r.succeeded then WriteSuccess else CasFailure, r.index)),
      results[1..])
  }

  function ResultSet(results: seq<ApplyResult>): set<ApplyResult> { set r | r in results }

  ghost function ApplyCompleted(s: State, last: nat, results: seq<ApplyResult>): State
  {
    ServeReads(Respond(s.(h := s.h.(reported := s.h.reported + ResultSet(results))), results), last)
  }

  function ExpiredWrites(m: map<nat, WriteMetadata>, now: nat): map<nat, WriteMetadata>
  {
    map k | k in m && m[k].deadline <= now :: m[k]
  }

  function LiveWrites(m: map<nat, WriteMetadata>, now: nat): map<nat, WriteMetadata>
  {
    map k | k in m && now < m[k].deadline :: m[k]
  }

  function ExpiredReads(m: map<nat, ReadBatch>, now: nat): map<nat, ReadBatch>
  {
    map k | k in m && m[k].deadline <= now :: m[k]
  }

  function LiveReads(m: map<nat, ReadBatch>, now: nat): map<nat, ReadBatch>
  {
    map k | k in m && now < m[k].deadline :: m[k]
  }

  function ExpiredActions(m: map<nat, PostCommit>, now: nat): map<nat, PostCommit>
  {
    map k | k in m && m[k].deadline <= now :: m[k]
  }

  function LiveActions(m: map<nat, PostCommit>, now: nat): map<nat, PostCommit>
  {
    map k | k in m && now < m[k].deadline :: m[k]
  }

  function ExpiredLease(q: seq<LeaseRead>, now: nat): seq<Sender>
  {
    if q == [] then [] else
    var rest := ExpiredLease(q[1..], now);
    if q[0].deadline <= now then [q[0].sender] + rest else rest
  }

  function LiveLease(q: seq<LeaseRead>, now: nat): seq<LeaseRead>
  {
    if q == [] then [] else
    var rest := LiveLease(q[1..], now);
    if q[0].deadline <= now then rest else [q[0]] + rest
  }

  /** Everything past its deadline is answered and dropped. */
  ghost function Expire(s: State, now: nat): State
  {
    var o := ReplyBatches(s.outbox, WriteSenders(ExpiredWrites(s.pendingWrites, now)), Refused(DeadlineExceeded));
    var o := ReplyBatches(o, ReadSenders(ExpiredReads(s.pendingReads, now)), Refused(DeadlineExceeded));
    var o := Reply(o, ExpiredLease(s.pendingLease, now), Refused(DeadlineExceeded));
    var o := ReplyBatches(o, JoinSenders(ExpiredActions(s.commitActions, now)), Refused(DeadlineExceeded));
    s.(pendingWrites := LiveWrites(s.pendingWrites, now),
       pendingReads := LiveReads(s.pendingReads, now),
       pendingLease := LiveLease(s.pendingLease, now),
       commitActions := LiveActions(s.commitActions, now),
       outbox := o)
  }

  /** `tick`: a due heartbeat carries the buffered writes; a failed one ends the tick. */
  ghost function Tick(s: State, heartbeat: bool, env: Env): State
  {
    if !heartbeat then Expire(s, env.now) else
    var s1 := Execute(FlushPropose(s), s.proposePayloads, s.proposeSenders, [], env);
    if Accepts(s.log, s.proposePayloads) then Expire(s1, env.now) else s1
  }

  // ---- Giving up ---------------------------------------------------------------------------

  /** `drain_pending_writes_with_error` */
  ghost function FailWrites(s: State, code: ErrorCode): State
  {
    s.(pendingWrites := map[],
       outbox := ReplyBatches(s.outbox, WriteSenders(s.pendingWrites), ClientError(code)))
  }

  /** `drain_read_buffer`, run on every step-down. */
  ghost function StepDown(s: State): State
  {
    var o := Reply(s.outbox, s.linearReads + s.leaseQueue + s.eventualQueue, Refused(Unavailable));
    var o := ReplyBatches(o, ReadSenders(s.pendingReads), Refused(Unavailable));
    var o := Reply(o, LeaseSenders(s.pendingLease), Refused(Unavailable));
    var o := Reply(o, s.proposeSenders, Refused(FailedPrecondition));
    FailWrites(
      FlushPropose(s).(linearReads := [], leaseQueue := [], eventualQueue := [],
                       pendingReads := map[], pendingLease := [], outbox := o),
      ProposeFailed)
  }

  /** The state machine failed: notify the writes that wait for it and all queued reads. */
  ghost function Fatal(s: State): State
  {
    var o := ReplyBatches(s.outbox, ApplySenders(s.pendingWriteApply), Refused(Internal));
    var o := Reply(o, s.linearReads + s.leaseQueue + s.eventualQueue, Refused(Internal));
    s.(pendingWriteApply := map[], linearReads := [], leaseQueue := [], eventualQueue := [],
       pendingReads := map[],
       outbox := ReplyBatches(o, ReadSenders(s.pendingReads), Refused(Internal)))
  }

  // ---- Entries the leader adds itself -------------------------------------------------------

  /** A payload without a response channel: no-op or configuration change. */
  function AppendOwn(s: State, p: Payload): State { s.(log := Append(s.log, s.term, [p])) }

  /** `initiate_noop_commit`: the action is registered under the predicted index. */
  function InitiateNoop(s: State, deadline: nat): State
  {
    if s.log.poisoned then AppendOwn(s, Noop)
    else AppendOwn(s, Noop).(
        commitActions := s.commitActions[s.log.maxIndex + 1 := PostCommit(deadline, LeaderNoop(s.term))],
        h := s.h.(noopIndex := s.log.nextId))
  }

  /** `handle_join_cluster`: the action is registered under the index read back after the append. */
  function Join(s: State, x: Sender, admitted: bool, change: nat, deadline: nat): State
  {
    var s := s.(h := s.h.(seen := s.h.seen + {x}));
    if !admitted then s.(outbox := Reply(s.outbox, [x], Refused(FailedPrecondition)))
    else if s.log.poisoned then
      AppendOwn(s, Config(change)).(outbox := Reply(s.outbox, [x], Refused(FailedPrecondition)))
    else
      var s1 := AppendOwn(s, Config(change));
      s1.(commitActions := s1.commitActions[s1.log.maxIndex := PostCommit(deadline, NodeJoin(x))])
  }

  // ---- Runs ----------------------------------------------------------------------------------

  datatype Event =
    | Propose(x: Sender, cmd: Option<string>)
    | Read(x: Sender, policy: ReadPolicy)
    | Scan(x: Sender)
    | FlushBuffers(env: Env)
    | TickAt(heartbeat: bool, env: Env)
    | Committed(n: nat)
    | LeaseRenewed
    | QuorumAcked
    | StateMachineApplied(n: nat)
    | ApplyReported(last: nat, results: seq<ApplyResult>)
    | HigherTermSeen(term: nat)               // in a peer's answer: taken over before the step-down
    | VoteSeen(term: nat)                     // in a vote request: taken over before the step-down
    | SteppedDown
    | FatalError
    | JoinRequested(x: Sender, admitted: bool, change: nat, deadline: nat)
    | ConfigProposed(change: nat)
    | DiskPoisoned

  ghost function Next(s: State, e: Event): State
  {
    match e
    case Propose(x, cmd) => PushPropose(s, x, cmd)
    case Read(x, policy) => PushRead(s, x, policy)
    case Scan(x) => PushScan(s, x)
    case FlushBuffers(env) => Flush(s, env)
    case TickAt(heartbeat, env) => Tick(s, heartbeat, env)
    case Committed(n) => CommitTo(s, n)
    case LeaseRenewed => ServeLease(s)
    case QuorumAcked => AckQuorum(s)
    case StateMachineApplied(n) => s.(lastApplied := n)
    case ApplyReported(last, results) => ApplyCompleted(s, last, results)
    case HigherTermSeen(term) => FailWrites(s.(term := term), TermOutdated)
    case VoteSeen(term) => s.(term := term)
    case SteppedDown => StepDown(s)
    case FatalError => Fatal(s)
    case JoinRequested(x, admitted, change, deadline) => Join(s, x, admitted, change, deadline)
    case ConfigProposed(change) => AppendOwn(s, Config(change))
    case DiskPoisoned => s.(log := s.log.(poisoned := true))
  }

  /** A single voter commits its whole log; a quorum commits an entry of the leader's current term. */
  predicate Committable(s: State, n: nat)
  {
    n == s.log.maxIndex || (n in s.log.entries && s.log.entries[n].term == s.term)
  }

  /**
   * What the surroundings guarantee: channels are fresh, the commit index advances inside the
   * log, the state machine applies committed entries only, and reports what it has applied.
   */
  predicate Enabled(s: State, e: Event)
  {
    match e
    case Propose(x, _) => x !in s.h.seen
    case Read(x, _) => x !in s.h.seen
    case Scan(x) => x !in s.h.seen
    case JoinRequested(x, _, _, _) => x !in s.h.seen
    case Committed(n) => s.commitIndex < n && Committable(s, n)
    case HigherTermSeen(term) => s.term < term
    case VoteSeen(term) => s.term < term
    case StateMachineApplied(n) => s.lastApplied <= n <= s.commitIndex
    case ApplyReported(last, results) =>
      last <= s.lastApplied && forall i :: 0 <= i < |results| ==> results[i].index <= last
    case _ => true
  }

  /**
   * A node that has just won an election in a new term, before its no-op. Its log may be empty after a
   * purge, and its commit index may lie beyond every index it has handed out.
   */
  predicate Elected(s: State)
  {
    && Bounded(s.log)
    && (forall i :: i in s.log.entries ==> s.log.entries[i].term < s.term)
    && s.lastApplied <= s.commitIndex
    && s == State(s.limits, s.term, s.log, s.commitIndex, s.lastApplied, None, [], [], [], [], [],
                  map[], map[], map[], [], map[], Outbox(multiset{}, {}, multiset{}), History({}, map[], map[], 0, {}, s.term, s.commitIndex))
  }

  /** A leadership: elected, no-op initiated, then any enabled events. */
  ghost predicate Run(tr: seq<State>, es: seq<Event>)
  {
    && |tr| == |es| + 1
    && (exists s, deadline :: Elected(s) && tr[0] == InitiateNoop(s, deadline))
    && forall i :: 0 <= i < |es| ==> Enabled(tr[i], es[i]) && tr[i + 1] == Next(tr[i], es[i])
  }
}
