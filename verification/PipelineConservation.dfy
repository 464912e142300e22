/** No response channel is lost or duplicated on its way through the leader's buffers. */
module PipelineConservation {
  import opened Types
  import opened Bags
  import opened RaftLogs
  import opened LeaderPipeline

  /** How often channel `x` waits in some buffer. */
  ghost function Waiting(s: State, x: Sender): nat
  {
    multiset(s.proposeSenders)[x] + multiset(s.linearReads)[x] + multiset(s.leaseQueue)[x]
    + multiset(s.eventualQueue)[x] + Bag(WriteSenders(s.pendingWrites))[x]
    + Bag(ApplySenders(s.pendingWriteApply))[x] + Bag(ReadSenders(s.pendingReads))[x]
    + multiset(LeaseSenders(s.pendingLease))[x] + Bag(JoinSenders(s.commitActions))[x]
  }

  /** How often channel `x` waits or has been used. */
  ghost function Copies(s: State, x: Sender): nat { Waiting(s, x) + s.outbox.answered[x] }

  // ---- The map-shaped buffers -----------------------------------------------------------
  // For each buffer: what an update and a split do to the map of channels, then to its bag.

  lemma WriteInsert(x: Sender, m: map<nat, WriteMetadata>, k: nat, v: WriteMetadata)
    requires k !in m
    ensures Bag(WriteSenders(m[k := v]))[x] == Bag(WriteSenders(m))[x] + multiset(v.senders)[x]
  {
    BagInsert(WriteSenders(m), k, v.senders, x);
    assert WriteSenders(m[k := v]) == WriteSenders(m)[k := v.senders];
  }

  lemma WriteSplit(x: Sender, m: map<nat, WriteMetadata>, a: map<nat, WriteMetadata>, b: map<nat, WriteMetadata>)
    requires m == a + b && a.Keys !! b.Keys
    ensures Bag(WriteSenders(m))[x] == Bag(WriteSenders(a))[x] + Bag(WriteSenders(b))[x]
  {
    assert WriteSenders(m) == WriteSenders(a) + WriteSenders(b);
    BagSplit(WriteSenders(a), WriteSenders(b), x);
  }

  lemma ReadSplit(x: Sender, m: map<nat, ReadBatch>, a: map<nat, ReadBatch>, b: map<nat, ReadBatch>)
    requires m == a + b && a.Keys !! b.Keys
    ensures Bag(ReadSenders(m))[x] == Bag(ReadSenders(a))[x] + Bag(ReadSenders(b))[x]
  {
    assert ReadSenders(m) == ReadSenders(a) + ReadSenders(b);
    BagSplit(ReadSenders(a), ReadSenders(b), x);
  }

  lemma JoinSplit(x: Sender, m: map<nat, PostCommit>, a: map<nat, PostCommit>, b: map<nat, PostCommit>)
    requires m == a + b && a.Keys !! b.Keys
    ensures Bag(JoinSenders(m))[x] == Bag(JoinSenders(a))[x] + Bag(JoinSenders(b))[x]
  {
    assert JoinSenders(m) == JoinSenders(a) + JoinSenders(b);
    BagSplit(JoinSenders(a), JoinSenders(b), x);
  }

  lemma ApplySplit(x: Sender, a: map<nat, Sender>, b: map<nat, Sender>)
    requires a.Keys !! b.Keys
    ensures Bag(ApplySenders(a + b))[x] == Bag(ApplySenders(a))[x] + Bag(ApplySenders(b))[x]
  {
    assert ApplySenders(a + b) == ApplySenders(a) + ApplySenders(b);
    BagSplit(ApplySenders(a), ApplySenders(b), x);
  }

  lemma ReadAwait(x: Sender, m: map<nat, ReadBatch>, k: nat, readers: seq<Sender>, deadline: nat)
    ensures Bag(ReadSenders(Await(m, k, readers, deadline)))[x] == Bag(ReadSenders(m))[x] + multiset(readers)[x]
  {
    var v := Await(m, k, readers, deadline)[k];
    BagExtend(ReadSenders(m), k, v.requests, readers, x);
    assert ReadSenders(m[k := v]) == ReadSenders(m)[k := v.requests];
  }

  lemma WriteCut(x: Sender, m: map<nat, WriteMetadata>, n: nat)
    ensures Bag(WriteSenders(m))[x] == Bag(WriteSenders(Upto(m, n)))[x] + Bag(WriteSenders(Above(m, n)))[x]
  {
    WriteSplit(x, m, Upto(m, n), Above(m, n));
  }

  lemma ReadCut(x: Sender, m: map<nat, ReadBatch>, n: nat)
    ensures Bag(ReadSenders(m))[x] == Bag(ReadSenders(Upto(m, n)))[x] + Bag(ReadSenders(Above(m, n)))[x]
  {
    ReadSplit(x, m, Upto(m, n), Above(m, n));
  }

  lemma JoinCut(x: Sender, m: map<nat, PostCommit>, n: nat)
    ensures Bag(JoinSenders(m))[x] == Bag(JoinSenders(Upto(m, n)))[x] + Bag(JoinSenders(Above(m, n)))[x]
  {
    JoinSplit(x, m, Upto(m, n), Above(m, n));
  }

  lemma WriteExpiry(x: Sender, m: map<nat, WriteMetadata>, now: nat)
    ensures Bag(WriteSenders(m))[x]
            == Bag(WriteSenders(ExpiredWrites(m, now)))[x] + Bag(WriteSenders(LiveWrites(m, now)))[x]
  {
    WriteSplit(x, m, ExpiredWrites(m, now), LiveWrites(m, now));
  }

  lemma ReadExpiry(x: Sender, m: map<nat, ReadBatch>, now: nat)
    ensures Bag(ReadSenders(m))[x]
            == Bag(ReadSenders(ExpiredReads(m, now)))[x] + Bag(ReadSenders(LiveReads(m, now)))[x]
  {
    ReadSplit(x, m, ExpiredReads(m, now), LiveReads(m, now));
  }

  lemma JoinExpiry(x: Sender, m: map<nat, PostCommit>, now: nat)
    ensures Bag(JoinSenders(m))[x]
            == Bag(JoinSenders(ExpiredActions(m, now)))[x] + Bag(JoinSenders(LiveActions(m, now)))[x]
  {
    JoinSplit(x, m, ExpiredActions(m, now), LiveActions(m, now));
  }

  lemma JoinSendersInsert(m: map<nat, PostCommit>, k: nat, deadline: nat, y: Sender)
    ensures JoinSenders(m[k := PostCommit(deadline, NodeJoin(y))]) == JoinSenders(m)[k := [y]]
  {
  }

  lemma JoinInsert(x: Sender, m: map<nat, PostCommit>, k: nat, deadline: nat, y: Sender)
    requires k !in m
    ensures Bag(JoinSenders(m[k := PostCommit(deadline, NodeJoin(y))]))[x] == Bag(JoinSenders(m))[x] + multiset{y}[x]
  {
    JoinSendersInsert(m, k, deadline, y);
    BagInsert(JoinSenders(m), k, [y], x);
  }

  lemma ApplyRemove(x: Sender, m: map<nat, Sender>, k: nat)
    requires k in m
    ensures Bag(ApplySenders(m))[x] == Bag(ApplySenders(m - {k}))[x] + multiset{m[k]}[x]
  {
    BagRemove(ApplySenders(m), k, x);
    assert ApplySenders(m - {k}) == ApplySenders(m) - {k};
  }

  lemma ApplyInsert(x: Sender, m: map<nat, Sender>, k: nat, y: Sender)
    requires k !in m
    ensures Bag(ApplySenders(m[k := y]))[x] == Bag(ApplySenders(m))[x] + multiset{y}[x]
  {
    BagInsert(ApplySenders(m), k, [y], x);
    assert ApplySenders(m[k := y]) == ApplySenders(m)[k := [y]];
  }

  lemma EmptyMaps(x: Sender)
    ensures Bag(WriteSenders(map[]))[x] == 0
    ensures Bag(ReadSenders(map[]))[x] == 0
    ensures Bag(ApplySenders(map[]))[x] == 0
  {
    BagEmpty(x);
    assert WriteSenders(map[]) == map[] && ReadSenders(map[]) == map[] && ApplySenders(map[]) == map[];
  }

  // ---- From write batches to per-index entries ---------------------------------------------

  lemma LaidStep(xs: seq<Sender>, first: nat)
    requires xs != []
    ensures Laid(xs, first) == Laid(xs[1..], first + 1)[first := xs[0]]
  {
  }

  lemma {:induction false} LaidBag(x: Sender, xs: seq<Sender>, first: nat)
    ensures Bag(ApplySenders(Laid(xs, first)))[x] == multiset(xs)[x]
  {
    if xs == [] {
      assert Laid(xs, first) == map[];
      EmptyMaps(x);
    } else {
      LaidBag(x, xs[1..], first + 1);
      LaidStep(xs, first);
      ApplyInsert(x, Laid(xs[1..], first + 1), first, xs[0]);
      assert xs == [xs[0]] + xs[1..];
    }
  }

  /** Each batch is keyed by its last index, and no two batches share an index. */
  ghost predicate DisjointRanges(c: map<nat, WriteMetadata>)
  {
    && (forall k :: k in c ==> c[k].start + |c[k].senders| == k + 1)
    && (forall j, k :: j in c && k in c && j < k ==> j < c[k].start)
  }

  /** Batches over disjoint index ranges, all waiting for their apply results. */
  ghost predicate DisjointBatches(c: map<nat, WriteMetadata>)
  {
    DisjointRanges(c) && forall k :: k in c ==> c[k].waitForApply
  }

  /** Every index of `m` lies below every batch of `c`. */
  ghost predicate Before(m: map<nat, Sender>, c: map<nat, WriteMetadata>)
  {
    forall i, k :: i in m && k in c ==> i < c[k].start
  }

  lemma CoversOnce(c: map<nat, WriteMetadata>, j: nat, k: nat, idx: nat)
    requires DisjointRanges(c) && Covers(c, j, idx) && Covers(c, k, idx)
    ensures j == k
  {
  }

  /** Each index of a batch gets that batch's channel. */
  lemma SpreadAt(c: map<nat, WriteMetadata>, k: nat, idx: nat)
    requires DisjointRanges(c) && Covers(c, k, idx)
    ensures idx in Spread(c) && Spread(c)[idx] == Laid(c[k].senders, c[k].start)[idx]
  {
    assert idx in Indexes(c);
    var j :| Covers(c, j, idx) && Spread(c)[idx] == Laid(c[j].senders, c[j].start)[idx];
    CoversOnce(c, j, k, idx);
  }

  lemma DisjointWithout(c: map<nat, WriteMetadata>, k: nat)
    requires DisjointRanges(c)
    ensures DisjointRanges(c - {k})
  {
    var d := c - {k};
    assert forall j :: j in d ==> j in c && d[j] == c[j];
  }

  /** What one batch passes on. */
  function Entries(v: WriteMetadata): map<nat, Sender>
  {
    if v.waitForApply then Laid(v.senders, v.start) else map[]
  }

  lemma SpreadInto(c: map<nat, WriteMetadata>, k: nat, idx: nat)
    requires DisjointRanges(c) && k in c && idx in Spread(c - {k})
    ensures idx !in Entries(c[k])
    ensures idx in Spread(c) && Spread(c)[idx] == Spread(c - {k})[idx]
  {
    var d := c - {k};
    var j :| Covers(d, j, idx);
    hide Spread, Indexes, DisjointRanges, Laid;
    DisjointWithout(c, k);
    assert d[j] == c[j] && Covers(c, j, idx);
    SpreadAt(c, j, idx);
    SpreadAt(d, j, idx);
    if Covers(c, k, idx) { CoversOnce(c, j, k, idx); }
  }

  lemma SpreadFrom(c: map<nat, WriteMetadata>, k: nat, idx: nat)
    requires k in c && idx in Spread(c)
    ensures idx in Spread(c - {k}) || idx in Entries(c[k])
  {
    var j :| Covers(c, j, idx);
    if j != k { assert Covers(c - {k}, j, idx); }
  }

  lemma SpreadStep(c: map<nat, WriteMetadata>, k: nat)
    requires DisjointRanges(c) && k in c
    ensures Spread(c) == Spread(c - {k}) + Entries(c[k])
    ensures Spread(c - {k}).Keys !! Entries(c[k]).Keys
  {
    hide Spread, DisjointRanges, Laid;
    var a, r, l := Spread(c), Spread(c - {k}), Entries(c[k]);
    forall idx | idx in r ensures idx !in l && idx in a && a[idx] == r[idx] { SpreadInto(c, k, idx); }
    forall idx | idx in a ensures idx in r || idx in l { SpreadFrom(c, k, idx); }
    forall idx | idx in l ensures idx in a && a[idx] == l[idx] {
      assert Covers(c, k, idx);
      SpreadAt(c, k, idx);
    }
    MapSum(a, r, l);
  }

  lemma MapSum(a: map<nat, Sender>, r: map<nat, Sender>, l: map<nat, Sender>)
    requires forall i :: i in a ==> i in r || i in l
    requires forall i :: i in r ==> i !in l && i in a && a[i] == r[i]
    requires forall i :: i in l ==> i in a && a[i] == l[i]
    ensures a == r + l && r.Keys !! l.Keys
  {
  }

  /** Moving batches to per-index entries keeps every channel. */
  lemma {:induction false} SpreadBag(x: Sender, c: map<nat, WriteMetadata>)
    requires DisjointBatches(c)
    ensures Bag(ApplySenders(Spread(c)))[x] == Bag(WriteSenders(c))[x]
    decreases |c|
  {
    if c == map[] {
      assert Indexes(c) == {};
      assert Spread(c) == map[];
      EmptyMaps(x);
    } else {
      var k :| k in c;
      DisjointWithout(c, k);
      SpreadBag(x, c - {k});
      SpreadBagStep(x, c, k);
    }
  }

  lemma SpreadBagStep(x: Sender, c: map<nat, WriteMetadata>, k: nat)
    requires DisjointBatches(c) && k in c
    ensures Bag(ApplySenders(Spread(c)))[x] == Bag(ApplySenders(Spread(c - {k})))[x] + multiset(c[k].senders)[x]
    ensures Bag(WriteSenders(c))[x] == Bag(WriteSenders(c - {k}))[x] + multiset(c[k].senders)[x]
  {
    hide Bag, Spread, Laid, DisjointRanges;
    SpreadStep(c, k);
    ApplySplit(x, Spread(c - {k}), Laid(c[k].senders, c[k].start));
    LaidBag(x, c[k].senders, c[k].start);
    WriteInsert(x, c - {k}, k, c[k]);
    assert (c - {k})[k := c[k]] == c;
  }

  // ---- The queue-shaped buffers --------------------------------------------------------------

  lemma {:induction false} FilterBag(x: Sender, q: seq<Sender>, keep: set<Sender>)
    ensures multiset(Filter(q, keep))[x] + multiset(Without(q, keep))[x] == multiset(q)[x]
  {
    if q != [] {
      FilterBag(x, q[1..], keep);
      assert q == [q[0]] + q[1..];
    }
  }

  lemma LeaseCons(e: LeaseRead, q: seq<LeaseRead>)
    ensures LeaseSenders([e] + q) == [e.sender] + LeaseSenders(q)
  {
    assert ([e] + q)[1..] == q;
  }

  lemma {:induction false} LeaseBag(x: Sender, q: seq<LeaseRead>, now: nat)
    ensures multiset(ExpiredLease(q, now))[x] + multiset(LeaseSenders(LiveLease(q, now)))[x]
            == multiset(LeaseSenders(q))[x]
  {
    if q != [] {
      LeaseBag(x, q[1..], now);
      LeaseCons(q[0], LiveLease(q[1..], now));
    }
  }

  lemma {:induction false} StampSenders(q: seq<Sender>, deadline: nat)
    ensures LeaseSenders(Stamp(q, deadline)) == q
  {
    if q != [] {
      StampSenders(q[1..], deadline);
      LeaseCons(LeaseRead(q[0], deadline), Stamp(q[1..], deadline));
    }
  }

  lemma LeaseStep(a: seq<LeaseRead>, b: seq<LeaseRead>)
    requires a != []
    ensures LeaseSenders(a) == [a[0].sender] + LeaseSenders(a[1..])
    ensures LeaseSenders(a + b) == [a[0].sender] + LeaseSenders(a[1..] + b)
  {
    hide LeaseSenders;
    assert a == [a[0]] + a[1..];
    assert a + b == [a[0]] + (a[1..] + b);
    LeaseCons(a[0], a[1..]);
    LeaseCons(a[0], a[1..] + b);
  }

  lemma {:induction false} LeasePlus(a: seq<LeaseRead>, b: seq<LeaseRead>)
    ensures LeaseSenders(a + b) == LeaseSenders(a) + LeaseSenders(b)
  {
    if a == [] {
      assert a + b == b;
    } else {
      LeasePlus(a[1..], b);
      LeaseStep(a, b);
    }
  }

  lemma LeaseAppend(x: Sender, a: seq<LeaseRead>, q: seq<Sender>, deadline: nat)
    ensures multiset(LeaseSenders(a + Stamp(q, deadline)))[x] == multiset(LeaseSenders(a))[x] + multiset(q)[x]
  {
    LeasePlus(a, Stamp(q, deadline));
    StampSenders(q, deadline);
  }

  // ---- The steps ----------------------------------------------------------------------------

  lemma StoreWritesKeeps(x: Sender, s: State, payloads: seq<Payload>, senders: seq<Sender>, env: Env)
    requires senders != [] ==> s.log.maxIndex + |senders| !in s.pendingWrites
    ensures Copies(StoreWrites(s, payloads, senders, env), x) == Copies(s, x) + multiset(senders)[x]
  {
    hide Bag, Append, Laid, WriteSenders, ReadSenders, ApplySenders, JoinSenders, LeaseSenders;
    if senders != [] {
      var s' := StoreWrites(s, payloads, senders, env);
      var k := s.log.maxIndex + |senders|;
      WriteInsert(x, s.pendingWrites, k, s'.pendingWrites[k]);
    }
  }

  lemma ReplyKeeps(x: Sender, s: State, xs: seq<Sender>, r: Response)
    ensures Copies(s.(outbox := Reply(s.outbox, xs, r)), x) == Copies(s, x) + multiset(xs)[x]
  {
  }

  lemma AwaitKeeps(x: Sender, s: State, k: nat, readers: seq<Sender>, deadline: nat)
    ensures Copies(s.(pendingReads := Await(s.pendingReads, k, readers, deadline)), x) == Copies(s, x) + multiset(readers)[x]
  {
    ReadAwait(x, s.pendingReads, k, readers, deadline);
  }

  lemma RouteReadsKeeps(x: Sender, s: State, readers: seq<Sender>, env: Env)
    ensures Copies(RouteReads(s, readers, env), x) == Copies(s, x) + multiset(readers)[x]
  {
    hide Copies;
    ReplyKeeps(x, s, readers, Refused(Unavailable));
    ReplyKeeps(x, s, readers, ReadResults(s.lastApplied));
    AwaitKeeps(x, s, ReadIndex(s), readers, env.now + env.timeout);
  }

  lemma ExecuteKeeps(x: Sender, s: State, payloads: seq<Payload>, senders: seq<Sender>, readers: seq<Sender>, env: Env)
    requires senders != [] ==> s.log.maxIndex + |senders| !in s.pendingWrites
    ensures Copies(Execute(s, payloads, senders, readers, env), x)
            == Copies(s, x) + multiset(senders)[x] + multiset(readers)[x]
  {
    if Accepts(s.log, payloads) {
      StoreWritesKeeps(x, s, payloads, senders, env);
      RouteReadsKeeps(x, StoreWrites(s, payloads, senders, env), readers, env);
    }
  }

  lemma ServeQueuesKeeps(x: Sender, s: State, env: Env)
    ensures Copies(ServeQueues(s, env), x) == Copies(s, x)
  {
    hide Filter, Without, Stamp, LeaseSenders, Bag;
    FilterBag(x, s.leaseQueue, env.leaseServed);
    LeaseAppend(x, s.pendingLease, Without(s.leaseQueue, env.leaseServed), env.now + env.timeout);
  }

  lemma SpreadApart(m: map<nat, Sender>, c: map<nat, WriteMetadata>)
    requires Before(m, c)
    ensures m.Keys !! Spread(c).Keys
  {
  }

  lemma SpreadMove(x: Sender, m: map<nat, Sender>, c: map<nat, WriteMetadata>)
    requires DisjointBatches(c)
    requires Before(m, c)
    ensures Bag(ApplySenders(m + Spread(c)))[x] == Bag(ApplySenders(m))[x] + Bag(WriteSenders(c))[x]
  {
    SpreadBag(x, c);
    SpreadApart(m, c);
    ApplySplit(x, m, Spread(c));
  }

  lemma NoneImmediate(x: Sender, c: map<nat, WriteMetadata>)
    requires DisjointBatches(c)
    ensures Bag(WriteSenders(Immediate(c)))[x] == 0
  {
    assert Immediate(c) == map[];
    EmptyMaps(x);
  }

  lemma UptoDisjoint(m: map<nat, Sender>, c: map<nat, WriteMetadata>, n: nat)
    requires DisjointBatches(c) && Before(m, c)
    ensures DisjointBatches(Upto(c, n)) && Before(m, Upto(c, n))
  {
  }

  lemma DrainWritesKeeps(x: Sender, s: State, n: nat)
    requires DisjointBatches(s.pendingWrites)
    requires Before(s.pendingWriteApply, s.pendingWrites)
    ensures Copies(DrainWrites(s, n), x) == Copies(s, x)
  {
    hide Bag, Spread, Immediate, DisjointBatches, Upto, Above;
    hide WriteSenders, ReadSenders, ApplySenders, JoinSenders, LeaseSenders, ToBatches;
    var c := Upto(s.pendingWrites, n);
    WriteCut(x, s.pendingWrites, n);
    UptoDisjoint(s.pendingWriteApply, s.pendingWrites, n);
    SpreadMove(x, s.pendingWriteApply, c);
    NoneImmediate(x, c);
  }

  lemma DrainActionsKeeps(x: Sender, s: State, n: nat)
    ensures Copies(DrainActions(s, n), x) == Copies(s, x)
  {
    JoinCut(x, s.commitActions, n);
  }

  lemma ServeReadsKeeps(x: Sender, s: State, n: nat)
    ensures Copies(ServeReads(s, n), x) == Copies(s, x)
  {
    ReadCut(x, s.pendingReads, n);
  }

  lemma {:induction false} RespondKeeps(x: Sender, s: State, results: seq<ApplyResult>)
    ensures Copies(Respond(s, results), x) == Copies(s, x)
    decreases |results|
  {
    if results != [] {
      var r := results[0];
      var m := s.pendingWriteApply;
      if r.index in m {
        var s1 := s.(pendingWriteApply := m - {r.index},
                     outbox := Send(s.outbox, m[r.index], if r.succeeded then WriteSuccess else CasFailure, r.index));
        RespondKeeps(x, s1, results[1..]);
        ApplyRemove(x, m, r.index);
      } else {
        RespondKeeps(x, s, results[1..]);
      }
    }
  }

  lemma ExpireKeeps(x: Sender, s: State, now: nat)
    ensures Copies(Expire(s, now), x) == Copies(s, x)
  {
    WriteExpiry(x, s.pendingWrites, now);
    ReadExpiry(x, s.pendingReads, now);
    JoinExpiry(x, s.commitActions, now);
    LeaseBag(x, s.pendingLease, now);
  }

  lemma FailWritesKeeps(x: Sender, s: State, code: ErrorCode)
    ensures Copies(FailWrites(s, code), x) == Copies(s, x)
  {
    EmptyMaps(x);
  }

  lemma StepDownKeeps(x: Sender, s: State)
    ensures Copies(StepDown(s), x) == Copies(s, x)
  {
    EmptyMaps(x);
  }

  lemma FatalKeeps(x: Sender, s: State)
    ensures Copies(Fatal(s), x) == Copies(s, x)
  {
    EmptyMaps(x);
  }

  lemma JoinKeeps(x: Sender, s: State, y: Sender, admitted: bool, change: nat, deadline: nat)
    requires admitted && !s.log.poisoned ==> Append(s.log, s.term, [Config(change)]).maxIndex !in s.commitActions
    ensures Copies(Join(s, y, admitted, change, deadline), x) == Copies(s, x) + multiset{y}[x]
  {
    if admitted && !s.log.poisoned {
      JoinInsert(x, s.commitActions, Append(s.log, s.term, [Config(change)]).maxIndex, deadline, y);
    }
  }
}
