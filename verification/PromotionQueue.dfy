/** Learners waiting for promotion, and the cached deadline that makes the stale check constant-time. */
module PromotionQueue {
  import opened Types

  datatype Promotion = Promotion(id: nat, since: nat)

  /** Oldest first. */
  predicate Ordered(q: seq<Promotion>) { forall i, j :: 0 <= i < j < |q| ==> q[i].since <= q[j].since }

  predicate Distinct(q: seq<Promotion>) { forall i, j :: 0 <= i < j < |q| ==> q[i].id != q[j].id }

  predicate Holds(q: seq<Promotion>, id: nat) { exists i :: 0 <= i < |q| && q[i].id == id }

  /** `refresh_stale_deadline` looks at the front only. */
  function FrontDeadline(q: seq<Promotion>, threshold: nat): Option<nat>
  {
    if q == [] then None else Some(q[0].since + threshold)
  }

  /** The earliest deadline over the whole queue; none exactly if the queue is empty. */
  ghost predicate IsEarliest(d: Option<nat>, q: seq<Promotion>, threshold: nat)
  {
    && (d.None? <==> q == [])
    && (d.Some? ==> (exists i :: 0 <= i < |q| && q[i].since + threshold == d.value)
                    && (forall i :: 0 <= i < |q| ==> d.value <= q[i].since + threshold))
  }

  lemma FrontIsEarliest(q: seq<Promotion>, threshold: nat)
    requires Ordered(q)
    ensures IsEarliest(FrontDeadline(q, threshold), q, threshold)
  {
    if q != [] { assert q[0].since + threshold == FrontDeadline(q, threshold).value; }
  }

  /** `retain` during promotion keeps an entry of exactly the threshold age. */
  function Fresh(q: seq<Promotion>, now: nat, threshold: nat): seq<Promotion>
  {
    if q == [] then [] else
    var rest := Fresh(q[1..], now, threshold);
    if now <= q[0].since + threshold then [q[0]] + rest else rest
  }

  /** The periodic purge removes it. */
  predicate Stale(p: Promotion, now: nat, threshold: nat) { p.since + threshold <= now }

  /** `calculate_safe_batch_size` */
  function SafeBatch(current: nat, available: nat): nat
  {
    if (current + available) % 2 == 1 then available else if available == 0 then 0 else available - 1
  }

  /** The largest batch that leaves an odd number of voters, if there is one. */
  lemma SafeBatchLargest(current: nat, available: nat, more: nat)
    ensures SafeBatch(current, available) <= available
    ensures (current + SafeBatch(current, available)) % 2 == 1 <==> current % 2 == 1 || available > 0
    ensures SafeBatch(current, available) < more <= available ==> (current + more) % 2 == 0
  {
  }

  /** How many entries at the front the cleanup drops. */
  function Expired(q: seq<Promotion>, now: nat, threshold: nat): (k: nat)
    ensures k <= |q|
  {
    if q == [] || now <= q[0].since + threshold then 0 else 1 + Expired(q[1..], now, threshold)
  }

  /** In an ordered queue the cleanup cuts off a front part. */
  lemma {:induction false} FreshIsSuffix(q: seq<Promotion>, now: nat, threshold: nat)
    requires Ordered(q)
    ensures Fresh(q, now, threshold) == q[Expired(q, now, threshold)..]
  {
    if q != [] {
      FreshIsSuffix(q[1..], now, threshold);
      if now <= q[0].since + threshold {
        assert q[1..] == [] || now <= q[1].since + threshold;
        assert q == [q[0]] + q[1..];
      }
    }
  }

  function Stamped(ids: seq<nat>, now: nat): seq<Promotion> { seq(|ids|, i requires 0 <= i < |ids| => Promotion(ids[i], now)) }

  predicate NoTwice(ids: seq<nat>) { forall i, j :: 0 <= i < j < |ids| ==> ids[i] != ids[j] }

  lemma AppendKeeps(q: seq<Promotion>, ids: seq<nat>, now: nat)
    requires Ordered(q) && Distinct(q) && NoTwice(ids)
    requires forall i :: 0 <= i < |q| ==> q[i].since <= now
    requires forall i :: 0 <= i < |ids| ==> !Holds(q, ids[i])
    ensures var r := q + Stamped(ids, now);
      Ordered(r) && Distinct(r) && forall i :: 0 <= i < |r| ==> r[i].since <= now
  {
  }

  /** `deduplicate_promotions`: the ready learners that are not queued. */
  function Unqueued(ready: seq<nat>, q: seq<Promotion>): seq<nat>
  {
    if ready == [] then [] else
    var n := |ready| - 1;
    Unqueued(ready[..n], q) + (if Holds(q, ready[n]) then [] else [ready[n]])
  }

  lemma {:induction false} UnqueuedAre(ready: seq<nat>, q: seq<Promotion>)
    requires NoTwice(ready)
    ensures NoTwice(Unqueued(ready, q))
    ensures forall id :: id in Unqueued(ready, q) <==> id in ready && !Holds(q, id)
  {
    hide Holds;
    if ready != [] {
      var n := |ready| - 1;
      UnqueuedAre(ready[..n], q);
      assert ready == ready[..n] + [ready[n]];
      assert forall i :: 0 <= i < |Unqueued(ready[..n], q)| ==> Unqueued(ready[..n], q)[i] in ready[..n];
      assert ready[n] !in ready[..n];
    }
  }

  class Queue {
    var pending: seq<Promotion>
    var deadline: Option<nat>
    const threshold: nat
    ghost var clock: nat

    /** Sorted by age, no id twice, and the cached deadline is the earliest one. */
    ghost predicate Valid()
      reads this
    {
      && Ordered(pending) && Distinct(pending)
      && IsEarliest(deadline, pending, threshold)
      && forall i :: 0 <= i < |pending| ==> pending[i].since <= clock
    }

    constructor (t: nat)
      ensures Valid() && pending == [] && threshold == t
    {
      pending, deadline, threshold, clock := [], None, t, 0;
    }

    method RefreshDeadline()
      requires Ordered(pending)
      modifies `deadline
      ensures IsEarliest(deadline, pending, threshold)
    {
      deadline := if pending == [] then None else Some(pending[0].since + threshold);
      FrontIsEarliest(pending, threshold);
    }

    /** The learners that are not queued yet are queued, each with the current time. */
    method Enqueue(ready: seq<nat>, now: nat)
      requires Valid() && clock <= now && NoTwice(ready)
      modifies this
      ensures Valid() && clock == now
      ensures pending == old(pending) + Stamped(Unqueued(ready, old(pending)), now)
    {
      hide Unqueued, Holds;
      clock := now;
      var q := pending;
      var ids := Unqueued(ready, q);
      UnqueuedAre(ready, q);
      assert forall i :: 0 <= i < |ids| ==> ids[i] in ids;
      AppendKeeps(q, ids, now);
      PushAll(ids, now);
      if deadline.None? { RefreshDeadline(); } else { StillEarliest(q, pending, threshold, deadline); }
    }

    method PushAll(ids: seq<nat>, now: nat)
      modifies `pending
      ensures pending == old(pending) + Stamped(ids, now)
    {
      var k := 0;
      while k < |ids|
        invariant k <= |ids| && pending == old(pending) + Stamped(ids[..k], now)
      {
        pending := pending + [Promotion(ids[k], now)];
        assert Stamped(ids[..k + 1], now) == Stamped(ids[..k], now) + [Promotion(ids[k], now)];
        k := k + 1;
      }
      assert ids[..k] == ids;
    }

    /** `drain_batch` */
    method DrainBatch(count: nat) returns (batch: seq<Promotion>)
      modifies `pending
      ensures batch + pending == old(pending) && |batch| == Min(count, |old(pending)|)
    {
      batch := [];
      var i := 0;
      while i < count && pending != []
        invariant i <= count && batch + pending == old(pending) && |batch| == i
      {
        batch, pending := batch + [pending[0]], pending[1..];
        i := i + 1;
      }
    }

    /** A failed batch goes back to the front, last entry first. */
    method Restore(batch: seq<Promotion>)
      modifies `pending
      ensures pending == batch + old(pending)
    {
      var i := |batch|;
      while i > 0
        invariant 0 <= i <= |batch| && batch[..i] + pending == batch + old(pending)
      {
        assert batch[..i] == batch[..i - 1] + [batch[i - 1]];
        pending := [batch[i - 1]] + pending;
        i := i - 1;
      }
    }

    /** Entries older than the threshold are dropped before a promotion. */
    method Cleanup(now: nat)
      requires Valid() && clock <= now
      modifies this
      ensures Valid() && clock == now && pending == Fresh(old(pending), now, threshold)
    {
      hide Fresh, Expired, Ordered, Distinct;
      clock := now;
      FreshIsSuffix(pending, now, threshold);
      SuffixKeeps(pending, Expired(pending, now, threshold));
      pending := Fresh(pending, now, threshold);
      RefreshDeadline();
    }

    method PromoteFront(n: nat, accepted: bool) returns (promoted: seq<Promotion>)
      requires Valid() && n <= |pending|
      modifies `pending, `deadline
      ensures Valid() && promoted == (if accepted then old(pending)[..n] else []) && pending == old(pending)[|promoted|..]
    {
      hide Ordered, Distinct;
      ghost var q := pending;
      SuffixKeeps(q, n);
      var batch := DrainBatch(n);
      assert batch == q[..n] && pending == q[n..];
      promoted := [];
      if accepted { promoted := batch; } else { Restore(batch); assert pending == q; }
      RefreshDeadline();
    }

    /** Cleanup, a batch that keeps the voter count odd, and on failure the batch back at the front. */
    method Promote(now: nat, voters: nat, accepted: bool) returns (promoted: seq<Promotion>)
      requires Valid() && clock <= now
      modifies this
      ensures Valid() && clock == now
      ensures var kept := Fresh(old(pending), now, threshold);
        promoted == (if accepted then kept[..SafeBatch(voters, |kept|)] else []) && pending == kept[|promoted|..]
    {
      hide Fresh, Ordered, Distinct, IsEarliest;
      Cleanup(now);
      promoted := [];
      var n := SafeBatch(voters, |pending|);
      if n > 0 { promoted := PromoteFront(n, accepted); }
    }

    /** Pops the front while it is stale. */
    method PopStale(now: nat) returns (gone: seq<nat>)
      modifies `pending
      ensures |gone| <= |old(pending)| && pending == old(pending)[|gone|..]
      ensures forall i :: 0 <= i < |gone| ==> old(pending)[i].id == gone[i] && Stale(old(pending)[i], now, threshold)
      ensures pending != [] ==> !Stale(pending[0], now, threshold)
    {
      ghost var q := pending;
      gone := [];
      while pending != []
        invariant |gone| <= |q| && pending == q[|gone|..]
        invariant forall i :: 0 <= i < |gone| ==> q[i].id == gone[i] && Stale(q[i], now, threshold)
        decreases |pending|
      {
        var front := pending[0];
        if now < front.since + threshold { break; }
        assert q[|gone|] == front && q[|gone|..][1..] == q[|gone| + 1..];
        gone, pending := gone + [front.id], pending[1..];
      }
    }

    /** Exactly the stale entries go. */
    method PurgeStale(now: nat) returns (gone: seq<nat>)
      requires Valid() && clock <= now
      modifies this
      ensures Valid() && clock == now && |gone| <= |old(pending)| && pending == old(pending)[|gone|..]
      ensures forall i :: 0 <= i < |gone| ==> old(pending)[i].id == gone[i] && Stale(old(pending)[i], now, threshold)
      ensures forall i :: 0 <= i < |pending| ==> !Stale(pending[i], now, threshold)
    {
      hide Ordered, Distinct, Stale;
      clock := now;
      ghost var q := pending;
      gone := PopStale(now);
      SuffixKeeps(q, |gone|);
      if pending != [] { RestNotStale(pending, now, threshold); }
      RefreshDeadline();
    }

    /** The constant-time check of `tick`: the purge is due exactly if some entry is stale. */
    method PurgeDue(now: nat) returns (due: bool)
      requires Valid()
      ensures due <==> exists i :: 0 <= i < |pending| && Stale(pending[i], now, threshold)
    {
      due := deadline.Some? && deadline.value <= now;
    }
  }

  lemma RestNotStale(q: seq<Promotion>, now: nat, threshold: nat)
    requires Ordered(q) && q != [] && !Stale(q[0], now, threshold)
    ensures forall i :: 0 <= i < |q| ==> !Stale(q[i], now, threshold)
  {
  }

  lemma SuffixKeeps(q: seq<Promotion>, k: nat)
    requires Ordered(q) && Distinct(q) && k <= |q|
    ensures Ordered(q[k..]) && Distinct(q[k..])
  {
  }

  lemma StillEarliest(q: seq<Promotion>, r: seq<Promotion>, threshold: nat, d: Option<nat>)
    requires q <= r && Ordered(r) && IsEarliest(d, q, threshold) && d.Some?
    ensures IsEarliest(d, r, threshold)
  {
    var i :| 0 <= i < |q| && q[i].since + threshold == d.value;
    assert r[i] == q[i];
    assert q[0] == r[0];
  }

  /**
   * The two removals differ on an entry if and only if it has exactly the threshold age: then the
   * cleanup keeps it and the purge drops it.
   */
  lemma BoundaryDiffers(p: Promotion, now: nat, threshold: nat)
    ensures (Fresh([p], now, threshold) == [p] <==> Stale(p, now, threshold)) <==> p.since + threshold == now
    ensures p.since + threshold == now ==> Fresh([p], now, threshold) == [p]
  {
  }

  /** The cleanup keeps exactly the entries that are no older than the threshold. */
  lemma {:induction false} FreshAre(q: seq<Promotion>, now: nat, threshold: nat, p: Promotion)
    ensures p in Fresh(q, now, threshold) <==> p in q && now <= p.since + threshold
  {
    if q != [] {
      FreshAre(q[1..], now, threshold, p);
      assert q == [q[0]] + q[1..];
    }
  }
}
