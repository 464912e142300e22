/** Draining the inbound queue with consecutive AppendEntries requests fused. */
module InboundBatching {
  import opened Types
  import opened Receiver
  import opened MergeRefinement

  /** `Other` stands for any other inbound event; it may raise the node's term. */
  datatype InboundEvent = AppendEntries(req: Request, senders: seq<nat>) | Other(id: nat, term: nat)

  // ---- Fusing -----------------------------------------------------------------------------------

  predicate CanJoin(a: InboundEvent, b: InboundEvent, max: nat)
  {
    a.AppendEntries? && b.AppendEntries? && Joins(a.req, b.req) && |a.req.entries| + |b.req.entries| <= max
  }

  function Join(a: InboundEvent, b: InboundEvent): InboundEvent
    requires a.AppendEntries? && b.AppendEntries?
  {
    AppendEntries(Merge(a.req, b.req), a.senders + b.senders)
  }

  /** How many events after `head` it takes in. */
  function Reach(head: InboundEvent, rest: seq<InboundEvent>, max: nat): (k: nat)
    ensures k <= |rest|
    decreases |rest|
  {
    if rest == [] || !CanJoin(head, rest[0], max) then 0 else 1 + Reach(Join(head, rest[0]), rest[1..], max)
  }

  function Absorb(head: InboundEvent, rest: seq<InboundEvent>, max: nat): InboundEvent
    decreases |rest|
  {
    if rest == [] || !CanJoin(head, rest[0], max) then head else Absorb(Join(head, rest[0]), rest[1..], max)
  }

  /** The events handled for the queue `q`. */
  function Fuse(q: seq<InboundEvent>, max: nat): (r: seq<InboundEvent>)
    ensures q == [] <==> r == []
    decreases |q|
  {
    if q == [] then [] else [Absorb(q[0], q[1..], max)] + Fuse(q[1 + Reach(q[0], q[1..], max)..], max)
  }

  // ---- The event loop -----------------------------------------------------------------------------

  class EventLoop {
    var inbound: seq<InboundEvent>
    var handled: seq<InboundEvent>
    const maxMergeEntries: nat

    constructor (max: nat)
      ensures inbound == handled == [] && maxMergeEntries == max
    {
      inbound, handled, maxMergeEntries := [], [], max;
    }

    /** The front request takes in the requests behind it as long as they continue it and fit. */
    method MergeAppendEntries()
      modifies `inbound
      ensures inbound == if old(inbound) == [] || old(inbound)[0].Other? then old(inbound) else
                [Absorb(old(inbound)[0], old(inbound)[1..], maxMergeEntries)]
                + old(inbound)[1 + Reach(old(inbound)[0], old(inbound)[1..], maxMergeEntries)..]
    {
      if inbound == [] || inbound[0].Other? { return; }
      var req, senders := inbound[0].req, inbound[0].senders;
      inbound := inbound[1..];
      var nextPrev := req.prevIndex + |req.entries|;
      ghost var taken := 0;
      while inbound != []
        invariant nextPrev == req.prevIndex + |req.entries|
        invariant taken + |inbound| == |old(inbound)| - 1 && inbound == old(inbound)[1..][taken..]
        invariant Absorb(AppendEntries(req, senders), inbound, maxMergeEntries)
               == Absorb(old(inbound)[0], old(inbound)[1..], maxMergeEntries)
        invariant taken + Reach(AppendEntries(req, senders), inbound, maxMergeEntries)
               == Reach(old(inbound)[0], old(inbound)[1..], maxMergeEntries)
        decreases |inbound|
      {
        var event := inbound[0];
        if event.Other? || nextPrev != event.req.prevIndex || req.term != event.req.term { break; }
        if |req.entries| + |event.req.entries| > maxMergeEntries { break; }
        assert Join(AppendEntries(req, senders), event) == AppendEntries(Merge(req, event.req), senders + event.senders);
        inbound := inbound[1..];
        nextPrev := nextPrev + |event.req.entries|;
        req := req.(entries := req.entries + event.req.entries, leaderCommit := Max(req.leaderCommit, event.req.leaderCommit));
        senders := senders + event.senders;
        taken := taken + 1;
      }
      inbound := [AppendEntries(req, senders)] + inbound;
    }

    /** The next event to handle, with everything behind it that it takes in. */
    method TakeNext() returns (event: InboundEvent)
      requires inbound != []
      modifies `inbound
      ensures Fuse(old(inbound), maxMergeEntries) == [event] + Fuse(inbound, maxMergeEntries)
      ensures |inbound| < |old(inbound)|
    {
      if inbound[0].AppendEntries? { MergeAppendEntries(); }
      event := inbound[0];
      inbound := inbound[1..];
      assert inbound == old(inbound)[1 + Reach(old(inbound)[0], old(inbound)[1..], maxMergeEntries)..];
    }

    /**
     * Handles the whole queue, or stops after the handler of the event number `fatal` reported a
     * fatal error.
     */
    method ProcessInboundEvents(fatal: nat)
      modifies `inbound, `handled
      ensures var all := Fuse(old(inbound), maxMergeEntries);
        if fatal < |all| then handled == old(handled) + all[..fatal + 1] && Fuse(inbound, maxMergeEntries) == all[fatal + 1..]
        else handled == old(handled) + all && inbound == []
    {
      hide Absorb, Reach;
      ghost var all := Fuse(inbound, maxMergeEntries);
      var count := 0;
      while inbound != []
        invariant count <= |all| && count <= fatal
        invariant handled == old(handled) + all[..count] && Fuse(inbound, maxMergeEntries) == all[count..]
        decreases |inbound|
      {
        var event := TakeNext();
        assert all[count..][0] == event && all[count..][1..] == all[count + 1..];
        handled := handled + [event];
        if count == fatal { return; }
        count := count + 1;
      }
    }
  }
}
