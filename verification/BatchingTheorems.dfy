/** What fusing the inbound queue keeps, how far it goes, and that a follower by the rules of the paper cannot tell. */
module BatchingTheorems {
  import opened Types
  import opened Receiver
  import opened MergeRefinement
  import opened InboundBatching

  // ---- Nothing lost, nothing reordered --------------------------------------------------------------

  /** An entry as received (term of the request, log index), or another event. */
  datatype Piece = Received(term: nat, index: nat, entry: Entry) | Waiter(sender: nat) | Event(id: nat, raised: nat)

  function EntryPieces(term: nat, first: nat, es: seq<Entry>): seq<Piece>
    decreases |es|
  {
    if es == [] then [] else [Received(term, first, es[0])] + EntryPieces(term, first + 1, es[1..])
  }

  function WaiterPieces(xs: seq<nat>): seq<Piece> { if xs == [] then [] else [Waiter(xs[0])] + WaiterPieces(xs[1..]) }

  function EntryPart(e: InboundEvent): seq<Piece>
  {
    match e
    case AppendEntries(r, _) => EntryPieces(r.term, r.prevIndex + 1, r.entries)
    case Other(id, term) => [Event(id, term)]
  }

  function WaiterPart(e: InboundEvent): seq<Piece>
  {
    match e
    case AppendEntries(_, senders) => WaiterPieces(senders)
    case Other(id, term) => [Event(id, term)]
  }

  /** The entries and the other events, in queue order. */
  function EntryFlow(q: seq<InboundEvent>): seq<Piece> { if q == [] then [] else EntryPart(q[0]) + EntryFlow(q[1..]) }

  /** The response channels and the other events, in queue order. */
  function WaiterFlow(q: seq<InboundEvent>): seq<Piece> { if q == [] then [] else WaiterPart(q[0]) + WaiterFlow(q[1..]) }

  lemma {:induction false} EntryPiecesPlus(term: nat, first: nat, a: seq<Entry>, b: seq<Entry>)
    ensures EntryPieces(term, first, a + b) == EntryPieces(term, first, a) + EntryPieces(term, first + |a|, b)
    decreases |a|
  {
    if a == [] {
      assert a + b == b;
    } else {
      EntryPiecesPlus(term, first + 1, a[1..], b);
      assert (a + b)[1..] == a[1..] + b;
    }
  }

  lemma {:induction false} WaiterPiecesPlus(a: seq<nat>, b: seq<nat>)
    ensures WaiterPieces(a + b) == WaiterPieces(a) + WaiterPieces(b)
  {
    if a == [] {
      assert a + b == b;
    } else {
      WaiterPiecesPlus(a[1..], b);
      assert (a + b)[1..] == a[1..] + b;
    }
  }

  lemma FlowHead(e: InboundEvent, q: seq<InboundEvent>)
    ensures EntryFlow([e] + q) == EntryPart(e) + EntryFlow(q)
    ensures WaiterFlow([e] + q) == WaiterPart(e) + WaiterFlow(q)
  {
    hide EntryPart, WaiterPart;
    assert ([e] + q)[1..] == q;
  }

  lemma JoinFlow(a: InboundEvent, b: InboundEvent, q: seq<InboundEvent>, max: nat)
    requires CanJoin(a, b, max)
    ensures EntryFlow([Join(a, b)] + q) == EntryFlow([a] + ([b] + q))
    ensures WaiterFlow([Join(a, b)] + q) == WaiterFlow([a] + ([b] + q))
  {
    hide EntryFlow, WaiterFlow, EntryPieces, WaiterPieces;
    EntryPiecesPlus(a.req.term, a.req.prevIndex + 1, a.req.entries, b.req.entries);
    WaiterPiecesPlus(a.senders, b.senders);
    FlowHead(Join(a, b), q);
    FlowHead(b, q);
    FlowHead(a, [b] + q);
  }

  lemma {:induction false} AbsorbFlow(head: InboundEvent, rest: seq<InboundEvent>, max: nat)
    ensures var k := Reach(head, rest, max);
      && EntryFlow([Absorb(head, rest, max)] + rest[k..]) == EntryFlow([head] + rest)
      && WaiterFlow([Absorb(head, rest, max)] + rest[k..]) == WaiterFlow([head] + rest)
    decreases |rest|
  {
    hide EntryFlow, WaiterFlow;
    if rest != [] && CanJoin(head, rest[0], max) {
      AbsorbFlow(Join(head, rest[0]), rest[1..], max);
      JoinFlow(head, rest[0], rest[1..], max);
      assert [rest[0]] + rest[1..] == rest;
      var k := Reach(head, rest, max);
      assert rest[1..][k - 1..] == rest[k..];
    }
  }

  lemma FlowCons(e: InboundEvent, p: seq<InboundEvent>, q: seq<InboundEvent>)
    ensures EntryFlow(p) == EntryFlow(q) ==> EntryFlow([e] + p) == EntryFlow([e] + q)
    ensures WaiterFlow(p) == WaiterFlow(q) ==> WaiterFlow([e] + p) == WaiterFlow([e] + q)
  {
    hide EntryFlow, WaiterFlow, EntryPart, WaiterPart;
    FlowHead(e, p);
    FlowHead(e, q);
  }

  /**
   * Fusing keeps every entry with its term and index, every response channel and every other
   * event, all in their order.
   */
  lemma {:induction false} FuseKeeps(q: seq<InboundEvent>, max: nat)
    ensures EntryFlow(Fuse(q, max)) == EntryFlow(q) && WaiterFlow(Fuse(q, max)) == WaiterFlow(q)
    decreases |q|
  {
    hide EntryFlow, WaiterFlow, Absorb;
    if q != [] {
      var k := Reach(q[0], q[1..], max);
      var rest := q[1 + k..];
      FuseKeeps(rest, max);
      AbsorbFlow(q[0], q[1..], max);
      assert q[1..][k..] == rest && [q[0]] + q[1..] == q;
      FlowCons(Absorb(q[0], q[1..], max), Fuse(rest, max), rest);
    }
  }

  // ---- How far fusing goes ----------------------------------------------------------------------------

  function JoinAll(part: seq<InboundEvent>): InboundEvent
    requires part != [] && (|part| > 1 ==> forall e :: e in part ==> e.AppendEntries?)
    ensures part[0].AppendEntries? ==> JoinAll(part).AppendEntries?
    decreases |part|
  {
    if |part| == 1 then part[0] else Join(JoinAll(part[..|part| - 1]), part[|part| - 1])
  }

  /** Every event of the part continues what the events before it were fused to, and fits. */
  ghost predicate Legal(part: seq<InboundEvent>, max: nat)
  {
    && part != [] && (|part| > 1 ==> forall e :: e in part ==> e.AppendEntries?)
    && forall i :: 0 < i < |part| ==> CanJoin(JoinAll(part[..i]), part[i], max)
  }

  function Concat(parts: seq<seq<InboundEvent>>): seq<InboundEvent>
  {
    if parts == [] then [] else parts[0] + Concat(parts[1..])
  }

  /** A division of the queue into legal parts, none of which could take in the event behind it. */
  ghost predicate Maximal(parts: seq<seq<InboundEvent>>, q: seq<InboundEvent>, max: nat)
  {
    && Concat(parts) == q
    && (forall j :: 0 <= j < |parts| ==> Legal(parts[j], max))
    && (forall j :: 0 < j < |parts| ==> !CanJoin(JoinAll(parts[j - 1]), parts[j][0], max))
  }

  /** The parts that are fused. */
  function Parts(q: seq<InboundEvent>, max: nat): seq<seq<InboundEvent>>
    decreases |q|
  {
    if q == [] then [] else
    var k := 1 + Reach(q[0], q[1..], max);
    [q[..k]] + Parts(q[k..], max)
  }

  lemma JoinAllPlus(part: seq<InboundEvent>, e: InboundEvent)
    requires part != [] && part[0].AppendEntries? && e.AppendEntries?
    requires |part| > 1 ==> forall e :: e in part ==> e.AppendEntries?
    ensures JoinAll(part + [e]) == Join(JoinAll(part), e)
  {
    assert (part + [e])[..|part|] == part;
  }

  lemma LegalPlus(part: seq<InboundEvent>, e: InboundEvent, max: nat)
    requires Legal(part, max) && CanJoin(JoinAll(part), e, max)
    ensures Legal(part + [e], max) && JoinAll(part + [e]) == Join(JoinAll(part), e)
  {
    hide CanJoin, Join;
    AllAppend(part, e, max);
    JoinAllPlus(part, e);
    forall i | 0 < i < |part| + 1 ensures CanJoin(JoinAll((part + [e])[..i]), (part + [e])[i], max) {
      assert (part + [e])[..i] == part[..i];
      if i == |part| { assert part[..i] == part; }
    }
  }

  lemma AllAppend(part: seq<InboundEvent>, e: InboundEvent, max: nat)
    requires Legal(part, max) && CanJoin(JoinAll(part), e, max)
    ensures e.AppendEntries? && forall a :: a in part ==> a.AppendEntries?
  {
  }

  /** Starting from a legal part, the events taken in keep it legal, and the next one would not. */
  lemma {:induction false} ReachLegal(part: seq<InboundEvent>, rest: seq<InboundEvent>, max: nat)
    requires Legal(part, max)
    ensures var k := Reach(JoinAll(part), rest, max);
      && Legal(part + rest[..k], max) && JoinAll(part + rest[..k]) == Absorb(JoinAll(part), rest, max)
      && (k < |rest| ==> !CanJoin(JoinAll(part + rest[..k]), rest[k], max))
    decreases |rest|
  {
    hide CanJoin, Join, JoinAll;
    if rest != [] && CanJoin(JoinAll(part), rest[0], max) {
      LegalPlus(part, rest[0], max);
      ReachLegal(part + [rest[0]], rest[1..], max);
      var k := Reach(JoinAll(part), rest, max);
      assert part + [rest[0]] + rest[1..][..k - 1] == part + rest[..k];
    } else {
      assert part + rest[..0] == part;
    }
  }

  lemma LegalPrefix(part: seq<InboundEvent>, e: InboundEvent, more: seq<InboundEvent>, max: nat)
    requires part != [] && Legal(part + [e] + more, max)
    ensures Legal(part, max) && CanJoin(JoinAll(part), e, max)
  {
    var whole := part + [e] + more;
    assert whole[..|part|] == part && whole[|part|] == e;
    hide CanJoin;
    forall i | 0 < i < |part| ensures CanJoin(JoinAll(part[..i]), part[i], max) {
      assert whole[..i] == part[..i] && whole[i] == part[i];
    }
  }

  /** There is only one place to stop. */
  lemma {:induction false} ReachUnique(part: seq<InboundEvent>, rest: seq<InboundEvent>, max: nat, k: nat)
    requires Legal(part, max) && k <= |rest| && Legal(part + rest[..k], max)
    requires k < |rest| ==> !CanJoin(JoinAll(part + rest[..k]), rest[k], max)
    ensures k == Reach(JoinAll(part), rest, max)
    decreases |rest|
  {
    hide CanJoin, Join, Legal, JoinAll;
    if k == 0 {
      assert part + rest[..0] == part;
    } else {
      assert part + [rest[0]] + rest[1..][..k - 1] == part + rest[..k];
      LegalStart(part, max);
      LegalPrefix(part, rest[0], rest[1..][..k - 1], max);
      LegalPlus(part, rest[0], max);
      ReachUnique(part + [rest[0]], rest[1..], max, k - 1);
    }
  }

  lemma LegalStart(part: seq<InboundEvent>, max: nat)
    requires Legal(part, max)
    ensures part != []
  {
  }

  lemma LegalOne(e: InboundEvent, max: nat)
    ensures Legal([e], max) && JoinAll([e]) == e
  {
  }

  lemma PartsFirst(q: seq<InboundEvent>, max: nat)
    requires q != []
    ensures var k := 1 + Reach(q[0], q[1..], max);
      && Legal(q[..k], max) && JoinAll(q[..k]) == Absorb(q[0], q[1..], max)
      && (k < |q| ==> !CanJoin(JoinAll(q[..k]), q[k], max))
  {
    hide CanJoin, Join, Legal, JoinAll;
    LegalOne(q[0], max);
    ReachLegal([q[0]], q[1..], max);
    var k := 1 + Reach(q[0], q[1..], max);
    assert [q[0]] + q[1..][..k - 1] == q[..k];
  }

  /** The handled events are the parts of the maximal division, each fused into one. */
  lemma {:induction false} FuseMaximal(q: seq<InboundEvent>, max: nat)
    ensures Maximal(Parts(q, max), q, max)
    ensures |Fuse(q, max)| == |Parts(q, max)|
    ensures forall j :: 0 <= j < |Parts(q, max)| ==> Fuse(q, max)[j] == JoinAll(Parts(q, max)[j])
    decreases |q|
  {
    hide CanJoin, Join, Legal, JoinAll, Absorb;
    if q != [] {
      var k := 1 + Reach(q[0], q[1..], max);
      PartsFirst(q, max);
      FuseMaximal(q[k..], max);
      assert q[..k] + q[k..] == q;
      if k < |q| { FirstOfParts(q[k..], max); }
      MaximalCons(q[..k], Parts(q[k..], max), q[k..], max);
    }
  }

  /**
   * What keeps two neighbouring parts apart: one of them is another kind of event, or the second does not
   * continue the first, or is of another term, or both together exceed the limit.
   */
  lemma PartsApart(q: seq<InboundEvent>, max: nat, j: nat)
    requires 0 < j < |Parts(q, max)|
    ensures |Fuse(q, max)| == |Parts(q, max)| && Parts(q, max)[j] != []
    ensures var a, b := Fuse(q, max)[j - 1], Parts(q, max)[j][0];
      || a.Other? || b.Other? || b.req.term != a.req.term
      || b.req.prevIndex != a.req.prevIndex + |a.req.entries|
      || |a.req.entries| + |b.req.entries| > max
  {
    FuseMaximal(q, max);
  }

  lemma FirstOfParts(q: seq<InboundEvent>, max: nat)
    requires q != []
    ensures Parts(q, max) != [] && Parts(q, max)[0] != [] && Parts(q, max)[0][0] == q[0]
  {
  }

  lemma MaximalCons(part: seq<InboundEvent>, parts: seq<seq<InboundEvent>>, q: seq<InboundEvent>, max: nat)
    requires Legal(part, max) && Maximal(parts, q, max)
    requires parts != [] ==> !CanJoin(JoinAll(part), parts[0][0], max)
    ensures Maximal([part] + parts, part + q, max)
  {
    hide CanJoin, Join, JoinAll;
    var all := [part] + parts;
    assert all[1..] == parts;
    forall j | 0 < j < |all| ensures !CanJoin(JoinAll(all[j - 1]), all[j][0], max) {
      if j > 1 { assert all[j - 1] == parts[j - 2] && all[j] == parts[j - 1]; }
    }
  }

  /** No other division is maximal: the rule leaves no choice. */
  lemma {:induction false} MaximalUnique(parts: seq<seq<InboundEvent>>, q: seq<InboundEvent>, max: nat)
    requires Maximal(parts, q, max)
    ensures parts == Parts(q, max)
    decreases |parts|
  {
    hide CanJoin, Join, JoinAll, Legal;
    if parts != [] {
      var part, rest := parts[0], parts[1..];
      MaximalTail(parts, q, max);
      MaximalUnique(rest, Concat(rest), max);
      LegalStart(part, max);
      var k := |part| - 1;
      assert q[..1 + k] == part && q[1 + k..] == Concat(rest);
      LegalOne(q[0], max);
      assert [q[0]] + q[1..][..k] == part;
      if k < |q| - 1 {
        LegalStart(rest[0], max);
        assert q[1..][k] == rest[0][0];
      }
      ReachUnique([q[0]], q[1..], max, k);
    }
  }

  lemma MaximalTail(parts: seq<seq<InboundEvent>>, q: seq<InboundEvent>, max: nat)
    requires Maximal(parts, q, max) && parts != []
    ensures Maximal(parts[1..], Concat(parts[1..]), max)
    ensures parts[1..] == [] ==> Concat(parts[1..]) == []
    ensures |parts| > 1 ==> !CanJoin(JoinAll(parts[0]), parts[1][0], max)
  {
  }

  /** An event fused from two or more requests stays within the limit. */
  lemma FusedSize(q: seq<InboundEvent>, max: nat, j: nat)
    requires j < |Parts(q, max)| && |Parts(q, max)[j]| >= 2
    ensures j < |Fuse(q, max)| && Fuse(q, max)[j].AppendEntries? && |Fuse(q, max)[j].req.entries| <= max
  {
    FuseMaximal(q, max);
    var part := Parts(q, max)[j];
    assert Legal(part, max);
    assert CanJoin(JoinAll(part[..|part| - 1]), part[|part| - 1], max);
  }

  lemma {:induction false} JoinAllStart(part: seq<InboundEvent>, max: nat)
    requires Legal(part, max) && part[0].AppendEntries?
    ensures var a := JoinAll(part);
      && a.AppendEntries? && a.req.term == part[0].req.term && a.req.prevIndex == part[0].req.prevIndex
      && |a.req.entries| >= |part[0].req.entries|
    decreases |part|
  {
    if |part| > 1 {
      var init := part[..|part| - 1];
      assert part == init + [part[|part| - 1]] + [];
      LegalPrefix(init, part[|part| - 1], [], max);
      JoinAllStart(init, max);
    }
  }

  function Singles(q: seq<InboundEvent>): seq<seq<InboundEvent>> { seq(|q|, i requires 0 <= i < |q| => [q[i]]) }

  lemma {:induction false} ConcatSingles(q: seq<InboundEvent>)
    ensures Concat(Singles(q)) == q
  {
    if q != [] {
      ConcatSingles(q[1..]);
      assert Singles(q)[1..] == Singles(q[1..]);
    }
  }

  lemma JoinsFirst(a: InboundEvent, part: seq<InboundEvent>, max: nat)
    requires Legal(part, max) && CanJoin(a, JoinAll(part), max)
    ensures CanJoin(a, part[0], max)
  {
    if |part| > 1 || part[0].AppendEntries? { JoinAllStart(part, max); }
  }

  /** A fused queue has nothing left to fuse. */
  lemma FuseTwice(q: seq<InboundEvent>, max: nat)
    ensures Fuse(Fuse(q, max), max) == Fuse(q, max)
  {
    hide CanJoin, Join, JoinAll, Parts, Fuse;
    var f, parts := Fuse(q, max), Parts(q, max);
    FuseMaximal(q, max);
    ConcatSingles(f);
    var ones := Singles(f);
    forall j | 0 <= j < |ones| ensures Legal(ones[j], max) && JoinAll(ones[j]) == f[j] { LegalOne(f[j], max); }
    forall j | 0 < j < |ones| ensures !CanJoin(JoinAll(ones[j - 1]), ones[j][0], max) {
      if CanJoin(f[j - 1], f[j], max) { JoinsFirst(f[j - 1], parts[j], max); }
    }
    MaximalUnique(ones, f, max);
    FuseMaximal(f, max);
  }

  // ---- A follower by the rules of the paper cannot tell -------------------------------------------------

  /** Handling one event by the receiver of the paper. */
  function Handle(n: Node, e: InboundEvent): Node
  {
    match e
    case AppendEntries(r, _) => PaperReceive(n, r)
    case Other(_, term) => n.(term := Max(n.term, term))
  }

  function HandleAll(n: Node, q: seq<InboundEvent>): Node
    decreases |q|
  {
    if q == [] then n else HandleAll(Handle(n, q[0]), q[1..])
  }

  /** The leaders' logs, by term, agree with each other and with the node's log. */
  ghost predicate Matching(n: Node, leaders: map<nat, seq<Entry>>)
  {
    && (forall t :: t in leaders ==> LogMatching(n.log, leaders[t]))
    && (forall t, u :: t in leaders && u in leaders ==> LogMatching(leaders[t], leaders[u]))
  }

  /** Every request was cut out of the log of its leader, whose commit index only rises. */
  ghost predicate FromLeaders(q: seq<InboundEvent>, leaders: map<nat, seq<Entry>>)
  {
    && (forall i :: 0 <= i < |q| && q[i].AppendEntries? ==> q[i].req.term in leaders && Carved(q[i].req, leaders[q[i].req.term]))
    && (forall i, j :: 0 <= i < j < |q| && q[i].AppendEntries? && q[j].AppendEntries? && q[i].req.term == q[j].req.term ==>
          q[i].req.leaderCommit <= q[j].req.leaderCommit)
  }

  lemma HandleMatching(n: Node, e: InboundEvent, leaders: map<nat, seq<Entry>>)
    requires Matching(n, leaders) && FromLeaders([e], leaders)
    ensures Matching(Handle(n, e), leaders)
  {
    if e.AppendEntries? {
      assert e == [e][0];
      var l := leaders[e.req.term];
      PaperClosed(n, e.req, l);
      hide LogMatching, PaperReceive, Common, Accepts;
      forall t | t in leaders ensures LogMatching(l[..End(e.req)], leaders[t]) { PrefixMatching(l, leaders[t], End(e.req)); }
    }
  }

  lemma {:induction false} HandleAllPlus(n: Node, p: seq<InboundEvent>, q: seq<InboundEvent>)
    ensures HandleAll(n, p + q) == HandleAll(HandleAll(n, p), q)
    decreases |p|
  {
    hide Handle;
    if p == [] {
      assert p + q == q;
    } else {
      HandleAllPlus(Handle(n, p[0]), p[1..], q);
      assert (p + q)[1..] == p[1..] + q;
    }
  }

  /** Taking in one more request, against handling it after the fused one. */
  lemma JoinHandles(n: Node, a: InboundEvent, b: InboundEvent, max: nat, l: seq<Entry>)
    requires CanJoin(a, b, max) && LogMatching(n.log, l) && Carved(a.req, l) && Carved(b.req, l)
    requires a.req.leaderCommit <= b.req.leaderCommit
    ensures Handle(n, Join(a, b)) == Handle(Handle(n, a), b)
    ensures Carved(Join(a, b).req, l) && Join(a, b).req.leaderCommit == b.req.leaderCommit
  {
    hide PaperReceive, LogMatching, Carved;
    PaperTwo(n, a.req, b.req, l);
    CarvedMerge(a.req, b.req, l);
  }

  /** One fused event has the effect of all the events it was fused from. */
  lemma {:induction false} AbsorbHandles(n: Node, head: InboundEvent, rest: seq<InboundEvent>, max: nat, leaders: map<nat, seq<Entry>>)
    requires Matching(n, leaders) && FromLeaders([head] + rest, leaders)
    ensures Handle(n, Absorb(head, rest, max)) == HandleAll(Handle(n, head), rest[..Reach(head, rest, max)])
    decreases |rest|
  {
    hide Handle, LogMatching, Carved;
    if rest != [] && CanJoin(head, rest[0], max) {
      var joined := Join(head, rest[0]);
      var q := [head] + rest;
      assert q[0] == head && q[1] == rest[0];
      JoinHandles(n, head, rest[0], max, leaders[head.req.term]);
      JoinedFromLeaders(head, rest, max, leaders);
      AbsorbHandles(n, joined, rest[1..], max, leaders);
      var k := Reach(head, rest, max);
      assert rest[..k][0] == rest[0] && rest[..k][1..] == rest[1..][..k - 1];
    }
  }

  lemma JoinedFromLeaders(head: InboundEvent, rest: seq<InboundEvent>, max: nat, leaders: map<nat, seq<Entry>>)
    requires rest != [] && CanJoin(head, rest[0], max) && FromLeaders([head] + rest, leaders)
    ensures FromLeaders([Join(head, rest[0])] + rest[1..], leaders)
  {
    var q, p := [head] + rest, [Join(head, rest[0])] + rest[1..];
    assert q[0] == head && q[1] == rest[0];
    CarvedMerge(head.req, rest[0].req, leaders[head.req.term]);
    hide Carved;
    forall i | 0 < i < |p| ensures p[i] == q[i + 1] { }
  }

  lemma FromLeadersPart(q: seq<InboundEvent>, leaders: map<nat, seq<Entry>>, k: nat)
    requires FromLeaders(q, leaders) && k <= |q|
    ensures FromLeaders(q[k..], leaders) && FromLeaders(q[..k], leaders)
  {
  }

  lemma {:induction false} HandleAllMatching(n: Node, q: seq<InboundEvent>, leaders: map<nat, seq<Entry>>)
    requires Matching(n, leaders) && FromLeaders(q, leaders)
    ensures Matching(HandleAll(n, q), leaders)
    decreases |q|
  {
    hide Handle, Matching;
    if q != [] {
      FromLeadersPart(q, leaders, 1);
      assert q[..1] == [q[0]];
      HandleMatching(n, q[0], leaders);
      HandleAllMatching(Handle(n, q[0]), q[1..], leaders);
    }
  }

  /**
   * Handling the fused queue by the receiver rules of the Raft paper leaves the node with the same
   * term, log and commit index as handling the queue event by event, whatever other events lie
   * between and whichever leaders the requests come from.
   */
  lemma {:induction false} FusedQueue(n: Node, q: seq<InboundEvent>, max: nat, leaders: map<nat, seq<Entry>>)
    requires Matching(n, leaders) && FromLeaders(q, leaders)
    ensures HandleAll(n, Fuse(q, max)) == HandleAll(n, q)
    decreases |q|
  {
    hide Handle, Matching, FromLeaders, Absorb, CanJoin;
    if q != [] {
      var k := 1 + Reach(q[0], q[1..], max);
      var rest := q[k..];
      assert [q[0]] + q[1..] == q;
      AbsorbHandles(n, q[0], q[1..], max, leaders);
      assert q[..k][0] == q[0] && q[..k][1..] == q[1..][..k - 1];
      assert Handle(n, Absorb(q[0], q[1..], max)) == HandleAll(n, q[..k]);
      FromLeadersPart(q, leaders, k);
      HandleAllMatching(n, q[..k], leaders);
      FusedQueue(HandleAll(n, q[..k]), rest, max, leaders);
      HandleAllPlus(n, q[..k], rest);
      assert q[..k] + rest == q;
      assert Fuse(q, max)[0] == Absorb(q[0], q[1..], max) && Fuse(q, max)[1..] == Fuse(rest, max);
    }
  }
}
