/**
 * The fused queue under the receiver of this code base: log and term never tell, and the commit index
 * stays in step exactly as long as no fused part meets the exception of merging.
 */
module RepoBatching {
  import opened Types
  import opened Receiver
  import opened MergeRefinement
  import opened InboundBatching
  import opened BatchingTheorems

  /** Handling one event by this code base's receiver. */
  function Take(n: Node, e: InboundEvent): Node
  {
    match e
    case AppendEntries(r, _) => RepoReceive(n, r)
    case Other(_, term) => n.(term := Max(n.term, term))
  }

  function TakeAll(n: Node, q: seq<InboundEvent>): Node
  {
    if q == [] then n else Take(TakeAll(n, q[..|q| - 1]), q[|q| - 1])
  }

  /** Same log and term; the commit indexes may differ. */
  predicate Beside(n: Node, m: Node) { n.log == m.log && n.term == m.term }

  // ---- One part -----------------------------------------------------------------------------------------

  predicate AllRequests(part: seq<InboundEvent>) { forall e :: e in part ==> e.AppendEntries? }

  function Requests(part: seq<InboundEvent>): seq<Request>
    requires AllRequests(part)
  {
    seq(|part|, i requires 0 <= i < |part| => part[i].req)
  }

  lemma RequestsInit(part: seq<InboundEvent>)
    requires part != [] && AllRequests(part)
    ensures var k := |part| - 1; AllRequests(part[..k]) && Requests(part[..k]) == Requests(part)[..k] && Requests(part)[k] == part[k].req
  {
    assert forall e :: e in part[..|part| - 1] ==> e in part;
  }

  /** Fusing the events of a part is merging their requests. */
  lemma {:induction false} JoinIsMerge(part: seq<InboundEvent>)
    requires part != [] && AllRequests(part)
    ensures JoinAll(part).AppendEntries? && JoinAll(part).req == MergeAll(Requests(part))
    decreases |part|
  {
    hide Merge;
    RequestsInit(part);
    if |part| > 1 {
      JoinIsMerge(part[..|part| - 1]);
      assert JoinAll(part) == Join(JoinAll(part[..|part| - 1]), part[|part| - 1]);
    }
  }

  /** A fused part is a row of requests that its leader sent. */
  lemma {:induction false} PartSent(part: seq<InboundEvent>, max: nat, leaders: map<nat, seq<Entry>>)
    requires Legal(part, max) && AllRequests(part) && FromLeaders(part, leaders)
    ensures part[0].AppendEntries? && part[0].req.term in leaders && Sent(Requests(part), leaders[part[0].req.term])
    decreases |part|
  {
    hide Carved, MergeAll, JoinAll, Merge, Legal;
    LegalStart(part, max);
    RequestsInit(part);
    if |part| > 1 {
      var k := |part| - 1;
      var init, last, rs := part[..k], part[k], Requests(part);
      assert part == init + [last] + [];
      LegalPrefix(init, last, [], max);
      FromLeadersPart(part, leaders, k);
      PartSent(init, max, leaders);
      JoinIsMerge(init);
      var l := leaders[part[0].req.term];
      MergeAllFacts(rs[..k], l);
      LongerSent(rs, l);
    }
  }

  lemma LongerSent(rs: seq<Request>, l: seq<Entry>)
    requires |rs| > 1
    requires var k := |rs| - 1;
      Sent(rs[..k], l) && Carved(rs[k], l) && Joins(rs[k - 1], rs[k]) && rs[k - 1].leaderCommit <= rs[k].leaderCommit
    ensures Sent(rs, l)
  {
    hide Carved;
    var k := |rs| - 1;
    assert forall i :: 0 <= i < k ==> rs[..k][i] == rs[i];
  }

  lemma {:induction false} PartRun(n: Node, part: seq<InboundEvent>)
    requires AllRequests(part)
    ensures TakeAll(n, part) == RepoRun(n, Requests(part))
    decreases |part|
  {
    hide RepoReceive;
    if part != [] {
      RequestsInit(part);
      PartRun(n, part[..|part| - 1]);
    }
  }

  /**
   * The exception of merging: the part is accepted, an earlier request of it already carries the last
   * leader commit index while the log reaches that far, and the whole part leaves the log shorter.
   */
  ghost predicate Exceptional(n: Node, part: seq<InboundEvent>, leaders: map<nat, seq<Entry>>)
  {
    && |part| > 1 && AllRequests(part) && part[0].AppendEntries? && part[0].req.term in leaders
    && var rs, l := Requests(part), leaders[part[0].req.term];
       var c, end := rs[|rs| - 1].leaderCommit, End(rs[|rs| - 1]);
       && Accepts(n, MergeAll(rs)) && n.commit < c
       && end <= |l| && |RepoLogAfter(n.log, l, rs[0].prevIndex, end)| < c && Overreached(n.log, rs, l, c)
  }

  lemma TakeOne(n: Node, e: InboundEvent)
    ensures TakeAll(n, [e]) == Take(n, e) && JoinAll([e]) == e
  {
    assert [e][..0] == [];
  }

  /** One fused part: always the same log and term, and the same commit index exactly without the exception. */
  lemma FusedPart(n: Node, part: seq<InboundEvent>, max: nat, leaders: map<nat, seq<Entry>>)
    requires Matching(n, leaders) && FromLeaders(part, leaders) && Legal(part, max)
    ensures Beside(Take(n, JoinAll(part)), TakeAll(n, part))
    ensures Take(n, JoinAll(part)).commit == TakeAll(n, part).commit <==> !Exceptional(n, part, leaders)
  {
    hide LogMatching, RepoReceive, RepoRun, JoinAll, MergeAll, Accepts, RepoLogAfter, Overreached, FromLeaders, Sent, TakeAll;
    if |part| == 1 {
      assert part == [part[0]];
      TakeOne(n, part[0]);
    } else {
      PartSent(part, max, leaders);
      JoinIsMerge(part);
      PartRun(n, part);
      RequestsMerged(n, Requests(part), leaders[part[0].req.term]);
    }
  }

  lemma RequestsMerged(n: Node, rs: seq<Request>, l: seq<Entry>)
    requires LogMatching(n.log, l) && Sent(rs, l)
    ensures Beside(RepoReceive(n, MergeAll(rs)), RepoRun(n, rs))
    ensures End(rs[|rs| - 1]) <= |l|
    ensures var c := rs[|rs| - 1].leaderCommit;
      RepoReceive(n, MergeAll(rs)).commit == RepoRun(n, rs).commit
      <==> !(&& Accepts(n, MergeAll(rs)) && n.commit < c
             && |RepoLogAfter(n.log, l, rs[0].prevIndex, End(rs[|rs| - 1]))| < c && Overreached(n.log, rs, l, c))
  {
    hide LogMatching, RepoRun, MergeAll, Accepts, RepoLogAfter, Overreached, RepoLog, Joins;
    MergedRepoLog(n, rs, l);
    if Accepts(n, MergeAll(rs)) { MergeCondition(n, rs, l); } else { RejectedRun(n, rs, l); }
  }

  // ---- The whole queue -------------------------------------------------------------------------------------

  lemma {:induction false} TakeAllPlus(n: Node, p: seq<InboundEvent>, q: seq<InboundEvent>)
    ensures TakeAll(n, p + q) == TakeAll(TakeAll(n, p), q)
    decreases |q|
  {
    hide Take;
    if q == [] {
      assert p + q == p;
    } else {
      var k := |q| - 1;
      TakeAllPlus(n, p, q[..k]);
      assert (p + q)[..|p| + k] == p + q[..k] && (p + q)[|p| + k] == q[k];
    }
  }

  lemma TakeMatching(n: Node, e: InboundEvent, leaders: map<nat, seq<Entry>>)
    requires Matching(n, leaders) && (e.AppendEntries? ==> e.req.term in leaders && Carved(e.req, leaders[e.req.term]))
    ensures Matching(Take(n, e), leaders)
  {
    if e.AppendEntries? {
      var l := leaders[e.req.term];
      RepoClosed(n, e.req, l);
      hide LogMatching, RepoReceive, Common, Accepts;
      forall t | t in leaders ensures LogMatching(l[..End(e.req)], leaders[t]) { PrefixMatching(l, leaders[t], End(e.req)); }
    }
  }

  lemma {:induction false} TakeAllMatching(n: Node, q: seq<InboundEvent>, leaders: map<nat, seq<Entry>>)
    requires Matching(n, leaders) && FromLeaders(q, leaders)
    ensures Matching(TakeAll(n, q), leaders)
    decreases |q|
  {
    hide Take, Matching, Carved;
    if q != [] {
      var k := |q| - 1;
      FromLeadersPart(q, leaders, k);
      TakeAllMatching(n, q[..k], leaders);
      TakeMatching(TakeAll(n, q[..k]), q[k], leaders);
    }
  }

  lemma TakeBeside(n: Node, m: Node, e: InboundEvent)
    requires Beside(n, m)
    ensures Beside(Take(n, e), Take(m, e))
  {
    if e.AppendEntries? { CommitBeside(n, m, e.req); }
  }

  lemma {:induction false} ConcatInit(parts: seq<seq<InboundEvent>>, j: nat)
    requires j < |parts|
    ensures Concat(parts[..j + 1]) == Concat(parts[..j]) + parts[j]
    ensures Concat(parts[..j + 1]) <= Concat(parts)
    decreases j
  {
    if j == 0 {
      assert parts[..1][1..] == [] && parts[..0] == [];
    } else {
      ConcatInit(parts[1..], j - 1);
      assert parts[..j + 1][1..] == parts[1..][..j] && parts[..j][1..] == parts[1..][..j - 1];
    }
  }

  /** The node after the first `j` parts, event by event. */
  function OneByOne(n: Node, q: seq<InboundEvent>, max: nat, j: nat): Node
    requires j <= |Parts(q, max)|
  {
    TakeAll(n, Concat(Parts(q, max)[..j]))
  }

  /** The node after the first `j` fused events. */
  function Fused(n: Node, q: seq<InboundEvent>, max: nat, j: nat): Node
    requires j <= |Fuse(q, max)|
  {
    TakeAll(n, Fuse(q, max)[..j])
  }

  lemma PartStep(n: Node, q: seq<InboundEvent>, max: nat, leaders: map<nat, seq<Entry>>, j: nat)
    requires Matching(n, leaders) && FromLeaders(q, leaders) && j < |Parts(q, max)|
    ensures var part, s := Parts(q, max)[j], OneByOne(n, q, max, j);
      && |Fuse(q, max)| == |Parts(q, max)| && Legal(part, max) && FromLeaders(part, leaders) && Matching(s, leaders)
      && OneByOne(n, q, max, j + 1) == TakeAll(s, part)
      && Fused(n, q, max, j + 1) == Take(Fused(n, q, max, j), JoinAll(part))
  {
    hide Matching, FromLeaders, Fuse, Parts, Legal, JoinAll, Take;
    var parts, f := Parts(q, max), Fuse(q, max);
    FuseMaximal(q, max);
    ConcatInit(parts, j);
    var head := Concat(parts[..j]);
    assert q[..|head| + |parts[j]|] == head + parts[j] && q[..|head|] == head;
    FromLeadersPart(q, leaders, |head| + |parts[j]|);
    FromLeadersPart(head + parts[j], leaders, |head|);
    assert (head + parts[j])[|head|..] == parts[j] && (head + parts[j])[..|head|] == head;
    TakeAllMatching(n, head, leaders);
    TakeAllPlus(n, head, parts[j]);
    assert f[..j + 1][..j] == f[..j];
  }

  /** After any number of fused events the log and the term are those of the events one by one. */
  lemma {:induction false} FusedBeside(n: Node, q: seq<InboundEvent>, max: nat, leaders: map<nat, seq<Entry>>, j: nat)
    requires Matching(n, leaders) && FromLeaders(q, leaders) && j <= |Parts(q, max)|
    ensures |Fuse(q, max)| == |Parts(q, max)| && Beside(Fused(n, q, max, j), OneByOne(n, q, max, j))
    decreases j
  {
    hide Matching, FromLeaders, Fuse, Parts, CanJoin, Take, OneByOne, Fused, TakeAll;
    if j == 0 {
      NothingTaken(n, q, max);
    } else {
      FusedBeside(n, q, max, leaders, j - 1);
      PartStep(n, q, max, leaders, j - 1);
      var part, s, m := Parts(q, max)[j - 1], OneByOne(n, q, max, j - 1), Fused(n, q, max, j - 1);
      FusedPart(s, part, max, leaders);
      TakeBeside(m, s, JoinAll(part));
    }
  }

  lemma NothingTaken(n: Node, q: seq<InboundEvent>, max: nat)
    ensures |Fuse(q, max)| == |Parts(q, max)| && Fused(n, q, max, 0) == OneByOne(n, q, max, 0) == n
  {
    FuseMaximal(q, max);
  }

  /** The commit index is the same after every handled event. */
  ghost predicate InStep(n: Node, q: seq<InboundEvent>, max: nat, upto: nat)
    requires upto <= |Parts(q, max)| == |Fuse(q, max)|
  {
    forall j :: 0 <= j <= upto ==> Fused(n, q, max, j).commit == OneByOne(n, q, max, j).commit
  }

  ghost predicate NoException(n: Node, q: seq<InboundEvent>, max: nat, leaders: map<nat, seq<Entry>>, upto: nat)
    requires upto <= |Parts(q, max)|
  {
    forall j :: 0 <= j < upto ==> !Exceptional(OneByOne(n, q, max, j), Parts(q, max)[j], leaders)
  }

  lemma SameNode(n: Node, m: Node)
    requires Beside(n, m) && n.commit == m.commit
    ensures n == m
  {
  }

  lemma {:induction false} InStepExactly(n: Node, q: seq<InboundEvent>, max: nat, leaders: map<nat, seq<Entry>>, upto: nat)
    requires Matching(n, leaders) && FromLeaders(q, leaders) && upto <= |Parts(q, max)| == |Fuse(q, max)|
    ensures InStep(n, q, max, upto) <==> NoException(n, q, max, leaders, upto)
    decreases upto
  {
    hide Matching, FromLeaders, Fuse, Parts, Legal, Take, OneByOne, Fused, TakeAll, Exceptional, Beside;
    if upto == 0 {
      NothingTaken(n, q, max);
    } else {
      var j := upto - 1;
      InStepExactly(n, q, max, leaders, j);
      if InStep(n, q, max, j) {
        var part, s := Parts(q, max)[j], OneByOne(n, q, max, j);
        FusedBeside(n, q, max, leaders, j);
        SameNode(Fused(n, q, max, j), s);
        PartStep(n, q, max, leaders, j);
        FusedPart(s, part, max, leaders);
      }
    }
  }

  lemma ConcatAll(q: seq<InboundEvent>, max: nat)
    ensures Concat(Parts(q, max)) == q && |Fuse(q, max)| == |Parts(q, max)|
  {
    FuseMaximal(q, max);
  }

  /**
   * The fused queue under this code base's receiver: the node ends with the same log and term as
   * event by event; the commit index is the same after every handled event exactly if no fused part
   * meets the exception of merging at the node it finds; then the node ends in the same state.
   */
  lemma FusedQueueHere(n: Node, q: seq<InboundEvent>, max: nat, leaders: map<nat, seq<Entry>>)
    requires Matching(n, leaders) && FromLeaders(q, leaders)
    ensures |Fuse(q, max)| == |Parts(q, max)|
    ensures Beside(TakeAll(n, Fuse(q, max)), TakeAll(n, q))
    ensures InStep(n, q, max, |Parts(q, max)|) <==> NoException(n, q, max, leaders, |Parts(q, max)|)
    ensures NoException(n, q, max, leaders, |Parts(q, max)|) ==> TakeAll(n, Fuse(q, max)) == TakeAll(n, q)
  {
    hide Matching, FromLeaders, Fuse, Parts, TakeAll, Exceptional;
    var k := |Parts(q, max)|;
    ConcatAll(q, max);
    FusedBeside(n, q, max, leaders, k);
    assert Parts(q, max)[..k] == Parts(q, max) && Fuse(q, max)[..k] == Fuse(q, max);
    InStepExactly(n, q, max, leaders, k);
    if NoException(n, q, max, leaders, k) { SameNode(Fused(n, q, max, k), OneByOne(n, q, max, k)); }
  }

  /** The conflicting entry replaces the tail; only a commit index below 3 follows the shorter log. */
  lemma ConflictTaken(e: Entry, x: Entry, y: Entry, commit: nat)
    requires x.term != y.term && e.term == 1
    ensures RepoReceive(Node(2, [e, x, x], commit), Request(2, 1, 1, [y], 3)) == Node(2, [e, y], if commit < 3 then 2 else commit)
  {
    assert Agreeing([e, x, x], 1, [y]) == 0;
    assert [e, x, x][..1] + [y][0..] == [e, y];
  }

  lemma NextTaken(e: Entry, y: Entry, commit: nat)
    requires y.term == 2
    ensures RepoReceive(Node(2, [e, y], commit), Request(2, 2, 2, [y], 3)) == Node(2, [e, y, y], if commit < 3 then 3 else commit)
  {
    assert Agreeing([e, y], 2, [y]) == 0;
    assert [e, y][..2] + [y][0..] == [e, y, y];
  }

  lemma HeartbeatTaken(e: Entry, x: Entry)
    requires e.term == 1
    ensures RepoReceive(Node(2, [e, x, x], 1), Request(2, 1, 1, [], 3)) == Node(2, [e, x, x], 3)
  {
  }

  lemma CarvedRow(e: Entry, y: Entry)
    requires e.term == 1 && y.term == 2
    ensures Carved(Request(2, 1, 1, [], 3), [e, y, y]) && Carved(Request(2, 1, 1, [y], 3), [e, y, y])
    ensures Carved(Request(2, 2, 2, [y], 3), [e, y, y])
  {
    var l := [e, y, y];
    assert l[1..1] == [] && l[1..2] == [y] && l[2..3] == [y];
  }

  lemma OneMatches(e: Entry, x: Entry, y: Entry)
    requires x.term != y.term
    ensures LogMatching([e, x, x], [e, y, y])
  {
    assert [e, x, x][..1] == [e, y, y][..1] == [e];
  }

  /** A commit index that fell behind can catch up with a later request, so only every step tells. */
  lemma CommitCatchesUp() returns (n: Node, a: Request, b: Request, c: Request, l: seq<Entry>)
    ensures LogMatching(n.log, l) && Sent([a, b, c], l)
    ensures var one, fused := RepoReceive(RepoReceive(n, a), b), RepoReceive(n, Merge(a, b));
      one.commit != fused.commit && RepoReceive(one, c).commit == RepoReceive(fused, c).commit
  {
    hide RepoReceive, LogMatching, Carved;
    var e, x, y := Entry(1, Noop), Entry(1, Config(1)), Entry(2, Config(2));
    l := [e, y, y];
    n := Node(2, [e, x, x], 1);
    a, b, c := Request(2, 1, 1, [], 3), Request(2, 1, 1, [y], 3), Request(2, 2, 2, [y], 3);
    OneMatches(e, x, y);
    CarvedRow(e, y);
    assert Merge(a, b) == b;
    HeartbeatTaken(e, x);
    ConflictTaken(e, x, y, 1);
    ConflictTaken(e, x, y, 3);
    NextTaken(e, y, 2);
    NextTaken(e, y, 3);
  }
}
