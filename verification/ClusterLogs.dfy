/** Log Matching as an invariant of whole clusters, under either receiver. */
module ClusterLogs {
  import opened Types
  import opened Receiver
  import opened MergeRefinement
  import opened InboundBatching
  import opened BatchingTheorems
  import opened RepoBatching
  import opened TermIndex

  /** The nodes, what their term indexes were told, and as history the log of the leader of each term. */
  datatype World = World(nodes: map<nat, Node>, told: map<nat, seq<LogOp>>, leaders: map<nat, seq<Entry>>)

  datatype Step =
    | Elect(node: nat, term: nat)                  // a node whose log holds earlier terms only leads a new term
    | Propose(node: nat, term: nat, payload: Payload)
    | Receive(node: nat, req: Request, paper: bool) // by the rules of the paper or of this code base

  predicate Enabled(w: World, s: Step)
  {
    match s
    case Elect(n, t) => n in w.nodes && 0 < t && t !in w.leaders && forall i :: 0 <= i < |w.nodes[n].log| ==> w.nodes[n].log[i].term < t
    case Propose(n, t, _) => n in w.nodes && n in w.told && t in w.leaders && w.nodes[n].log == w.leaders[t]
    case Receive(n, r, _) => n in w.nodes && n in w.told && r.term in w.leaders && Carved(r, w.leaders[r.term])
  }

  /** What a receiver tells its term index: the entries it stores, behind those that agree or after a reset. */
  function Told(n: Node, r: Request, paper: bool): seq<LogOp>
  {
    if !Accepts(n, r) || r.entries == [] then []
    else if !paper && r.prevIndex == 0 then [Reset] + Stores(1, r.entries)
    else var k := Agreeing(n.log, r.prevIndex, r.entries); Stores(r.prevIndex + k + 1, r.entries[k..])
  }

  function Next(w: World, s: Step): World
    requires Enabled(w, s)
  {
    match s
    case Elect(n, t) => w.(leaders := w.leaders[t := w.nodes[n].log])
    case Propose(n, t, p) =>
      var log := w.leaders[t] + [Entry(t, p)];
      World(w.nodes[n := w.nodes[n].(log := log)], w.told[n := w.told[n] + [Store(|log|, t)]], w.leaders[t := log])
    case Receive(n, r, paper) =>
      w.(nodes := w.nodes[n := if paper then PaperReceive(w.nodes[n], r) else RepoReceive(w.nodes[n], r)],
         told := w.told[n := w.told[n] + Told(w.nodes[n], r, paper)])
  }

  ghost predicate Start(w: World)
  {
    w.leaders == map[] && forall n :: n in w.nodes ==> w.nodes[n].log == [] && n in w.told && w.told[n] == []
  }

  ghost predicate Run(ws: seq<World>, ss: seq<Step>)
  {
    && |ws| == |ss| + 1 && Start(ws[0])
    && forall i :: 0 <= i < |ss| ==> Enabled(ws[i], ss[i]) && ws[i + 1] == Next(ws[i], ss[i])
  }

  // ---- Every log is a patchwork of leader logs -----------------------------------------------------------

  /** Up to an entry of term `t`, the log is the log of the leader of `t`. */
  predicate From(l: seq<Entry>, i: nat, leaders: map<nat, seq<Entry>>)
    requires i < |l|
  {
    var t := l[i].term;
    t in leaders && i < |leaders[t]| && l[..i + 1] == leaders[t][..i + 1]
  }

  ghost predicate Traced(l: seq<Entry>, leaders: map<nat, seq<Entry>>) { forall i :: 0 <= i < |l| ==> From(l, i, leaders) }

  ghost predicate Inv(w: World)
  {
    && (forall n :: n in w.nodes ==> Traced(w.nodes[n].log, w.leaders))
    && (forall t :: t in w.leaders ==> Traced(w.leaders[t], w.leaders))
  }

  lemma TracedMatching(a: seq<Entry>, b: seq<Entry>, leaders: map<nat, seq<Entry>>)
    requires Traced(a, leaders) && Traced(b, leaders)
    ensures LogMatching(a, b)
  {
    forall i | 0 <= i < |a| && i < |b| && a[i].term == b[i].term ensures a[..i + 1] == b[..i + 1] {
      assert From(a, i, leaders) && From(b, i, leaders);
    }
  }

  lemma TracedPrefix(l: seq<Entry>, leaders: map<nat, seq<Entry>>, m: nat)
    requires Traced(l, leaders) && m <= |l|
    ensures Traced(l[..m], leaders)
  {
    forall i | 0 <= i < m ensures From(l[..m], i, leaders) {
      assert From(l, i, leaders) && l[..m][..i + 1] == l[..i + 1];
    }
  }

  /** A leader log that is only extended keeps every trace; a new term adds to none. */
  lemma TracedGrows(l: seq<Entry>, leaders: map<nat, seq<Entry>>, t: nat, log: seq<Entry>)
    requires Traced(l, leaders) && (t in leaders ==> leaders[t] <= log)
    ensures Traced(l, leaders[t := log])
  {
    var grown := leaders[t := log];
    forall i | 0 <= i < |l| ensures From(l, i, grown) {
      assert From(l, i, leaders);
      if l[i].term == t { assert log[..i + 1] == leaders[t][..i + 1]; }
    }
  }

  lemma ReceivedTraced(w: World, n: nat, r: Request, paper: bool)
    requires Inv(w) && Enabled(w, Receive(n, r, paper))
    ensures Traced((if paper then PaperReceive(w.nodes[n], r) else RepoReceive(w.nodes[n], r)).log, w.leaders)
  {
    hide Traced, Carved, LogMatching, Common, PaperReceive, RepoReceive;
    var node, l := w.nodes[n], w.leaders[r.term];
    TracedMatching(node.log, l, w.leaders);
    PaperClosed(node, r, l);
    RepoClosed(node, r, l);
    CarvedEnd(r, l);
    TracedPrefix(l, w.leaders, End(r));
  }

  lemma CarvedEnd(r: Request, l: seq<Entry>)
    requires Carved(r, l)
    ensures End(r) <= |l|
  {
  }

  lemma ProposedTraced(l: seq<Entry>, leaders: map<nat, seq<Entry>>, t: nat, e: Entry)
    requires t in leaders && leaders[t] == l && Traced(l, leaders) && e.term == t
    ensures Traced(l + [e], leaders[t := l + [e]])
  {
    var log := l + [e];
    var grown := leaders[t := log];
    TracedGrows(l, leaders, t, log);
    forall i | 0 <= i < |log| ensures From(log, i, grown) {
      if i < |l| { assert From(l, i, grown) && log[..i + 1] == l[..i + 1]; }
    }
  }

  lemma NextInv(w: World, s: Step)
    requires Inv(w) && Enabled(w, s)
    ensures Inv(Next(w, s))
  {
    hide Traced, PaperReceive, RepoReceive, Carved;
    match s
    case Elect(n, t) =>
      var log := w.nodes[n].log;
      var grown := w.leaders[t := log];
      forall l | Traced(l, w.leaders) ensures Traced(l, grown) { TracedGrows(l, w.leaders, t, log); }
    case Propose(n, t, p) =>
      var log := w.leaders[t] + [Entry(t, p)];
      var grown := w.leaders[t := log];
      ProposedTraced(w.leaders[t], w.leaders, t, Entry(t, p));
      forall l | Traced(l, w.leaders) ensures Traced(l, grown) { TracedGrows(l, w.leaders, t, log); }
    case Receive(n, r, paper) => ReceivedTraced(w, n, r, paper);
  }

  lemma {:induction false} RunInv(ws: seq<World>, ss: seq<Step>, i: nat)
    requires Run(ws, ss) && i < |ws|
    ensures Inv(ws[i])
  {
    hide Next, Enabled;
    if i > 0 {
      RunInv(ws, ss, i - 1);
      NextInv(ws[i - 1], ss[i - 1]);
    }
  }

  /** Log Matching holds between any two nodes, and between any node and any leader, in every run. */
  lemma LogMatchingHolds(ws: seq<World>, ss: seq<Step>, i: nat, n: nat, m: nat)
    requires Run(ws, ss) && i < |ws| && n in ws[i].nodes && m in ws[i].nodes
    ensures LogMatching(ws[i].nodes[n].log, ws[i].nodes[m].log)
    ensures Matching(ws[i].nodes[n], ws[i].leaders)
  {
    hide Next, Enabled, Start, LogMatching, Traced;
    var w := ws[i];
    RunInv(ws, ss, i);
    TracedMatching(w.nodes[n].log, w.nodes[m].log, w.leaders);
    forall t | t in w.leaders ensures LogMatching(w.nodes[n].log, w.leaders[t]) {
      TracedMatching(w.nodes[n].log, w.leaders[t], w.leaders);
    }
    forall t, u | t in w.leaders && u in w.leaders ensures LogMatching(w.leaders[t], w.leaders[u]) {
      TracedMatching(w.leaders[t], w.leaders[u], w.leaders);
    }
  }

  /**
   * In every reachable cluster, a node that follows the receiver rules of the paper may handle its
   * inbound queue fused instead of event by event.
   */
  lemma FusingIsSafe(ws: seq<World>, ss: seq<Step>, i: nat, n: nat, q: seq<InboundEvent>, max: nat)
    requires Run(ws, ss) && i < |ws| && n in ws[i].nodes && FromLeaders(q, ws[i].leaders)
    ensures HandleAll(ws[i].nodes[n], Fuse(q, max)) == HandleAll(ws[i].nodes[n], q)
  {
    hide Next, Enabled, Start, Matching, FromLeaders, HandleAll, Fuse;
    LogMatchingHolds(ws, ss, i, n, n);
    FusedQueue(ws[i].nodes[n], q, max, ws[i].leaders);
  }

  /**
   * In every reachable cluster, a node with this code base's receiver gets the same log and term from
   * the fused queue, and the same commit index after every handled event exactly if no fused part
   * meets the exception of merging.
   */
  lemma FusingHere(ws: seq<World>, ss: seq<Step>, i: nat, n: nat, q: seq<InboundEvent>, max: nat)
    requires Run(ws, ss) && i < |ws| && n in ws[i].nodes && FromLeaders(q, ws[i].leaders)
    ensures var node, parts := ws[i].nodes[n], |Parts(q, max)|;
      && parts == |Fuse(q, max)| && Beside(TakeAll(node, Fuse(q, max)), TakeAll(node, q))
      && (InStep(node, q, max, parts) <==> NoException(node, q, max, ws[i].leaders, parts))
      && (NoException(node, q, max, ws[i].leaders, parts) ==> TakeAll(node, Fuse(q, max)) == TakeAll(node, q))
  {
    hide Next, Enabled, Start, Matching, FromLeaders, TakeAll, Fuse, Parts, InStep, NoException;
    LogMatchingHolds(ws, ss, i, n, n);
    FusedQueueHere(ws[i].nodes[n], q, max, ws[i].leaders);
  }

  // ---- Terms never fall along a log ------------------------------------------------------------------------

  predicate UpTo(l: seq<Entry>, t: nat) { forall i :: 0 <= i < |l| ==> l[i].term <= t }

  /** Along every log the terms never fall, and a leader's log has none above the leader's own. */
  ghost predicate Ordered(w: World)
  {
    && (forall n :: n in w.nodes ==> Rising(w.nodes[n].log))
    && (forall t :: t in w.leaders ==> Rising(w.leaders[t]) && UpTo(w.leaders[t], t))
  }

  lemma ReceivedRises(w: World, n: nat, r: Request, paper: bool)
    requires Inv(w) && Ordered(w) && Enabled(w, Receive(n, r, paper))
    ensures Rising((if paper then PaperReceive(w.nodes[n], r) else RepoReceive(w.nodes[n], r)).log)
  {
    hide Traced, Carved, LogMatching, Common, PaperReceive, RepoReceive, UpTo;
    var node, l := w.nodes[n], w.leaders[r.term];
    TracedMatching(node.log, l, w.leaders);
    PaperClosed(node, r, l);
    RepoClosed(node, r, l);
    CarvedEnd(r, l);
    assert Rising(l[..End(r)]);
  }

  lemma NextOrdered(w: World, s: Step)
    requires Inv(w) && Ordered(w) && Enabled(w, s)
    ensures Ordered(Next(w, s))
  {
    hide Inv, PaperReceive, RepoReceive, Carved;
    match s
    case Elect(n, t) =>
    case Propose(n, t, p) => ProposedRises(w.leaders[t], t, Entry(t, p));
    case Receive(n, r, paper) => ReceivedRises(w, n, r, paper);
  }

  lemma ProposedRises(l: seq<Entry>, t: nat, e: Entry)
    requires Rising(l) && UpTo(l, t) && e.term == t
    ensures Rising(l + [e]) && UpTo(l + [e], t)
  {
  }

  lemma {:induction false} RunOrdered(ws: seq<World>, ss: seq<Step>, i: nat)
    requires Run(ws, ss) && i < |ws|
    ensures Ordered(ws[i])
  {
    hide Next, Enabled, Inv;
    if i > 0 {
      RunOrdered(ws, ss, i - 1);
      RunInv(ws, ss, i - 1);
      NextOrdered(ws[i - 1], ss[i - 1]);
    }
  }

  // ---- The term index of every node --------------------------------------------------------------------------

  predicate AboveZero(l: seq<Entry>) { forall i :: 0 <= i < |l| ==> 0 < l[i].term }

  /** Every term index was told what makes up its node's log. */
  ghost predicate Followed(w: World)
  {
    && (forall n :: n in w.nodes ==> n in w.told && Positive(w.told[n]) && LogAfter(w.told[n]) == Terms(w.nodes[n].log))
    && (forall n :: n in w.nodes ==> AboveZero(w.nodes[n].log))
    && (forall t :: t in w.leaders ==> 0 < t && AboveZero(w.leaders[t]))
  }

  lemma PositivePlus(a: seq<LogOp>, b: seq<LogOp>)
    requires Positive(a) && Positive(b)
    ensures Positive(a + b)
  {
  }

  lemma ResetLog(ops: seq<LogOp>, es: seq<Entry>)
    ensures LogAfter(ops + ([Reset] + Stores(1, es))) == Terms(es)
  {
    hide LogAfter, Terms, Stores, ApplyOp, Replaced;
    LogAfterOne(ops, Reset);
    ResetTerms(LogAfter(ops), es);
    StoresLog(ops + [Reset], [], 0, es);
    assert ops + ([Reset] + Stores(1, es)) == ops + [Reset] + Stores(1, es);
  }

  lemma ResetTerms(l: map<nat, nat>, es: seq<Entry>)
    ensures ApplyOp(l, Reset) == Terms([]) && Replaced([], 0, es) == es
  {
  }

  /** What is told makes up what is stored, under either receiver. */
  lemma ToldLog(n: Node, ops: seq<LogOp>, r: Request, paper: bool)
    requires LogAfter(ops) == Terms(n.log)
    ensures LogAfter(ops + Told(n, r, paper)) == Terms((if paper then PaperReceive(n, r) else RepoReceive(n, r)).log)
  {
    hide LogAfter, Terms, Stores, Agreeing, TermAt;
    if !Accepts(n, r) || r.entries == [] {
      assert ops + [] == ops;
      if Accepts(n, r) { NothingNew(n.log, r.prevIndex); }
    } else if !paper && r.prevIndex == 0 {
      ResetLog(ops, r.entries);
    } else {
      var k := Agreeing(n.log, r.prevIndex, r.entries);
      AgreeingWithin(n.log, r.prevIndex, r.entries);
      StoresLog(ops, n.log, r.prevIndex + k, r.entries[k..]);
    }
  }

  lemma NothingNew(log: seq<Entry>, prev: nat)
    requires prev <= |log|
    ensures PaperLog(log, prev, []) == log == RepoLog(log, prev, [])
  {
  }

  lemma ToldPositive(n: Node, r: Request, paper: bool)
    requires AboveZero(r.entries)
    ensures Positive(Told(n, r, paper))
  {
  }

  lemma ReceivedAboveZero(w: World, n: nat, r: Request, paper: bool)
    requires Inv(w) && Followed(w) && Enabled(w, Receive(n, r, paper))
    ensures AboveZero((if paper then PaperReceive(w.nodes[n], r) else RepoReceive(w.nodes[n], r)).log)
    ensures AboveZero(r.entries)
  {
    hide Traced, LogMatching, Common, PaperReceive, RepoReceive, LogAfter, Terms, Positive;
    var node, l := w.nodes[n], w.leaders[r.term];
    TracedMatching(node.log, l, w.leaders);
    PaperClosed(node, r, l);
    RepoClosed(node, r, l);
    CarvedEnd(r, l);
    assert AboveZero(l[..End(r)]);
  }

  lemma ReceivedFollowed(w: World, n: nat, r: Request, paper: bool)
    requires Inv(w) && Followed(w) && Enabled(w, Receive(n, r, paper))
    ensures Followed(Next(w, Receive(n, r, paper)))
  {
    ReceivedAboveZero(w, n, r, paper);
    ToldLog(w.nodes[n], w.told[n], r, paper);
    ToldPositive(w.nodes[n], r, paper);
    PositivePlus(w.told[n], Told(w.nodes[n], r, paper));
    hide Inv, Carved, PaperReceive, RepoReceive, LogAfter, Terms, Positive, AboveZero, Told;
  }

  lemma ProposedFollowed(w: World, n: nat, t: nat, p: Payload)
    requires Followed(w) && Enabled(w, Propose(n, t, p))
    ensures Followed(Next(w, Propose(n, t, p)))
  {
    hide LogAfter, Terms, ApplyOp;
    var log := w.leaders[t];
    LogAfterOne(w.told[n], Store(|log| + 1, t));
    OneStored(log, |log|, Entry(t, p));
    assert log[..|log|] == log;
    PositivePlus(w.told[n], [Store(|log| + 1, t)]);
  }

  lemma NextFollowed(w: World, s: Step)
    requires Inv(w) && Followed(w) && Enabled(w, s)
    ensures Followed(Next(w, s))
  {
    hide Inv, PaperReceive, RepoReceive, Carved, LogAfter, Terms, Positive, Told;
    match s
    case Elect(n, t) =>
    case Propose(n, t, p) => ProposedFollowed(w, n, t, p);
    case Receive(n, r, paper) => ReceivedFollowed(w, n, r, paper);
  }

  lemma StartFollowed(w: World)
    requires Start(w)
    ensures Followed(w)
  {
    assert Terms([]) == map[];
  }

  lemma {:induction false} RunFollowed(ws: seq<World>, ss: seq<Step>, i: nat)
    requires Run(ws, ss) && i < |ws|
    ensures Followed(ws[i])
  {
    hide Next, Enabled, Inv, Followed, Start;
    if i == 0 {
      StartFollowed(ws[0]);
    } else {
      RunFollowed(ws, ss, i - 1);
      RunInv(ws, ss, i - 1);
      NextFollowed(ws[i - 1], ss[i - 1]);
    }
  }

  /**
   * So in every reachable cluster the fast path, with the open segment of the node's own term index,
   * stores what the paper asks for, for every request of every leader.
   */
  lemma FastPathSafe(ws: seq<World>, ss: seq<Step>, i: nat, n: nat, r: Request)
    requires Run(ws, ss) && i < |ws| && n in ws[i].nodes && n in ws[i].told
    requires r.term in ws[i].leaders && Carved(r, ws[i].leaders[r.term]) && r.prevIndex <= |ws[i].nodes[n].log|
    ensures var log, open := ws[i].nodes[n].log, IndexAfter(ws[i].told[n]).open;
      FilterAndAppend(log, open.start, open.term, r.prevIndex, r.entries) == PaperLog(log, r.prevIndex, r.entries)
  {
    hide Run, FilterAndAppend, PaperLog, OpenSegment, UpTo, IndexAfter, LogAfter, Terms, Positive;
    RunOrdered(ws, ss, i);
    RunFollowed(ws, ss, i);
    assert Rising(r.entries);
    OpenSegmentOf(ws[i].told[n], ws[i].nodes[n].log);
    var open := IndexAfter(ws[i].told[n]).open;
    RisingRefines(ws[i].nodes[n].log, open.start, open.term, r.prevIndex, r.entries);
  }
}
