/** The leader's view of its peers: next index, match index and trust, under pipelined answers. */
module ReplicationProgress {
  import opened Types

  datatype Trust = Probe | Replicate | Snapshot

  /** One peer; an unknown peer reads as `Peer(1, 0, Probe)`. */
  datatype Peer = Peer(next: nat, match_: nat, trust: Trust)

  // ---- One peer --------------------------------------------------------------------------------------

  /** `update_next_index`: never below what is confirmed. */
  function SetNext(p: Peer, next: nat): Peer { p.(next := Max(next, p.match_ + 1)) }

  /** `update_match_index`: only forward. */
  function RaiseMatch(p: Peer, m: nat): Peer { p.(match_ := Max(p.match_, m)) }

  datatype Event =
    | Acked(index: nat)                                  // success up to `index`
    | Rejected(hint: nat)                                // conflict, with the index to retry from
    | Sent(effective: nat, count: nat)                   // a request dispatched from index `effective`
    | StreamLost
    | SnapshotStarted
    | SnapshotFinished(success: bool, boundary: Option<nat>, sameTerm: bool, worker: bool)

  /** `update_peer_index` on success: the next index is computed before the match index is raised. */
  function OnAck(p: Peer, index: nat): Peer
  {
    RaiseMatch(SetNext(p, Max(index + 1, p.next)).(trust := Replicate), index)
  }

  function OnReject(p: Peer, hint: nat): Peer { SetNext(p, Max(hint, 1)).(trust := Probe) }

  /** Only a trusted peer is advanced speculatively; a peer with a snapshot in flight is skipped. */
  function OnSent(p: Peer, effective: nat, count: nat): Peer
  {
    match p.trust
    case Snapshot => p
    case Replicate => SetNext(p, effective + count)
    case Probe => SetNext(p, effective)
  }

  function OnStreamLost(p: Peer): Peer { if p.trust == Snapshot then p else SetNext(p, p.match_ + 1).(trust := Probe) }

  /** `SnapshotPushCompleted` with its guards; the boundary goes through the same initialisation as a new peer. */
  function OnSnapshot(p: Peer, success: bool, boundary: Option<nat>, sameTerm: bool, worker: bool): Peer
  {
    if !sameTerm || p.trust != Snapshot then p else
    var p1 := if success && boundary.Some? then RaiseMatch(SetNext(p, boundary.value + 1), 0) else p;
    if worker then p1.(trust := Probe) else p1
  }

  function Step(p: Peer, e: Event): Peer
  {
    match e
    case Acked(index) => OnAck(p, index)
    case Rejected(hint) => OnReject(p, hint)
    case Sent(effective, count) => OnSent(p, effective, count)
    case StreamLost => OnStreamLost(p)
    case SnapshotStarted => p.(trust := Snapshot)
    case SnapshotFinished(success, boundary, sameTerm, worker) => OnSnapshot(p, success, boundary, sameTerm, worker)
  }

  // ---- The window ---------------------------------------------------------------------------------------

  /** match < next <= last log index + 1 */
  predicate Window(p: Peer, last: nat) { p.match_ < p.next <= last + 1 }

  /** What an event says stays inside the leader's log. */
  predicate Inside(e: Event, last: nat)
  {
    match e
    case Acked(index) => index <= last
    case Rejected(hint) => hint <= last + 1
    case Sent(effective, count) => effective + count <= last + 1
    case SnapshotFinished(_, boundary, _, _) => boundary.Some? ==> boundary.value <= last
    case _ => true
  }

  /** For an event that uses its index, staying in the window means exactly that the index is inside the log. */
  lemma WindowStep(p: Peer, e: Event, last: nat)
    requires Window(p, last)
    ensures Inside(e, last) ==> Window(Step(p, e), last)
    ensures e.Acked? || e.Rejected? || (e.Sent? && p.trust == Replicate) ==> (Window(Step(p, e), last) <==> Inside(e, last))
    ensures p.match_ <= Step(p, e).match_
  {
  }

  /** An acknowledgement of index 7 by a follower with a longer log, to a leader whose log ends at 4. */
  lemma AckBeyondLog()
    ensures var p := Peer(3, 1, Replicate); Window(p, 4) && !Window(Step(p, Acked(7)), 4)
  {
  }

  /** A run: events interleaved with a log that only grows. */
  datatype Action = Grow(n: nat) | Peer_(e: Event)

  datatype View = View(peer: Peer, last: nat)

  function Act(v: View, a: Action): View
  {
    match a
    case Grow(n) => v.(last := v.last + n)
    case Peer_(e) => v.(peer := Step(v.peer, e))
  }

  function Run(v: View, as_: seq<Action>): View
  {
    if as_ == [] then v else Act(Run(v, as_[..|as_| - 1]), as_[|as_| - 1])
  }

  ghost predicate AllInside(v: View, as_: seq<Action>)
  {
    forall k :: 0 <= k < |as_| && as_[k].Peer_? ==> Inside(as_[k].e, Run(v, as_[..k]).last)
  }

  /** In every run the window is kept and the match index never decreases. */
  lemma {:induction false} WindowKept(v: View, as_: seq<Action>, i: nat, j: nat)
    requires Window(v.peer, v.last) && AllInside(v, as_) && i <= j <= |as_|
    ensures Window(Run(v, as_[..j]).peer, Run(v, as_[..j]).last)
    ensures Run(v, as_[..i]).peer.match_ <= Run(v, as_[..j]).peer.match_
    decreases j
  {
    hide Step, Inside;
    if j > 0 {
      WindowKept(v, as_, if i < j then i else j - 1, j - 1);
      assert as_[..j][..j - 1] == as_[..j - 1];
      var u := Run(v, as_[..j - 1]);
      if as_[j - 1].Peer_? { WindowStep(u.peer, as_[j - 1].e, u.last); }
    }
  }

  /** A finished snapshot sets the next index behind the boundary or behind what is confirmed. */
  lemma SnapshotResumes(p: Peer, boundary: nat, worker: bool)
    requires p.trust == Snapshot
    ensures var q := Step(p, SnapshotFinished(true, Some(boundary), true, worker));
      q.next == Max(boundary, p.match_) + 1 && q.match_ == p.match_ && (q.trust == Probe <==> worker)
  {
  }

  /** A late completion changes nothing: another term, or a peer that has moved on. */
  lemma LateSnapshotIgnored(p: Peer, e: Event)
    requires e.SnapshotFinished? && (!e.sameTerm || p.trust != Snapshot)
    ensures Step(p, e) == p
  {
  }

  // ---- Conflicts ---------------------------------------------------------------------------------------------

  /** A conflict moves the next index to the hint, back or forth, but never onto what is confirmed. */
  lemma ConflictMoves(p: Peer, hint: nat)
    ensures Step(p, Rejected(hint)) == Peer(Max(Max(hint, 1), p.match_ + 1), p.match_, Probe)
    ensures p.match_ < hint < p.next ==> Step(p, Rejected(hint)).next == hint < p.next
  {
  }

  /** While probing, a request that starts at the next index does not move it. */
  lemma ProbeHolds(p: Peer, count: nat)
    requires p.trust == Probe && p.match_ < p.next
    ensures Step(p, Sent(p.next, count)) == p
  {
  }

  /** A rejected request for each hint, each sent from where the conflict before it pointed. */
  function Probes(p: Peer, hints: seq<nat>): Peer
  {
    if hints == [] then p else
    var q := Probes(p, hints[..|hints| - 1]);
    Step(Step(q, Sent(q.next, 0)), Rejected(hints[|hints| - 1]))
  }

  predicate Falling(from: nat, hints: seq<nat>)
  {
    (hints != [] ==> hints[0] < from) && forall i :: 0 < i < |hints| ==> hints[i] < hints[i - 1]
  }

  /**
   * Conflicts whose hints fall lead back to whatever index above the match index they name, in no more
   * rounds than there are indexes between; what is confirmed stays confirmed.
   */
  lemma {:induction false} ConflictsReach(p: Peer, hints: seq<nat>)
    requires hints != [] && Falling(p.next, hints) && p.match_ < hints[|hints| - 1]
    ensures Probes(p, hints) == Peer(hints[|hints| - 1], p.match_, Probe)
    ensures |hints| <= p.next - hints[|hints| - 1]
    decreases |hints|
  {
    var n := |hints| - 1;
    if n > 0 {
      assert hints[..n][n - 1] == hints[n - 1] && hints[n] < hints[n - 1];
      ConflictsReach(p, hints[..n]);
    } else {
      assert hints[..0] == [];
    }
  }

  /** Speculation: only a trusted peer is advanced by what was sent; a lost stream falls back to what is confirmed. */
  lemma SpeculationMoves(p: Peer, effective: nat, count: nat)
    ensures var q := Step(p, Sent(effective, count));
      && q.match_ == p.match_ && q.trust == p.trust
      && q.next == (if p.trust == Snapshot then p.next
                    else Max(p.match_ + 1, effective + if p.trust == Replicate then count else 0))
    ensures Step(p, StreamLost) == if p.trust == Snapshot then p else Peer(p.match_ + 1, p.match_, Probe)
    ensures Step(p, SnapshotStarted) == p.(trust := Snapshot)
  {
  }

  /** A snapshot that failed or has no boundary only puts the peer back to probing, if it has a worker. */
  lemma SnapshotFails(p: Peer, success: bool, boundary: Option<nat>, worker: bool)
    requires p.trust == Snapshot && (!success || boundary.None?)
    ensures Step(p, SnapshotFinished(success, boundary, true, worker)) == if worker then p.(trust := Probe) else p
  {
  }

  // ---- Answers in any order ---------------------------------------------------------------------------------

  function Acks(p: Peer, xs: seq<nat>): Peer
  {
    if xs == [] then p else OnAck(Acks(p, xs[..|xs| - 1]), xs[|xs| - 1])
  }

  function Highest(xs: seq<nat>): nat { if xs == [] then 0 else Max(Highest(xs[..|xs| - 1]), xs[|xs| - 1]) }

  /** Only the highest acknowledged index matters. */
  lemma {:induction false} AcksClosed(p: Peer, xs: seq<nat>)
    requires p.match_ < p.next && xs != []
    ensures Acks(p, xs) == Peer(Max(p.next, Highest(xs) + 1), Max(p.match_, Highest(xs)), Replicate)
  {
    if |xs| > 1 { AcksClosed(p, xs[..|xs| - 1]); }
  }

  lemma {:induction false} HighestAtLeast(xs: seq<nat>, i: nat)
    requires i < |xs|
    ensures xs[i] <= Highest(xs)
    decreases |xs|
  {
    if i < |xs| - 1 { HighestAtLeast(xs[..|xs| - 1], i); }
  }

  lemma {:induction false} HighestOccurs(xs: seq<nat>) returns (i: nat)
    requires xs != []
    ensures i < |xs| && Highest(xs) == xs[i]
    decreases |xs|
  {
    i := |xs| - 1;
    if |xs| > 1 && xs[i] < Highest(xs[..i]) { i := HighestOccurs(xs[..i]); }
  }

  lemma HighestBelow(xs: seq<nat>, ys: seq<nat>)
    requires multiset(xs) == multiset(ys) && xs != []
    ensures ys != [] && Highest(xs) <= Highest(ys)
  {
    hide Highest;
    var i := HighestOccurs(xs);
    assert xs[i] in multiset(ys);
    var j :| 0 <= j < |ys| && ys[j] == xs[i];
    HighestAtLeast(ys, j);
  }

  /** Any two orders of the same acknowledgements end in the same next index, match index and trust. */
  lemma AcksInAnyOrder(p: Peer, xs: seq<nat>, ys: seq<nat>)
    requires p.match_ < p.next && multiset(xs) == multiset(ys)
    ensures Acks(p, xs) == Acks(p, ys)
  {
    if xs == [] {
      assert |ys| == |multiset(ys)| == |multiset(xs)| == 0;
    } else {
      HighestBelow(xs, ys);
      HighestBelow(ys, xs);
      AcksClosed(p, xs);
      AcksClosed(p, ys);
    }
  }

  // ---- The maps the leader keeps -----------------------------------------------------------------------------

  class Progress {
    var nextIndex: map<nat, nat>
    var matchIndex: map<nat, nat>
    var trust: map<nat, Trust>

    function NextOf(id: nat): nat reads `nextIndex { if id in nextIndex then nextIndex[id] else 1 }

    function MatchOf(id: nat): nat reads `matchIndex { if id in matchIndex then matchIndex[id] else 0 }

    function TrustOf(id: nat): Trust reads `trust { if id in trust then trust[id] else Probe }

    function PeerOf(id: nat): Peer
      reads this
    {
      Peer(NextOf(id), MatchOf(id), TrustOf(id))
    }

    constructor ()
      ensures forall id :: PeerOf(id) == Peer(1, 0, Probe)
    {
      nextIndex, matchIndex, trust := map[], map[], map[];
    }

    method UpdateNextIndex(id: nat, next: nat)
      modifies `nextIndex
      ensures PeerOf(id) == SetNext(old(PeerOf(id)), next)
      ensures forall o :: o != id ==> PeerOf(o) == old(PeerOf(o))
    {
      var floor := MatchOf(id) + 1;
      nextIndex := nextIndex[id := if next < floor then floor else next];
    }

    /** Zero is never stored, so a peer that has confirmed nothing stays out of the map. */
    method UpdateMatchIndex(id: nat, m: nat)
      modifies `matchIndex
      ensures PeerOf(id) == RaiseMatch(old(PeerOf(id)), m)
      ensures forall o :: o != id ==> PeerOf(o) == old(PeerOf(o))
      ensures id in matchIndex <==> id in old(matchIndex) || m > 0
    {
      if m > MatchOf(id) { matchIndex := matchIndex[id := m]; }
    }

    /** Every listed peer starts behind `last`; one that is listed twice is not moved again. */
    method InitPeers(last: nat, ids: seq<nat>)
      modifies `nextIndex, `matchIndex
      ensures forall id :: PeerOf(id) == if id in ids then SetNext(old(PeerOf(id)), last + 1) else old(PeerOf(id))
    {
      var i := 0;
      while i < |ids|
        invariant i <= |ids|
        invariant forall id :: PeerOf(id) == if id in ids[..i] then SetNext(old(PeerOf(id)), last + 1) else old(PeerOf(id))
      {
        assert ids[..i + 1] == ids[..i] + [ids[i]];
        UpdateNextIndex(ids[i], last + 1);
        UpdateMatchIndex(ids[i], 0);
        i := i + 1;
      }
      assert ids[..i] == ids;
    }

    method Handle(id: nat, e: Event)
      modifies this
      ensures PeerOf(id) == Step(old(PeerOf(id)), e)
      ensures forall o :: o != id ==> PeerOf(o) == old(PeerOf(o))
    {
      match e
      case Acked(index) =>
        UpdateNextIndex(id, if index + 1 < NextOf(id) then NextOf(id) else index + 1);
        trust := trust[id := Replicate];
        UpdateMatchIndex(id, index);
      case Rejected(hint) =>
        UpdateNextIndex(id, if hint < 1 then 1 else hint);
        trust := trust[id := Probe];
      case Sent(effective, count) =>
        if TrustOf(id) != Snapshot {
          UpdateNextIndex(id, if TrustOf(id) == Replicate then effective + count else effective);
        }
      case StreamLost =>
        if TrustOf(id) != Snapshot {
          UpdateNextIndex(id, MatchOf(id) + 1);
          trust := trust[id := Probe];
        }
      case SnapshotStarted => trust := trust[id := Snapshot];
      case SnapshotFinished(success, boundary, sameTerm, worker) =>
        if sameTerm && TrustOf(id) == Snapshot {
          if success && boundary.Some? { InitPeers(boundary.value, [id]); }
          if worker { trust := trust[id := Probe]; }
        }
    }
  }
}
