/** Merging contiguous AppendEntries requests against handling them one by one. */
module MergeRefinement {
  import opened Types
  import opened Receiver

  // ---- Merging ----------------------------------------------------------------------------------

  /** `b` continues where `a` ends, in the same term. */
  predicate Joins(a: Request, b: Request) { b.term == a.term && b.prevIndex == a.prevIndex + |a.entries| }

  function Merge(a: Request, b: Request): Request
  {
    a.(entries := a.entries + b.entries, leaderCommit := Max(a.leaderCommit, b.leaderCommit))
  }

  function MergeAll(rs: seq<Request>): Request
    requires rs != []
  {
    if |rs| == 1 then rs[0] else Merge(MergeAll(rs[..|rs| - 1]), rs[|rs| - 1])
  }

  predicate Chain(rs: seq<Request>) { forall i :: 0 < i < |rs| ==> Joins(rs[i - 1], rs[i]) }

  /** Requests cut out of the leader log `l` one after the other, while its commit index only rises. */
  ghost predicate Sent(rs: seq<Request>, l: seq<Entry>)
  {
    && rs != [] && Chain(rs)
    && (forall i :: 0 <= i < |rs| ==> Carved(rs[i], l))
    && (forall i :: 0 < i < |rs| ==> rs[i - 1].leaderCommit <= rs[i].leaderCommit)
  }

  function End(r: Request): nat { r.prevIndex + |r.entries| }

  lemma CarvedMerge(a: Request, b: Request, l: seq<Entry>)
    requires Carved(a, l) && Carved(b, l) && Joins(a, b)
    ensures Carved(Merge(a, b), l)
  {
    assert l[a.prevIndex..End(b)] == l[a.prevIndex..End(a)] + l[End(a)..End(b)];
  }

  lemma SentInit(rs: seq<Request>, l: seq<Entry>)
    requires Sent(rs, l) && |rs| > 1
    ensures Sent(rs[..|rs| - 1], l)
  {
  }

  lemma {:induction false} MergeAllFacts(rs: seq<Request>, l: seq<Entry>)
    requires Sent(rs, l)
    ensures var m, last := MergeAll(rs), rs[|rs| - 1];
      Carved(m, l) && m.term == rs[0].term == last.term && m.prevIndex == rs[0].prevIndex && m.prevTerm == rs[0].prevTerm
      && End(m) == End(last) && m.leaderCommit == last.leaderCommit
    decreases |rs|
  {
    if |rs| > 1 {
      var init, last := rs[..|rs| - 1], rs[|rs| - 1];
      SentInit(rs, l);
      MergeAllFacts(init, l);
      assert Joins(rs[|rs| - 2], last);
      CarvedMerge(MergeAll(init), last, l);
    }
  }

  /** The merged request carries the highest leader commit index and all entries, in order, even if a commit index falls. */
  lemma {:induction false} MergeCarries(rs: seq<Request>, i: nat)
    requires i < |rs|
    ensures rs[i].leaderCommit <= MergeAll(rs).leaderCommit
    ensures exists j :: 0 <= j < |rs| && MergeAll(rs).leaderCommit == rs[j].leaderCommit
    ensures MergeAll(rs).term == rs[0].term && MergeAll(rs).prevIndex == rs[0].prevIndex && MergeAll(rs).prevTerm == rs[0].prevTerm
    ensures MergeAll(rs).entries == AllEntries(rs)
    decreases |rs|
  {
    var n := |rs| - 1;
    if n > 0 {
      MergeCarries(rs[..n], if i < n then i else 0);
      var j :| 0 <= j < n && MergeAll(rs[..n]).leaderCommit == rs[..n][j].leaderCommit;
      assert rs[..n][j] == rs[j];
    } else {
      assert rs[..0] == [] && AllEntries(rs) == [] + rs[0].entries;
    }
  }

  function AllEntries(rs: seq<Request>): seq<Entry>
  {
    if rs == [] then [] else AllEntries(rs[..|rs| - 1]) + rs[|rs| - 1].entries
  }

  /** Either receiver ends in the larger of the two terms, and a refused request changes nothing else. */
  lemma ReceiverTerms(n: Node, r: Request)
    ensures PaperReceive(n, r).term == RepoReceive(n, r).term == Max(n.term, r.term)
    ensures !Accepts(n, r) ==> PaperReceive(n, r) == RepoReceive(n, r) == n.(term := Max(n.term, r.term))
    ensures Accepts(n, r)
            <==> n.term <= r.term && (if r.prevIndex == 0 then r.prevTerm == 0
                                      else r.prevIndex <= |n.log| && n.log[r.prevIndex - 1].term == r.prevTerm)
  {
  }

  // ---- The receiver of the paper --------------------------------------------------------------------

  lemma PaperClosed(n: Node, r: Request, l: seq<Entry>)
    requires LogMatching(n.log, l) && Carved(r, l)
    ensures PaperReceive(n, r)
            == if n.term <= r.term && r.prevIndex <= Common(n.log, l)
               then Node(r.term, if End(r) <= Common(n.log, l) then n.log else l[..End(r)], Follow(n.commit, r.leaderCommit, End(r)))
               else n.(term := Max(n.term, r.term))
  {
    hide LogMatching, Common, PaperLog;
    AcceptsClosed(n, r, l);
    if Accepts(n, r) { PaperLogClosed(n.log, l, r.prevIndex, End(r)); }
  }

  /** The receiver keeps Log Matching and never loses agreement with the leader. */
  lemma PaperKeepsMatching(n: Node, r: Request, l: seq<Entry>)
    requires LogMatching(n.log, l) && Carved(r, l)
    ensures var n' := PaperReceive(n, r);
      LogMatching(n'.log, l)
      && Common(n'.log, l) == if Accepts(n, r) then Max(Common(n.log, l), End(r)) else Common(n.log, l)
  {
    hide LogMatching, Common, PaperReceive, Accepts, TermAt;
    PaperClosed(n, r, l);
    AcceptsClosed(n, r, l);
    SelfMatching(l);
    PrefixMatching(l, l, End(r));
    CommonPrefix(l, End(r));
  }

  lemma PaperTwo(n: Node, a: Request, b: Request, l: seq<Entry>)
    requires LogMatching(n.log, l) && Carved(a, l) && Carved(b, l) && Joins(a, b) && a.leaderCommit <= b.leaderCommit
    ensures PaperReceive(PaperReceive(n, a), b) == PaperReceive(n, Merge(a, b))
    ensures Accepts(n, a) == Accepts(PaperReceive(n, a), b) == Accepts(n, Merge(a, b))
  {
    hide LogMatching, Common, PaperReceive, Accepts, TermAt;
    CarvedMerge(a, b, l);
    PaperClosed(n, a, l);
    PaperClosed(n, Merge(a, b), l);
    PaperKeepsMatching(n, a, l);
    PaperClosed(PaperReceive(n, a), b, l);
    AcceptsClosed(n, a, l);
    AcceptsClosed(PaperReceive(n, a), b, l);
    AcceptsClosed(n, Merge(a, b), l);
  }

  /** The requests handled one after the other. */
  function PaperRun(n: Node, rs: seq<Request>): Node
  {
    if rs == [] then n else PaperReceive(PaperRun(n, rs[..|rs| - 1]), rs[|rs| - 1])
  }

  /**
   * Merge refinement: under the receiver rules of the paper, handling the merged request gives the
   * same log, commit index and term as handling the originals one by one.
   */
  lemma {:induction false} MergedPaper(n: Node, rs: seq<Request>, l: seq<Entry>)
    requires LogMatching(n.log, l) && Sent(rs, l)
    ensures PaperReceive(n, MergeAll(rs)) == PaperRun(n, rs)
    decreases |rs|
  {
    hide LogMatching, Accepts, Carved, Joins;
    if |rs| == 1 {
      assert rs[..0] == [];
    } else {
      var init, last := rs[..|rs| - 1], rs[|rs| - 1];
      SentInit(rs, l);
      MergedPaper(n, init, l);
      MergeAllFacts(init, l);
      MergeJoins(rs, l);
      PaperTwo(n, MergeAll(init), last, l);
    }
  }

  /** Each original is accepted in its turn exactly if the merged request is. */
  lemma {:induction false} MergedVerdicts(n: Node, rs: seq<Request>, l: seq<Entry>, i: nat)
    requires LogMatching(n.log, l) && Sent(rs, l) && i < |rs|
    ensures Accepts(PaperRun(n, rs[..i]), rs[i]) == Accepts(n, MergeAll(rs))
    decreases |rs|
  {
    hide LogMatching, Accepts, Carved, Joins;
    var k := |rs| - 1;
    if k == 0 {
      assert rs[..0] == [];
    } else {
      var init := rs[..k];
      SentInit(rs, l);
      MergedPaper(n, init, l);
      MergeAllFacts(init, l);
      MergeJoins(rs, l);
      PaperTwo(n, MergeAll(init), rs[k], l);
      if i < k {
        MergedVerdicts(n, init, l, i);
        assert init[..i] == rs[..i];
      }
    }
  }

  lemma MergeJoins(rs: seq<Request>, l: seq<Entry>)
    requires Sent(rs, l) && |rs| > 1
    ensures Joins(MergeAll(rs[..|rs| - 1]), rs[|rs| - 1])
    ensures MergeAll(rs[..|rs| - 1]).leaderCommit <= rs[|rs| - 1].leaderCommit
  {
    SentInit(rs, l);
    MergeAllFacts(rs[..|rs| - 1], l);
    assert Joins(rs[|rs| - 2], rs[|rs| - 1]);
  }

  /** Everything a follower commits agrees with the leader. */
  lemma PaperCommitsVerified(n: Node, r: Request, l: seq<Entry>)
    requires LogMatching(n.log, l) && Carved(r, l) && n.commit <= Common(n.log, l)
    ensures PaperReceive(n, r).commit <= Common(PaperReceive(n, r).log, l)
  {
    hide LogMatching, Common, PaperReceive, Accepts, TermAt;
    PaperClosed(n, r, l);
    PaperKeepsMatching(n, r, l);
    AcceptsClosed(n, r, l);
  }

  // ---- The receiver of this code base -----------------------------------------------------------------

  /** The log after an accepted request that ends at `end`. */
  function RepoLogAfter(f: seq<Entry>, l: seq<Entry>, prev: nat, end: nat): seq<Entry>
    requires end <= |l|
  {
    if end == prev then f else if prev == 0 || Common(f, l) < end then l[..end] else f
  }

  lemma RepoClosed(n: Node, r: Request, l: seq<Entry>)
    requires LogMatching(n.log, l) && Carved(r, l)
    ensures RepoReceive(n, r)
            == if n.term <= r.term && r.prevIndex <= Common(n.log, l)
               then var log := RepoLogAfter(n.log, l, r.prevIndex, End(r)); Node(r.term, log, Follow(n.commit, r.leaderCommit, |log|))
               else n.(term := Max(n.term, r.term))
  {
    hide LogMatching, Common, RepoLog;
    AcceptsClosed(n, r, l);
    if Accepts(n, r) { RepoLogClosed(n.log, l, r.prevIndex, End(r)); }
  }

  lemma RepoKeepsMatching(n: Node, r: Request, l: seq<Entry>)
    requires LogMatching(n.log, l) && Carved(r, l)
    ensures var n' := RepoReceive(n, r);
      LogMatching(n'.log, l) && (Accepts(n, r) ==> End(r) <= Common(n'.log, l))
      && (!Accepts(n, r) ==> n'.log == n.log)
  {
    hide LogMatching, Common, RepoReceive, Accepts, TermAt;
    RepoClosed(n, r, l);
    AcceptsClosed(n, r, l);
    SelfMatching(l);
    PrefixMatching(l, l, End(r));
    CommonPrefix(l, End(r));
  }

  /** The index an accepting follower reports: its last entry if the request is empty, else the request's last. */
  function Acknowledged(n: Node, r: Request): nat { if r.entries == [] then |n.log| else End(r) }

  /** The reported index lies inside the agreement with the leader exactly if entries came along or no tail differs. */
  lemma AcknowledgedAgreement(n: Node, r: Request, l: seq<Entry>)
    requires LogMatching(n.log, l) && Carved(r, l) && Accepts(n, r)
    ensures Acknowledged(n, r) <= Common(RepoReceive(n, r).log, l) <==> r.entries != [] || |n.log| == Common(n.log, l)
  {
    hide LogMatching, Common, RepoReceive, Accepts, TermAt;
    RepoClosed(n, r, l);
    RepoKeepsMatching(n, r, l);
    AcceptsClosed(n, r, l);
  }

  /** A heartbeat acknowledged with an index at which the follower holds another entry than the leader. */
  lemma AcknowledgesUnverified() returns (n: Node, r: Request, l: seq<Entry>)
    ensures LogMatching(n.log, l) && Carved(r, l) && Accepts(n, r)
    ensures Acknowledged(n, r) > Common(RepoReceive(n, r).log, l)
  {
    var e1, e2, e3 := Entry(1, Noop), Entry(1, Command("a")), Entry(2, Command("b"));
    l := [e1, e3];
    n := Node(2, [e1, e2], 1);
    r := Request(2, 1, 1, [], 1);
    assert n.log[..1] == l[..1] == [e1];
    assert Common([e2], [e3]) == 0;
    assert n.log[1..] == [e2] && l[1..] == [e3];
  }

  /** Both receivers end in the same commit index exactly if the bound makes no difference. */
  lemma CommitRulesAgree(n: Node, r: Request, l: seq<Entry>)
    requires LogMatching(n.log, l) && Carved(r, l) && Accepts(n, r)
    ensures var f := RepoReceive(n, r).log;
      RepoReceive(n, r).commit == PaperReceive(n, r).commit
      <==> r.leaderCommit <= n.commit || r.leaderCommit <= End(r) || |f| == End(r)
  {
    hide LogMatching, Common;
    RepoKeepsMatching(n, r, l);
  }

  /** A heartbeat makes this code base commit an entry that the leader does not hold. */
  lemma CommitsUnverified() returns (n: Node, r: Request, l: seq<Entry>)
    ensures LogMatching(n.log, l) && Carved(r, l) && Accepts(n, r) && n.commit <= Common(n.log, l)
    ensures RepoReceive(n, r).commit > Common(RepoReceive(n, r).log, l)
  {
    var e1, e2, e3 := Entry(1, Noop), Entry(1, Command("a")), Entry(2, Command("b"));
    l := [e1, e3];
    n := Node(2, [e1, e2], 1);
    r := Request(2, 1, 1, [], 2);
    assert n.log[..1] == l[..1] == [e1];
    assert Common([e2], [e3]) == 0;
    assert n.log[1..] == [e2] && l[1..] == [e3];
  }

  /** How far the log agrees with the leader after an accepted request: a request from index 0 resets it. */
  function AgreedAfter(f: seq<Entry>, l: seq<Entry>, prev: nat, end: nat): nat
  {
    if prev == 0 && end > 0 then end else Max(Common(f, l), end)
  }

  lemma RepoAgreement(n: Node, r: Request, l: seq<Entry>)
    requires LogMatching(n.log, l) && Carved(r, l) && Accepts(n, r)
    ensures Common(RepoReceive(n, r).log, l) == AgreedAfter(n.log, l, r.prevIndex, End(r))
  {
    hide LogMatching, Common, RepoReceive, Accepts, TermAt;
    RepoClosed(n, r, l);
    AcceptsClosed(n, r, l);
    CommonPrefix(l, End(r));
  }

  /**
   * What this code base commits agrees with the leader exactly if a commit index that follows the
   * leader is bounded by the agreement, and one that stays is not cut off by a reset.
   */
  lemma RepoCommitsVerified(n: Node, r: Request, l: seq<Entry>)
    requires LogMatching(n.log, l) && Carved(r, l) && Accepts(n, r) && n.commit <= Common(n.log, l)
    ensures var agreed, length := AgreedAfter(n.log, l, r.prevIndex, End(r)), |RepoLogAfter(n.log, l, r.prevIndex, End(r))|;
      RepoReceive(n, r).commit <= Common(RepoReceive(n, r).log, l)
      <==> if r.leaderCommit > n.commit then r.leaderCommit <= agreed || length == agreed else n.commit <= agreed
  {
    hide LogMatching, Common, RepoReceive, Accepts, TermAt;
    RepoClosed(n, r, l);
    RepoAgreement(n, r, l);
    AcceptsClosed(n, r, l);
  }

  /** A late first request cuts the log off below the commit index. */
  lemma ResetCutsCommitted() returns (n: Node, r: Request, l: seq<Entry>)
    ensures LogMatching(n.log, l) && Carved(r, l) && Accepts(n, r) && n.commit <= Common(n.log, l)
    ensures RepoReceive(n, r).commit > |RepoReceive(n, r).log|
  {
    var e := Entry(1, Noop);
    l := [e, e];
    n := Node(1, l, 2);
    r := Request(1, 0, 0, [e], 1);
    SelfMatching(l);
    CommonPrefix(l, 2);
    assert l[..2] == l && l[0..1] == [e];
  }

  function RepoRun(n: Node, rs: seq<Request>): Node
  {
    if rs == [] then n else RepoReceive(RepoRun(n, rs[..|rs| - 1]), rs[|rs| - 1])
  }

  /** Log and term always agree; only the commit index can differ. */
  lemma RepoTwo(n: Node, a: Request, b: Request, l: seq<Entry>)
    requires LogMatching(n.log, l) && Carved(a, l) && Carved(b, l) && Joins(a, b) && a.leaderCommit <= b.leaderCommit
    ensures RepoReceive(RepoReceive(n, a), b).log == RepoReceive(n, Merge(a, b)).log
    ensures RepoReceive(RepoReceive(n, a), b).term == RepoReceive(n, Merge(a, b)).term
    ensures Accepts(n, a) == Accepts(RepoReceive(n, a), b) == Accepts(n, Merge(a, b))
  {
    hide LogMatching, Common, RepoReceive, Accepts, TermAt;
    CarvedMerge(a, b, l);
    RepoClosed(n, a, l);
    RepoClosed(n, Merge(a, b), l);
    RepoKeepsMatching(n, a, l);
    RepoClosed(RepoReceive(n, a), b, l);
    AcceptsClosed(n, a, l);
    AcceptsClosed(RepoReceive(n, a), b, l);
    AcceptsClosed(n, Merge(a, b), l);
    CommonPrefix(l, End(a));
  }

  lemma CommitBeside(n: Node, m: Node, r: Request)
    requires n.log == m.log && n.term == m.term
    ensures RepoReceive(n, r).log == RepoReceive(m, r).log && RepoReceive(n, r).term == RepoReceive(m, r).term
    ensures Accepts(n, r) == Accepts(m, r)
  {
  }

  /** For any number of requests the merged request gives the same log and term, and the same verdict. */
  lemma {:induction false} MergedRepoLog(n: Node, rs: seq<Request>, l: seq<Entry>)
    requires LogMatching(n.log, l) && Sent(rs, l)
    ensures RepoReceive(n, MergeAll(rs)).log == RepoRun(n, rs).log && RepoReceive(n, MergeAll(rs)).term == RepoRun(n, rs).term
    ensures Accepts(RepoRun(n, rs[..|rs| - 1]), rs[|rs| - 1]) == Accepts(n, MergeAll(rs))
    ensures |rs| > 1 ==> Accepts(n, MergeAll(rs[..|rs| - 1])) == Accepts(n, MergeAll(rs))
    decreases |rs|
  {
    hide LogMatching, Accepts, Carved, Joins, RepoReceive;
    var init, last := rs[..|rs| - 1], rs[|rs| - 1];
    if |rs| > 1 {
      SentInit(rs, l);
      MergedRepoLog(n, init, l);
      MergeAllFacts(init, l);
      MergeJoins(rs, l);
      RepoTwo(n, MergeAll(init), last, l);
      CommitBeside(RepoRun(n, init), RepoReceive(n, MergeAll(init)), last);
    }
  }

  /** Some prefix of the requests carried the leader's commit index `c` and left the log that long. */
  ghost predicate Reached(n: Node, rs: seq<Request>, c: nat)
  {
    exists j :: 0 < j <= |rs| && ReachedAt(n, rs, c, j)
  }

  predicate ReachedAt(n: Node, rs: seq<Request>, c: nat, j: nat)
    requires 0 < j <= |rs|
  {
    rs[j - 1].leaderCommit == c && c <= |RepoRun(n, rs[..j]).log|
  }

  lemma ReachedInit(n: Node, rs: seq<Request>, c: nat)
    requires rs != []
    ensures Reached(n, rs, c) <==> Reached(n, rs[..|rs| - 1], c) || ReachedAt(n, rs, c, |rs|)
  {
    var init := rs[..|rs| - 1];
    forall j | 0 < j <= |init| ensures ReachedAt(n, rs, c, j) == ReachedAt(n, init, c, j) {
      assert init[..j] == rs[..j];
    }
    hide ReachedAt;
    if Reached(n, init, c) {
      var j :| 0 < j <= |init| && ReachedAt(n, init, c, j);
      assert ReachedAt(n, rs, c, j);
    }
  }

  /** One by one, the commit index gets to the leader's exactly if the log was ever long enough. */
  lemma {:induction false} CommitReached(n: Node, rs: seq<Request>, l: seq<Entry>, c: nat)
    requires LogMatching(n.log, l) && Sent(rs, l) && Accepts(n, MergeAll(rs))
    requires n.commit < c && rs[|rs| - 1].leaderCommit <= c
    ensures RepoRun(n, rs).commit <= c && (RepoRun(n, rs).commit == c <==> Reached(n, rs, c))
    decreases |rs|
  {
    hide LogMatching, Accepts, Carved, Joins, RepoLog, Reached, TermAt, MergeAll;
    var init, last := rs[..|rs| - 1], rs[|rs| - 1];
    MergedRepoLog(n, rs, l);
    ReachedInit(n, rs, c);
    assert rs[..|rs|] == rs;
    if |rs| == 1 {
      NotReached(n, init, c);
    } else {
      SentInit(rs, l);
      CommitReached(n, init, l, c);
    }
  }

  lemma NotReached(n: Node, rs: seq<Request>, c: nat)
    requires rs == []
    ensures !Reached(n, rs, c)
  {
  }

  /**
   * The commit index differs from that of the merged request exactly if an earlier request already
   * carried the last leader commit index while the log still reached it, and a later one cut the
   * log below it.
   */
  lemma MergedRepoCommit(n: Node, rs: seq<Request>, l: seq<Entry>)
    requires LogMatching(n.log, l) && Sent(rs, l)
    ensures var c := rs[|rs| - 1].leaderCommit;
      RepoRun(n, rs).commit == RepoReceive(n, MergeAll(rs)).commit
      <==> !(n.commit < c && |RepoRun(n, rs).log| < c && Reached(n, rs[..|rs| - 1], c))
  {
    hide LogMatching, Carved, Joins, RepoLog, Reached, TermAt, MergeAll;
    var init, last := rs[..|rs| - 1], rs[|rs| - 1];
    MergedRepoLog(n, rs, l);
    MergeAllFacts(rs, l);
    if !Accepts(n, MergeAll(rs)) {
      RejectedRun(n, rs, l);
    } else if |rs| > 1 {
      SentInit(rs, l);
      if n.commit < last.leaderCommit { CommitReached(n, init, l, last.leaderCommit); }
      else { CommitStays(n, rs, l); }
    } else {
      NotReached(n, init, last.leaderCommit);
    }
  }

  lemma {:induction false} CommitStays(n: Node, rs: seq<Request>, l: seq<Entry>)
    requires Sent(rs, l) && rs[|rs| - 1].leaderCommit <= n.commit
    ensures RepoRun(n, rs).commit == n.commit
    decreases |rs|
  {
    hide Carved, Joins, RepoLog, TermAt;
    if |rs| > 1 {
      SentInit(rs, l);
      CommitStays(n, rs[..|rs| - 1], l);
    }
  }

  lemma {:induction false} RejectedRun(n: Node, rs: seq<Request>, l: seq<Entry>)
    requires LogMatching(n.log, l) && Sent(rs, l) && !Accepts(n, MergeAll(rs))
    ensures RepoRun(n, rs).commit == n.commit && RepoRun(n, rs).log == n.log
    ensures !(|n.log| < rs[|rs| - 1].leaderCommit && Reached(n, rs[..|rs| - 1], rs[|rs| - 1].leaderCommit))
    decreases |rs|
  {
    hide LogMatching, Carved, Joins, RepoLog, TermAt, MergeAll, Reached;
    MergedRepoLog(n, rs, l);
    var init, c := rs[..|rs| - 1], rs[|rs| - 1].leaderCommit;
    if |rs| == 1 {
      NotReached(n, init, c);
    } else {
      SentInit(rs, l);
      RejectedRun(n, init, l);
      if |n.log| < c { RejectedNotReached(n, init, l, c); }
    }
  }

  lemma {:induction false} RejectedNotReached(n: Node, rs: seq<Request>, l: seq<Entry>, c: nat)
    requires LogMatching(n.log, l) && Sent(rs, l) && !Accepts(n, MergeAll(rs)) && |n.log| < c
    ensures !Reached(n, rs, c) && RepoRun(n, rs).log == n.log
    decreases |rs|
  {
    hide LogMatching, Carved, Joins, RepoLog, TermAt, MergeAll, Reached;
    MergedRepoLog(n, rs, l);
    ReachedInit(n, rs, c);
    assert rs[..|rs|] == rs;
    if |rs| == 1 {
      NotReached(n, rs[..0], c);
    } else {
      SentInit(rs, l);
      RejectedNotReached(n, rs[..|rs| - 1], l, c);
    }
  }

  lemma {:induction false} SentPrefix(rs: seq<Request>, l: seq<Entry>, j: nat)
    requires Sent(rs, l) && 0 < j <= |rs|
    ensures Sent(rs[..j], l)
  {
  }

  /** The log after the first `j` requests, in closed form. */
  lemma LogAfterPrefix(n: Node, rs: seq<Request>, l: seq<Entry>, j: nat)
    requires LogMatching(n.log, l) && Sent(rs, l) && Accepts(n, MergeAll(rs)) && 0 < j <= |rs|
    ensures RepoRun(n, rs[..j]).log == RepoLogAfter(n.log, l, rs[0].prevIndex, End(rs[j - 1]))
  {
    hide LogMatching, Common, Joins, MergeAll, RepoLog, RepoLogAfter;
    SentPrefix(rs, l, j);
    MergeAllFacts(rs, l);
    MergeAllFacts(rs[..j], l);
    MergedRepoLog(n, rs[..j], l);
    RepoClosed(n, MergeAll(rs[..j]), l);
    AcceptsClosed(n, MergeAll(rs), l);
    AcceptsClosed(n, MergeAll(rs[..j]), l);
  }

  /** An earlier request than the last carries `c` and leaves the log at least that long. */
  ghost predicate Overreached(f: seq<Entry>, rs: seq<Request>, l: seq<Entry>, c: nat)
  {
    exists j :: 0 < j < |rs| && OverreachedAt(f, rs, l, c, j)
  }

  predicate OverreachedAt(f: seq<Entry>, rs: seq<Request>, l: seq<Entry>, c: nat, j: nat)
    requires 0 < j < |rs|
  {
    var end := End(rs[j - 1]);
    rs[j - 1].leaderCommit == c && end <= |l| && c <= |RepoLogAfter(f, l, rs[0].prevIndex, end)|
  }

  /** The exact condition in terms of the state before the call. */
  lemma MergeCondition(n: Node, rs: seq<Request>, l: seq<Entry>)
    requires LogMatching(n.log, l) && Sent(rs, l) && Accepts(n, MergeAll(rs))
    ensures var c := rs[|rs| - 1].leaderCommit;
      RepoRun(n, rs).commit == RepoReceive(n, MergeAll(rs)).commit
      <==> c <= n.commit || c <= |RepoLogAfter(n.log, l, rs[0].prevIndex, End(rs[|rs| - 1]))| || !Overreached(n.log, rs, l, c)
  {
    hide LogMatching, Common, Joins, MergeAll, RepoReceive, RepoLogAfter, Accepts, RepoRun;
    var c, init := rs[|rs| - 1].leaderCommit, rs[..|rs| - 1];
    MergedRepoCommit(n, rs, l);
    LogAfterPrefix(n, rs, l, |rs|);
    assert rs[..|rs|] == rs;
    forall j | 0 < j < |rs| ensures ReachedAt(n, init, c, j) <==> OverreachedAt(n.log, rs, l, c, j) {
      LogAfterPrefix(n, rs, l, j);
      assert init[..j] == rs[..j];
    }
    SameReach(n, rs, l, c);
  }

  lemma SameReach(n: Node, rs: seq<Request>, l: seq<Entry>, c: nat)
    requires rs != []
    requires forall j :: 0 < j < |rs| ==> (ReachedAt(n, rs[..|rs| - 1], c, j) <==> OverreachedAt(n.log, rs, l, c, j))
    ensures Reached(n, rs[..|rs| - 1], c) <==> Overreached(n.log, rs, l, c)
  {
    hide ReachedAt, OverreachedAt;
    if Overreached(n.log, rs, l, c) {
      var j :| 0 < j < |rs| && OverreachedAt(n.log, rs, l, c, j);
      assert ReachedAt(n, rs[..|rs| - 1], c, j);
    }
    if Reached(n, rs[..|rs| - 1], c) {
      var j :| 0 < j <= |rs| - 1 && ReachedAt(n, rs[..|rs| - 1], c, j);
      assert OverreachedAt(n.log, rs, l, c, j);
    }
  }

  /** A heartbeat followed by a conflicting entry: one by one the commit index ends above the log. */
  lemma MergeDiffers() returns (n: Node, a: Request, b: Request, l: seq<Entry>)
    ensures LogMatching(n.log, l) && Sent([a, b], l) && b.leaderCommit <= |l|
    ensures RepoReceive(RepoReceive(n, a), b).commit == 3 && |RepoReceive(RepoReceive(n, a), b).log| == 2
    ensures RepoReceive(n, Merge(a, b)).commit == 2
  {
    var e, x, y := Entry(1, Noop), Entry(1, Command("x")), Entry(2, Command("y"));
    l := [e, y, y];
    n := Node(2, [e, x, x], 1);
    a := Request(2, 1, 1, [], 3);
    b := Request(2, 1, 1, [y], 3);
    assert n.log[..1] == l[..1] == [e];
    assert RepoReceive(n, a) == Node(2, [e, x, x], 3);
    assert Agreeing([e, x, x], 1, [y]) == 0;
    assert [e, x, x][..1] + [y][0..] == [e, y];
    assert RepoReceive(Node(2, [e, x, x], 3), b) == Node(2, [e, y], 3);
  }
}
