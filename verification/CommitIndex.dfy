/** How the leader computes its commit index from the match indexes of its peers. */
module CommitIndex {
  import opened Types
  import opened Bags
  import opened Election

  // ---- Sorting and picking ---------------------------------------------------------------------------

  predicate Descending(xs: seq<nat>) { forall i, j :: 0 <= i < j < |xs| ==> xs[i] >= xs[j] }

  function Insert(x: nat, xs: seq<nat>): seq<nat>
  {
    if xs == [] || x >= xs[0] then [x] + xs else [xs[0]] + Insert(x, xs[1..])
  }

  function SortDescending(xs: seq<nat>): seq<nat>
  {
    if xs == [] then [] else Insert(xs[|xs| - 1], SortDescending(xs[..|xs| - 1]))
  }

  lemma {:induction false} InsertBag(x: nat, xs: seq<nat>)
    ensures multiset(Insert(x, xs)) == multiset(xs) + multiset{x}
  {
    if xs != [] && x < xs[0] {
      InsertBag(x, xs[1..]);
      assert xs == [xs[0]] + xs[1..];
    }
  }

  lemma {:induction false} InsertSorted(x: nat, xs: seq<nat>)
    requires Descending(xs)
    ensures Descending(Insert(x, xs))
  {
    if xs != [] && x < xs[0] {
      InsertSorted(x, xs[1..]);
      InsertBound(x, xs[1..], xs[0]);
    }
  }

  lemma {:induction false} InsertBound(x: nat, xs: seq<nat>, bound: nat)
    requires x <= bound && forall i :: 0 <= i < |xs| ==> xs[i] <= bound
    ensures forall i :: 0 <= i < |Insert(x, xs)| ==> Insert(x, xs)[i] <= bound
  {
    if xs != [] && x < xs[0] { InsertBound(x, xs[1..], bound); }
  }

  lemma {:induction false} SortSorted(xs: seq<nat>)
    ensures Descending(SortDescending(xs)) && multiset(SortDescending(xs)) == multiset(xs)
    ensures |SortDescending(xs)| == |xs|
  {
    if xs != [] {
      var n := |xs| - 1;
      SortSorted(xs[..n]);
      InsertSorted(xs[n], SortDescending(xs[..n]));
      InsertBag(xs[n], SortDescending(xs[..n]));
      assert xs == xs[..n] + [xs[n]];
    }
    assert |SortDescending(xs)| == |multiset(SortDescending(xs))| == |multiset(xs)| == |xs|;
  }

  /** How many of `xs` have reached `v`. */
  function Reaching(xs: seq<nat>, v: nat): nat
  {
    if xs == [] then 0 else Reaching(xs[..|xs| - 1], v) + (if v <= xs[|xs| - 1] then 1 else 0)
  }

  lemma {:induction false} ReachingSorted(xs: seq<nat>, v: nat, k: nat)
    requires Descending(xs) && k <= |xs| && (forall i :: 0 <= i < k ==> v <= xs[i]) && (forall i :: k <= i < |xs| ==> xs[i] < v)
    ensures Reaching(xs, v) == k
    decreases |xs|
  {
    if xs != [] { ReachingSorted(xs[..|xs| - 1], v, if k < |xs| then k else |xs| - 1); }
  }

  lemma ReachingUnfold(xs: seq<nat>, v: nat)
    requires xs != []
    ensures Reaching(xs, v) == Reaching(xs[..|xs| - 1], v) + (if v <= xs[|xs| - 1] then 1 else 0)
  {
  }

  lemma {:induction false} ReachingRemove(xs: seq<nat>, v: nat, k: nat)
    requires k < |xs|
    ensures Reaching(xs, v) == Reaching(xs[..k] + xs[k + 1..], v) + (if v <= xs[k] then 1 else 0)
    decreases |xs|
  {
    hide Reaching;
    var n := |xs| - 1;
    ReachingUnfold(xs, v);
    if k == n {
      assert xs[..k] + xs[k + 1..] == xs[..n];
    } else {
      ReachingRemove(xs[..n], v, k);
      WithoutLast(xs, k);
      ReachingUnfold(xs[..k] + xs[k + 1..], v);
    }
  }

  lemma {:induction false} ReachingPermuted(a: seq<nat>, b: seq<nat>, v: nat)
    requires multiset(a) == multiset(b)
    ensures Reaching(a, v) == Reaching(b, v)
    decreases |a|
  {
    if a == [] {
      assert |b| == |multiset(b)| == |multiset(a)| == 0;
    } else {
      var n := |a| - 1;
      assert a[n] in multiset(b);
      var k :| 0 <= k < |b| && b[k] == a[n];
      WithoutOne(a, n);
      WithoutOne(b, k);
      assert a[..n] + a[n + 1..] == a[..n];
      ReachingPermuted(a[..n], b[..k] + b[k + 1..], v);
      ReachingRemove(b, v, k);
    }
  }

  /** The element in the middle of the descending order. */
  function Median(xs: seq<nat>): nat
    requires xs != []
  {
    var s := SortDescending(xs);
    if |s| == |xs| then s[|s| / 2] else 0
  }

  /** More than half of the elements have reached the median. */
  lemma MedianReached(xs: seq<nat>)
    requires xs != []
    ensures IsMajority(Reaching(xs, Median(xs)), |xs|)
  {
    var s := SortDescending(xs);
    SortSorted(xs);
    ReachingPermuted(xs, s, s[|s| / 2]);
    ReachingFrom(s, |s| / 2);
  }

  /** No higher value has been reached by more than half of them. */
  lemma MedianHighest(xs: seq<nat>, v: nat)
    requires xs != [] && v > Median(xs)
    ensures !IsMajority(Reaching(xs, v), |xs|)
  {
    var s := SortDescending(xs);
    SortSorted(xs);
    ReachingPermuted(xs, s, v);
    ReachingBelow(s, v, |s| / 2);
  }

  lemma {:induction false} ReachingFrom(s: seq<nat>, m: nat)
    requires Descending(s) && m < |s|
    ensures Reaching(s, s[m]) >= m + 1
    decreases |s|
  {
    var n := |s| - 1;
    if m < n {
      ReachingFrom(s[..n], m);
    } else {
      ReachingSorted(s, s[m], |s|);
    }
  }

  lemma {:induction false} ReachingBelow(s: seq<nat>, v: nat, m: nat)
    requires Descending(s) && m < |s| && s[m] < v
    ensures Reaching(s, v) <= m
    decreases |s|
  {
    var n := |s| - 1;
    if m < n { ReachingBelow(s[..n], v, m); } else { ReachingBound(s[..n], v); }
  }

  lemma {:induction false} ReachingBound(s: seq<nat>, v: nat)
    ensures Reaching(s, v) <= |s|
  {
    if s != [] { ReachingBound(s[..|s| - 1], v); }
  }

  // ---- Which nodes are counted -------------------------------------------------------------------------

  /** The roles of the replication targets; a learner or unknown peer is no voter. */
  predicate IsVoter(roles: map<nat, Role>, id: nat) { id in roles && roles[id] != Learner }

  function VoterIds(matched: map<nat, nat>, roles: map<nat, Role>): set<nat> { set id | id in matched && IsVoter(roles, id) }

  /** `values` lists the match indexes of the counted peers, in some order. */
  ghost predicate Lists(values: seq<nat>, matched: map<nat, nat>, ids: set<nat>)
    requires ids <= matched.Keys
    decreases |ids|
  {
    if ids == {} then values == [] else
    exists id :: id in ids && values != [] && values[|values| - 1] == matched[id] && Lists(values[..|values| - 1], matched, ids - {id})
  }

  /** The log as far as it matters here: its last index and the terms it holds. */
  datatype LogView = LogView(last: nat, terms: map<nat, nat>)

  /** The commit index that follows from the confirmed indexes `values`: higher than before, and of this term. */
  function Computed(term: nat, commit: nat, values: seq<nat>, log: LogView): Option<nat>
  {
    var m := Median(values + [log.last]);
    if m > commit && m in log.terms && log.terms[m] == term then Some(m) else None
  }

  /** `calculate_majority_matched_index` */
  method MajorityMatchedIndex(term: nat, commit: nat, peers: seq<nat>, log: LogView) returns (r: Option<nat>)
    ensures var m := Median(peers + [log.last]);
      r == if m < commit || m !in log.terms || log.terms[m] != term then None else Some(m)
  {
    var ids := peers + [log.last];
    var sorted := SortDescending(ids);
    SortSorted(ids);
    var majority := sorted[|sorted| / 2];
    if majority < commit { return None; }
    if majority in log.terms && log.terms[majority] == term { return Some(majority); }
    return None;
  }

  /** The match indexes of `ids`, visited in any order. */
  method Collect(matched: map<nat, nat>, ids: set<nat>) returns (values: seq<nat>)
    requires ids <= matched.Keys
    ensures Lists(values, matched, ids)
  {
    ListsNone(matched);
    hide Lists;
    values := [];
    var rest := ids;
    ghost var done := {};
    while rest != {}
      invariant rest <= ids && done == ids - rest && done <= matched.Keys
      invariant Lists(values, matched, done)
      decreases rest
    {
      var id :| id in rest;
      ListsPlus(values, matched, done, id);
      values := values + [matched[id]];
      rest, done := rest - {id}, done + {id};
    }
    assert done == ids;
  }

  lemma ListsNone(matched: map<nat, nat>)
    ensures Lists([], matched, {})
  {
  }

  /** `calculate_new_commit_index`: in whatever order the voters' match indexes are listed, the result is the same. */
  method NewCommitIndex(term: nat, commit: nat, matched: map<nat, nat>, roles: map<nat, Role>, log: LogView) returns (r: Option<nat>)
    ensures forall voters: set<nat>, values ::
      AreVoters(voters, matched, roles) && Lists(values, matched, voters) ==>
        var m := Median(values + [log.last]);
        r == if m > commit && m in log.terms && log.terms[m] == term then Some(m) else None
    ensures exists voters: set<nat>, values :: AreVoters(voters, matched, roles) && Lists(values, matched, voters)
  {
    hide Lists, Median;
    var ids := VoterIds(matched, roles);
    assert AreVoters(ids, matched, roles);
    var seen := Collect(matched, ids);
    var m := MajorityMatchedIndex(term, commit, seen, log);
    r := if m.Some? && m.value > commit then m else None;
    forall voters: set<nat>, values | AreVoters(voters, matched, roles) && Lists(values, matched, voters)
      ensures Median(values + [log.last]) == Median(seen + [log.last])
    {
      assert voters == ids;
      OnlyVotersCount(matched, matched, roles, seen, values, log.last);
    }
  }

  /** The peers that have confirmed something and are members but no learners. */
  ghost predicate AreVoters(voters: set<nat>, matched: map<nat, nat>, roles: map<nat, Role>)
  {
    forall id :: id in voters <==> id in matched && id in roles && roles[id] != Learner
  }

  lemma ListsPlus(values: seq<nat>, matched: map<nat, nat>, ids: set<nat>, id: nat)
    requires ids <= matched.Keys && Lists(values, matched, ids) && id in matched && id !in ids
    ensures Lists(values + [matched[id]], matched, ids + {id})
  {
    var more := values + [matched[id]];
    assert more[..|more| - 1] == values && ids + {id} - {id} == ids;
  }

  // ---- What the result does not depend on ---------------------------------------------------------------

  function Sharing(matched: map<nat, nat>, ids: set<nat>, v: nat): set<nat>
    requires ids <= matched.Keys
  {
    set id | id in ids && matched[id] == v
  }

  lemma {:induction false} ListsCounts(values: seq<nat>, matched: map<nat, nat>, ids: set<nat>, v: nat)
    requires ids <= matched.Keys && Lists(values, matched, ids)
    ensures multiset(values)[v] == |Sharing(matched, ids, v)|
    decreases |ids|
  {
    if ids != {} {
      var n := |values| - 1;
      var id :| id in ids && values != [] && values[n] == matched[id] && Lists(values[..n], matched, ids - {id});
      ListsCounts(values[..n], matched, ids - {id}, v);
      assert values == values[..n] + [values[n]];
      if matched[id] == v {
        assert Sharing(matched, ids, v) == Sharing(matched, ids - {id}, v) + {id};
      } else {
        assert Sharing(matched, ids, v) == Sharing(matched, ids - {id}, v);
      }
    }
  }

  lemma MedianPermuted(a: seq<nat>, b: seq<nat>)
    requires multiset(a) == multiset(b) && a != [] && b != []
    ensures Median(a) == Median(b)
  {
    hide Median;
    assert |a| == |multiset(a)| == |multiset(b)| == |b|;
    MedianReached(a);
    MedianReached(b);
    ReachingPermuted(a, b, Median(a));
    ReachingPermuted(a, b, Median(b));
    if Median(a) < Median(b) { MedianHighest(a, Median(b)); }
    if Median(b) < Median(a) { MedianHighest(b, Median(a)); }
  }

  lemma {:induction false} ListsAgree(values: seq<nat>, a: map<nat, nat>, b: map<nat, nat>, ids: set<nat>)
    requires ids <= a.Keys && ids <= b.Keys && (forall id :: id in ids ==> a[id] == b[id]) && Lists(values, b, ids)
    ensures Lists(values, a, ids)
    decreases |ids|
  {
    if ids != {} {
      var id :| id in ids && values != [] && values[|values| - 1] == b[id] && Lists(values[..|values| - 1], b, ids - {id});
      ListsAgree(values[..|values| - 1], a, b, ids - {id});
    }
  }

  /**
   * Learner non-interference: match indexes of learners and non-members, and the order in which the
   * peers are visited, do not change the index that is computed.
   */
  lemma OnlyVotersCount(a: map<nat, nat>, b: map<nat, nat>, roles: map<nat, Role>, va: seq<nat>, vb: seq<nat>, last: nat)
    requires forall id :: id in roles && roles[id] != Learner ==> (id in a <==> id in b) && (id in a ==> a[id] == b[id])
    requires Lists(va, a, VoterIds(a, roles)) && Lists(vb, b, VoterIds(b, roles))
    ensures Median(va + [last]) == Median(vb + [last])
  {
    hide Median, Lists;
    var ids := VoterIds(a, roles);
    assert VoterIds(b, roles) == ids;
    ListsAgree(vb, a, b, ids);
    forall v ensures multiset(va)[v] == multiset(vb)[v] {
      ListsCounts(va, a, ids, v);
      ListsCounts(vb, a, ids, v);
    }
    assert multiset(va + [last]) == multiset(vb + [last]);
    MedianPermuted(va + [last], vb + [last]);
  }

  // ---- Is the result on a majority of the cluster? ---------------------------------------------------------

  /** With `m` confirmed peers the leader counts `m + 1` nodes, however many voters the cluster has. */
  lemma CountedMajority(values: seq<nat>, last: nat, voters: nat)
    requires (|values| + 1) / 2 >= voters / 2
    ensures IsMajority(Reaching(values + [last], Median(values + [last])), voters)
  {
    MedianReached(values + [last]);
  }

  /** `k` peers that confirmed index 2, then `m - k` that confirmed index 1. */
  function Split(m: nat, k: nat): seq<nat>
    requires k <= m
  {
    seq(m, i => if i < k then 2 else 1)
  }

  lemma {:induction false} SplitReaching(m: nat, k: nat)
    requires k <= m
    ensures Reaching(Split(m, k), 2) == k && Reaching(Split(m, k), 1) == m
    decreases m
  {
    if m > 0 {
      SplitReaching(m - 1, if k < m then k else m - 1);
      assert Split(m, k)[..m - 1] == Split(m - 1, if k < m then k else m - 1);
    }
  }

  lemma ReachingLast(values: seq<nat>, last: nat, v: nat)
    ensures Reaching(values + [last], v) == Reaching(values, v) + (if v <= last then 1 else 0)
  {
    assert (values + [last])[..|values|] == values;
  }

  /** Too few confirmed peers: the computed index can be on half of the voters or fewer. */
  lemma MinorityPossible(m: nat, voters: nat)
    requires (m + 1) / 2 < voters / 2
    ensures !IsMajority(Reaching(Split(m, (m + 1) / 2) + [2], Median(Split(m, (m + 1) / 2) + [2])), voters)
  {
    var k := (m + 1) / 2;
    var all := Split(m, k) + [2];
    SplitReaching(m, k);
    ReachingLast(Split(m, k), 2, 2);
    assert IsMajority(Reaching(all, 2), |all|);
    if Median(all) < 2 { MedianHighest(all, 2); }
    ReachingMonotone(all, 2, Median(all));
  }

  lemma {:induction false} ReachingMonotone(xs: seq<nat>, v: nat, w: nat)
    requires v <= w
    ensures Reaching(xs, w) <= Reaching(xs, v)
  {
    if xs != [] { ReachingMonotone(xs[..|xs| - 1], v, w); }
  }

  ghost predicate AlwaysOnMajority(m: nat, voters: nat)
  {
    forall values: seq<nat>, last: nat :: |values| == m ==>
      IsMajority(Reaching(values + [last], Median(values + [last])), voters)
  }

  /** The computed index is on a strict majority, whatever was confirmed, exactly if enough peers are counted. */
  lemma MajorityExactly(m: nat, voters: nat)
    ensures AlwaysOnMajority(m, voters) <==> (m + 1) / 2 >= voters / 2
  {
    hide Median, Reaching;
    if (m + 1) / 2 >= voters / 2 {
      forall values: seq<nat>, last: nat | |values| == m
        ensures IsMajority(Reaching(values + [last], Median(values + [last])), voters) { CountedMajority(values, last, voters); }
    } else {
      MinorityPossible(m, voters);
      assert |Split(m, (m + 1) / 2)| == m;
    }
  }

  /** The index a single confirmed peer makes the leader compute. */
  lemma OnePeer(n: nat, last: nat)
    requires n <= last
    ensures Median([n] + [last]) == n
  {
    var xs := [n] + [last];
    assert xs[..1] == [n] && xs[..1][..0] == [];
    MedianReached(xs);
    ReachingLast([n], last, n);
    assert [n][..0] == [];
    if Median(xs) < n { MedianHighest(xs, n); }
    if n < Median(xs) { ReachingLast([n], last, Median(xs)); }
  }
}
