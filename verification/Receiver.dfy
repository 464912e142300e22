/**
 * Receiving AppendEntries: the receiver of section 5.3 of the Raft paper (Ongaro and Ousterhout,
 * extended version) and the receiver of this code base, on logs without a purged prefix.
 */
module Receiver {
  import opened Types

  /** Entry `i` of a log is stored at position `i - 1`. */
  datatype Request = Request(term: nat, prevIndex: nat, prevTerm: nat, entries: seq<Entry>, leaderCommit: nat)

  datatype Node = Node(term: nat, log: seq<Entry>, commit: nat)

  /** The term at index `i`; 0 at the virtual index 0. */
  function TermAt(log: seq<Entry>, i: nat): nat
    requires i <= |log|
  {
    if i == 0 then 0 else log[i - 1].term
  }

  /** Reply true: the term is current and the log holds the preceding entry. */
  predicate Accepts(n: Node, r: Request)
  {
    n.term <= r.term && r.prevIndex <= |n.log| && TermAt(n.log, r.prevIndex) == r.prevTerm
  }

  /** How many leading entries the log already holds after index `prev`, with the same terms. */
  function Agreeing(log: seq<Entry>, prev: nat, es: seq<Entry>): (k: nat)
    ensures k <= |es|
    decreases |es|
  {
    if es == [] || prev >= |log| || log[prev].term != es[0].term then 0 else 1 + Agreeing(log, prev + 1, es[1..])
  }

  /** Rules 3 and 4: delete from the first conflict on, append what is missing. */
  function PaperLog(log: seq<Entry>, prev: nat, es: seq<Entry>): seq<Entry>
    requires prev <= |log|
  {
    var k := Agreeing(log, prev, es);
    if k == |es| || prev + k > |log| then log else log[..prev + k] + es[k..]
  }

  /** `filter_out_conflicts_and_append` without its fast path; index 0 starts from scratch. */
  function RepoLog(log: seq<Entry>, prev: nat, es: seq<Entry>): seq<Entry>
    requires prev <= |log|
  {
    if es == [] then log else if prev == 0 then es else PaperLog(log, prev, es)
  }

  /** Rule 5: the commit index follows the leader, up to `bound`. */
  function Follow(commit: nat, leaderCommit: nat, bound: nat): nat
  {
    if leaderCommit > commit then Min(leaderCommit, bound) else commit
  }

  /** Rule 5 is bounded by the index of the last new entry. */
  function PaperReceive(n: Node, r: Request): Node
  {
    if !Accepts(n, r) then n.(term := Max(n.term, r.term)) else
    Node(r.term, PaperLog(n.log, r.prevIndex, r.entries),
         Follow(n.commit, r.leaderCommit, r.prevIndex + |r.entries|))
  }

  /** `handle_append_entries` bounds rule 5 by the last entry of the whole log. */
  function RepoReceive(n: Node, r: Request): Node
  {
    if !Accepts(n, r) then n.(term := Max(n.term, r.term)) else
    var log := RepoLog(n.log, r.prevIndex, r.entries);
    Node(r.term, log, Follow(n.commit, r.leaderCommit, |log|))
  }

  // ---- Log Matching -------------------------------------------------------------------------------

  /** Same index and term means the same prefix. */
  ghost predicate LogMatching(f: seq<Entry>, l: seq<Entry>)
  {
    forall i :: 0 <= i < |f| && i < |l| && f[i].term == l[i].term ==> f[..i + 1] == l[..i + 1]
  }

  /** `r` was cut out of the leader log `l`. */
  predicate Carved(r: Request, l: seq<Entry>)
  {
    && r.prevIndex + |r.entries| <= |l|
    && r.prevTerm == TermAt(l, r.prevIndex)
    && r.entries == l[r.prevIndex..r.prevIndex + |r.entries|]
  }

  /** The length of the longest common prefix. */
  function Common(f: seq<Entry>, l: seq<Entry>): (a: nat)
    ensures a <= |f| && a <= |l| && f[..a] == l[..a]
    ensures a < |f| && a < |l| ==> f[a] != l[a]
  {
    if f == [] || l == [] || f[0] != l[0] then 0 else
    var a := Common(f[1..], l[1..]);
    assert f[..a + 1] == [f[0]] + f[1..][..a] && l[..a + 1] == [l[0]] + l[1..][..a];
    a + 1
  }

  /** Under Log Matching, equal terms at an index mean the logs agree up to it, and conversely. */
  lemma CommonTerms(f: seq<Entry>, l: seq<Entry>, i: nat)
    requires LogMatching(f, l) && i < |f| && i < |l|
    ensures f[i].term == l[i].term <==> i < Common(f, l)
  {
    var a := Common(f, l);
    if i < a {
      assert f[..a][i] == l[..a][i];
    } else {
      assert f[..i + 1][a] != l[..i + 1][a];
    }
  }

  lemma AcceptsClosed(n: Node, r: Request, l: seq<Entry>)
    requires LogMatching(n.log, l) && Carved(r, l)
    ensures Accepts(n, r) <==> n.term <= r.term && r.prevIndex <= Common(n.log, l)
  {
    if 0 < r.prevIndex <= |n.log| { CommonTerms(n.log, l, r.prevIndex - 1); }
  }

  lemma {:induction false} AgreeingClosed(f: seq<Entry>, l: seq<Entry>, prev: nat, m: nat)
    requires LogMatching(f, l) && prev <= Common(f, l) && prev <= m <= |l|
    ensures Agreeing(f, prev, l[prev..m]) == Min(m, Common(f, l)) - prev
    decreases m - prev
  {
    if prev < m && prev < |f| {
      CommonTerms(f, l, prev);
      if prev < Common(f, l) {
        AgreeingClosed(f, l, prev + 1, m);
        assert l[prev..m][1..] == l[prev + 1..m];
      }
    }
  }

  /** What the paper's rules 3 and 4 come to: nothing new, or the leader's log up to the request's end. */
  lemma PaperLogClosed(f: seq<Entry>, l: seq<Entry>, prev: nat, m: nat)
    requires LogMatching(f, l) && prev <= Common(f, l) && prev <= m <= |l|
    ensures PaperLog(f, prev, l[prev..m]) == if m <= Common(f, l) then f else l[..m]
  {
    hide Common, Agreeing, LogMatching;
    AgreeingClosed(f, l, prev, m);
    if Common(f, l) < m { Splice(f, l, Common(f, l), prev, m); }
  }

  lemma Splice(f: seq<Entry>, l: seq<Entry>, a: nat, prev: nat, m: nat)
    requires prev <= a <= m <= |l| && a <= |f| && f[..a] == l[..a]
    ensures f[..a] + l[prev..m][a - prev..] == l[..m]
  {
    assert l[prev..m][a - prev..] == l[a..m];
  }

  lemma RepoLogClosed(f: seq<Entry>, l: seq<Entry>, prev: nat, m: nat)
    requires LogMatching(f, l) && prev <= Common(f, l) && prev <= m <= |l|
    ensures RepoLog(f, prev, l[prev..m])
            == if m == prev then f else if prev == 0 || Common(f, l) < m then l[..m] else f
  {
    PaperLogClosed(f, l, prev, m);
  }

  lemma PrefixMatching(l: seq<Entry>, g: seq<Entry>, m: nat)
    requires LogMatching(l, g) && m <= |l|
    ensures LogMatching(l[..m], g)
  {
    var f := l[..m];
    forall i | 0 <= i < |f| && i < |g| && f[i].term == g[i].term ensures f[..i + 1] == g[..i + 1] {
      assert f[..i + 1] == l[..i + 1];
    }
  }

  lemma SelfMatching(l: seq<Entry>)
    ensures LogMatching(l, l)
  {
  }

  lemma CommonPrefix(l: seq<Entry>, m: nat)
    requires m <= |l|
    ensures Common(l[..m], l) == m
  {
    var a := Common(l[..m], l);
    assert forall i :: 0 <= i < m ==> l[..m][i] == l[i];
  }
}
