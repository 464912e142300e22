/** Cutting one peer's AppendEntries request out of the leader's log. */
module AppendRequests {
  import opened Types
  import opened Receiver
  import opened ReplicationProgress

  /**
   * The leader's log holds the indexes up to `before` from earlier batches and `added` new entries
   * behind them; `cap` bounds the older entries of one request.
   */
  datatype Tip = Tip(before: nat, added: nat, cap: nat)

  function Last(t: Tip): nat { t.before + t.added }

  function Upwards(from: nat, count: nat): seq<nat> { seq(count, i => from + i) }

  /** The older entries fetched for a peer that expects `next`. */
  function Legacy(t: Tip, next: nat): seq<nat>
  {
    if t.before < next || t.cap == 0 then [] else
    Upwards(next, if t.before - next >= t.cap then t.cap else t.before - next + 1)
  }

  /** The indexes of the entries sent; `retrieve_to_be_synced_logs_for_peers` appends the new ones always. */
  function Chosen(t: Tip, next: nat): seq<nat> { Legacy(t, next) + Upwards(t.before + 1, t.added) }

  /** An overshot next index is clamped to the tip. */
  function Effective(t: Tip, next: nat): nat { Min(next, Last(t) + 1) }

  /** The entries follow the preceding index without a gap. */
  predicate Contiguous(prev: nat, xs: seq<nat>) { forall i :: 0 <= i < |xs| ==> xs[i] == prev + 1 + i }

  /**
   * A request is contiguous exactly if it carries no new entries, or the peer expects the first new
   * entry, or all older entries fit under the cap.
   */
  lemma CarvedExactly(t: Tip, next: nat)
    requires next > 0
    ensures Contiguous(Effective(t, next) - 1, Chosen(t, next))
            <==> t.added == 0 || next == t.before + 1 || (next <= t.before && t.before - next < t.cap)
  {
    var xs, prev := Chosen(t, next), Effective(t, next) - 1;
    var k := |Legacy(t, next)|;
    if t.added > 0 {
      assert xs[k] == t.before + 1;
      assert k < |xs|;
    }
  }

  /** With the cap reached, new entries are sent behind a gap: 1 and 2, then 4. */
  lemma CapLeavesGap()
    ensures Chosen(Tip(3, 1, 2), 1) == [1, 2, 4] && !Contiguous(0, Chosen(Tip(3, 1, 2), 1))
  {
    var xs := Chosen(Tip(3, 1, 2), 1);
    assert xs == [1, 2, 4];
    assert xs[2] == 4;
  }

  /** The request built for a log, given the indexes chosen. */
  function Build(l: seq<Entry>, t: Tip, next: nat, term: nat, commit: nat): Request
    requires 0 < next && |l| == Last(t)
  {
    var prev := Effective(t, next) - 1;
    Request(term, prev, TermAt(l, prev), Pick(l, Chosen(t, next)), commit)
  }

  function Pick(l: seq<Entry>, xs: seq<nat>): seq<Entry>
  {
    seq(|xs|, i requires 0 <= i < |xs| => if 0 < xs[i] <= |l| then l[xs[i] - 1] else Entry(0, Noop))
  }

  /** A contiguous request is cut out of the leader's log behind what the peer expects, up to the tip unless the cap ends it. */
  lemma ContiguousCarved(l: seq<Entry>, t: Tip, next: nat, term: nat, commit: nat)
    requires 0 < next && |l| == Last(t)
    requires t.added == 0 || next == t.before + 1 || (next <= t.before && t.before - next < t.cap)
    ensures var r := Build(l, t, next, term, commit);
      && Carved(r, l) && r.term == term && r.leaderCommit == commit && r.prevIndex == Min(next, |l| + 1) - 1
      && (r.prevIndex + |r.entries| == |l| <==> t.added > 0 || t.before < next || t.before - next < t.cap)
  {
    CarvedExactly(t, next);
    ChosenInside(t, next);
    var r, xs := Build(l, t, next, term, commit), Chosen(t, next);
    assert r.prevIndex + |r.entries| <= |l|;
    forall i | 0 <= i < |xs| ensures r.entries[i] == l[r.prevIndex..r.prevIndex + |xs|][i] {
      assert xs[i] == r.prevIndex + 1 + i;
    }
  }

  lemma ChosenInside(t: Tip, next: nat)
    requires 0 < next
    ensures next <= t.before + 1 ==> Effective(t, next) + |Chosen(t, next)| <= Last(t) + 1
    ensures t.added == 0 ==> Effective(t, next) + |Chosen(t, next)| <= Last(t) + 1
  {
  }

  /** Sending keeps a peer in the window it was in before the batch was appended. */
  lemma SendingKeepsWindow(p: Peer, t: Tip)
    requires Window(p, t.before)
    ensures Window(Step(p, Sent(Effective(t, p.next), |Chosen(t, p.next)|)), Last(t))
  {
    hide Chosen;
    ChosenInside(t, p.next);
  }
}
