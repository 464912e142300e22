/** The compact term index of the in-memory log, and the fast append path that relies on it. */
module TermIndex {
  import opened Types
  import opened Receiver

  const MAX_TERM_SEGMENTS: nat := 1024

  // ---- The index as a value -----------------------------------------------------------------------

  datatype Segment = Segment(start: nat, term: nat)

  /** The open segment (term 0 while nothing was ever stored) and the closed ones, oldest first. */
  datatype Segments = Segments(closed: seq<Segment>, open: Segment)

  /** `on_append` for one entry. */
  function Push(s: Segments, index: nat, term: nat): Segments
  {
    if term == s.open.term then (if index < s.open.start then s.(open := Segment(index, term)) else s)
    else if s.open.term == 0 then s.(open := Segment(index, term))
    else Segments(s.closed + [s.open], Segment(index, term))
  }

  /** The term of the youngest closed segment that starts at or before `index`. */
  function Scan(closed: seq<Segment>, index: nat): Option<nat>
  {
    if closed == [] then None
    else if closed[|closed| - 1].start <= index then Some(closed[|closed| - 1].term)
    else Scan(closed[..|closed| - 1], index)
  }

  function TermOf(s: Segments, index: nat): Option<nat>
  {
    if s.open.term == 0 then None else if s.open.start <= index then Some(s.open.term) else Scan(s.closed, index)
  }

  const EMPTY := Segments([], Segment(0, 0))

  // ---- The log it describes -------------------------------------------------------------------------

  /** What happens to the log: an entry is stored (after truncating from its index), or it is purged or reset. */
  datatype LogOp = Store(index: nat, term: nat) | Purge(upto: nat) | Reset

  /** The terms held, by index. */
  function ApplyOp(l: map<nat, nat>, op: LogOp): map<nat, nat>
  {
    match op
    case Store(index, term) => (map i | i in l && i < index :: l[i])[index := term]
    case Purge(upto) => map i | i in l && upto < i :: l[i]
    case Reset => map[]
  }

  /** The term index is not told about truncation or purging. */
  function IndexOp(s: Segments, op: LogOp): Segments
  {
    match op
    case Store(index, term) => Push(s, index, term)
    case Purge(_) => s
    case Reset => EMPTY
  }

  function LogAfter(ops: seq<LogOp>): map<nat, nat>
  {
    if ops == [] then map[] else ApplyOp(LogAfter(ops[..|ops| - 1]), ops[|ops| - 1])
  }

  function IndexAfter(ops: seq<LogOp>): Segments
  {
    if ops == [] then EMPTY else IndexOp(IndexAfter(ops[..|ops| - 1]), ops[|ops| - 1])
  }

  predicate Positive(ops: seq<LogOp>) { forall k :: 0 <= k < |ops| && ops[k].Store? ==> 0 < ops[k].term }

  /** A stored entry hides everything that was stored above it, and the index agrees below it. */
  lemma PushTerms(s: Segments, index: nat, term: nat, i: nat)
    requires 0 < term && i <= index && (s.open.term == 0 ==> s.closed == [])
    ensures TermOf(Push(s, index, term), i) == if i == index then Some(term) else TermOf(s, i)
  {
    if term != s.open.term && s.open.term != 0 {
      assert (s.closed + [s.open])[..|s.closed|] == s.closed;
    }
  }

  lemma {:induction false} NothingClosed(ops: seq<LogOp>)
    requires Positive(ops)
    ensures IndexAfter(ops).open.term == 0 ==> IndexAfter(ops).closed == []
    decreases |ops|
  {
    if ops != [] { NothingClosed(ops[..|ops| - 1]); }
  }

  /**
   * However the log was appended to, truncated, purged and reset, the index returns the stored
   * term of every entry that is still in the log.
   */
  lemma {:induction false} IndexFaithful(ops: seq<LogOp>, i: nat)
    requires Positive(ops) && i in LogAfter(ops)
    ensures TermOf(IndexAfter(ops), i) == Some(LogAfter(ops)[i])
    decreases |ops|
  {
    hide TermOf, Push;
    var init, op := ops[..|ops| - 1], ops[|ops| - 1];
    if op.Store? {
      NothingClosed(init);
      PushTerms(IndexAfter(init), op.index, op.term, i);
      if i != op.index { IndexFaithful(init, i); }
    } else {
      IndexFaithful(init, i);
    }
  }

  // ---- The index as it is stored ------------------------------------------------------------------------

  /** A lookup finds a term, finds nothing, or runs over the end of the arrays. */
  datatype Lookup = Found(term: nat) | Missing | OutOfBounds

  class TermSegments {
    var openTerm: nat
    var openStart: nat
    var count: nat
    const starts: array<nat>
    const terms: array<nat>
    ghost var closed: seq<Segment>

    ghost predicate Valid()
      reads this, starts, terms
    {
      && starts.Length == terms.Length == MAX_TERM_SEGMENTS && starts != terms
      && count == |closed|
      && forall k :: 0 <= k < count && k < MAX_TERM_SEGMENTS ==> closed[k] == Segment(starts[k], terms[k])
    }

    ghost function Model(): Segments
      reads this
    {
      Segments(closed, Segment(openStart, openTerm))
    }

    constructor ()
      ensures Valid() && fresh(starts) && fresh(terms) && Model() == EMPTY
    {
      openTerm, openStart, count, closed := 0, 0, 0, [];
      starts := new nat[MAX_TERM_SEGMENTS](_ => 0);
      terms := new nat[MAX_TERM_SEGMENTS](_ => 0);
    }

    method OnAppend(index: nat, term: nat)
      requires Valid()
      modifies this, starts, terms
      ensures Valid() && Model() == Push(old(Model()), index, term)
    {
      if term == openTerm {
        if index < openStart { openStart := index; }
        return;
      }
      if openTerm != 0 {
        if count < MAX_TERM_SEGMENTS {
          starts[count] := openStart;
          terms[count] := openTerm;
        }
        closed := closed + [Segment(openStart, openTerm)];
        count := count + 1;
      }
      openStart, openTerm := index, term;
    }

    /** The scan starts at the number of segments ever closed, stored or not. */
    method Get(index: nat) returns (r: Lookup)
      requires Valid()
      ensures r == if openTerm != 0 && index < openStart && count > MAX_TERM_SEGMENTS then OutOfBounds else
                   match TermOf(Model(), index) case Some(t) => Found(t) case None => Missing
    {
      if openTerm == 0 { return Missing; }
      if openStart <= index { return Found(openTerm); }
      var i := count;
      assert closed[..i] == closed;
      while 0 < i
        invariant i <= count == |closed| && (i < count ==> count <= MAX_TERM_SEGMENTS)
        invariant Scan(closed, index) == Scan(closed[..i], index)
      {
        if i > MAX_TERM_SEGMENTS { return OutOfBounds; }
        assert closed[..i][..i - 1] == closed[..i - 1];
        if starts[i - 1] <= index { return Found(terms[i - 1]); }
        i := i - 1;
      }
      return Missing;
    }

    method Clear()
      requires Valid()
      modifies this
      ensures Valid() && Model() == EMPTY
    {
      count, openTerm, openStart, closed := 0, 0, 0, [];
    }

    /** What the log tells the index: entries stored and resets, but no purge. */
    method Record(op: LogOp)
      requires Valid()
      modifies this, starts, terms
      ensures Valid() && Model() == IndexOp(old(Model()), op)
    {
      match op
      case Store(index, term) => OnAppend(index, term);
      case Purge(_) =>
      case Reset => Clear();
    }
  }

  /** One entry from each of the terms 1 to `n`. */
  function Elections(n: nat): seq<LogOp> { if n == 0 then [] else Elections(n - 1) + [Store(n, n)] }

  /** After `n` terms with an entry each, `n - 1` segments are closed: the 1026th term overflows the arrays. */
  lemma {:induction false} ElectionsClose(n: nat)
    requires n > 0
    ensures |IndexAfter(Elections(n)).closed| == n - 1 && IndexAfter(Elections(n)).open == Segment(n, n)
  {
    assert Elections(n)[..|Elections(n)| - 1] == Elections(n - 1);
    if n > 1 { ElectionsClose(n - 1); }
  }

  // ---- The fast append path --------------------------------------------------------------------------------

  /** All entries from index `start` on carry `term`: what the open segment says about the log. */
  ghost predicate OpenSegment(log: seq<Entry>, start: nat, term: nat)
  {
    forall i :: 0 <= i < |log| && start <= i + 1 ==> log[i].term == term
  }

  predicate Rising(es: seq<Entry>) { forall i, j :: 0 <= i <= j < |es| ==> es[i].term <= es[j].term }

  /** The overlap is taken as agreeing after a look at its first and its last entry only. */
  predicate Shortcut(log: seq<Entry>, start: nat, term: nat, prev: nat, es: seq<Entry>)
    requires prev <= |log|
  {
    var skip := Min(|es|, |log| - prev);
    skip == 0 || (start <= prev + 1 && es[0].term == term && es[skip - 1].term == term)
  }

  /** `filter_out_conflicts_and_append` after its consistency check, for `prev > 0`. */
  function FilterAndAppend(log: seq<Entry>, start: nat, term: nat, prev: nat, es: seq<Entry>): seq<Entry>
    requires prev <= |log|
  {
    if Shortcut(log, start, term, prev, es) then log + es[Min(|es|, |log| - prev)..] else
    var pos := Agreeing(log, prev, es);
    if pos == |es| then log
    else if prev + pos < |log| then log[..prev + pos] + es[pos..]
    else log + es[pos..]
  }

  lemma {:induction false} AgreeingAll(log: seq<Entry>, prev: nat, es: seq<Entry>, term: nat, skip: nat)
    requires prev <= |log| && skip == Min(|es|, |log| - prev)
    requires forall i :: prev <= i < |log| ==> log[i].term == term
    requires forall i :: 0 <= i < skip ==> es[i].term == term
    ensures Agreeing(log, prev, es) == skip
    decreases |es|
  {
    if skip > 0 {
      assert forall i :: 0 <= i < skip - 1 ==> es[1..][i].term == es[i + 1].term == term;
      AgreeingAll(log, prev + 1, es[1..], term, skip - 1);
    }
  }

  lemma {:induction false} AgreeingWithin(log: seq<Entry>, prev: nat, es: seq<Entry>)
    requires prev <= |log|
    ensures prev + Agreeing(log, prev, es) <= |log|
    decreases |es|
  {
    if es != [] && prev < |log| { AgreeingWithin(log, prev + 1, es[1..]); }
  }

  lemma {:induction false} AgreeingStops(log: seq<Entry>, prev: nat, es: seq<Entry>, i: nat)
    requires i < |es| && prev + i < |log| && log[prev + i].term != es[i].term
    ensures var k := Agreeing(log, prev, es); k <= i && log[prev + k].term != es[k].term
    decreases |es|
  {
    if log[prev].term == es[0].term { AgreeingStops(log, prev + 1, es[1..], i - 1); }
  }

  /** The whole overlap carries the term of the open segment. */
  predicate OneTerm(log: seq<Entry>, term: nat, prev: nat, es: seq<Entry>)
    requires prev <= |log|
  {
    forall i :: 0 <= i < |es| && i < |log| - prev ==> es[i].term == term
  }

  lemma SkippedConflict(log: seq<Entry>, start: nat, term: nat, prev: nat, es: seq<Entry>)
    requires prev <= |log| && OpenSegment(log, start, term)
    requires Shortcut(log, start, term, prev, es) && !OneTerm(log, term, prev, es)
    ensures FilterAndAppend(log, start, term, prev, es) != PaperLog(log, prev, es)
  {
    var i :| 0 <= i < |es| && i < |log| - prev && es[i].term != term;
    AgreeingStops(log, prev, es, i);
    var k := Agreeing(log, prev, es);
    assert FilterAndAppend(log, start, term, prev, es)[prev + k] == log[prev + k];
    assert PaperLog(log, prev, es)[prev + k] == es[k];
  }

  /**
   * The path with the constant-time overlap check stores what rules 3 and 4 of the Raft paper ask for,
   * exactly if the check is not fooled: it does not pass, or the whole overlap carries the open term.
   */
  lemma FastPathRefines(log: seq<Entry>, start: nat, term: nat, prev: nat, es: seq<Entry>)
    requires prev <= |log| && OpenSegment(log, start, term)
    ensures FilterAndAppend(log, start, term, prev, es) == PaperLog(log, prev, es)
            <==> !Shortcut(log, start, term, prev, es) || OneTerm(log, term, prev, es)
  {
    AgreeingWithin(log, prev, es);
    if Shortcut(log, start, term, prev, es) && !OneTerm(log, term, prev, es) {
      SkippedConflict(log, start, term, prev, es);
    } else {
      var skip := Min(|es|, |log| - prev);
      if Shortcut(log, start, term, prev, es) && skip > 0 { AgreeingAll(log, prev, es, term, skip); }
      var k := Agreeing(log, prev, es);
      if k < |es| && prev + k == |log| { assert log[..prev + k] == log; }
    }
  }

  /** Terms that never fall cannot fool the check. */
  lemma RisingRefines(log: seq<Entry>, start: nat, term: nat, prev: nat, es: seq<Entry>)
    requires prev <= |log| && OpenSegment(log, start, term) && Rising(es)
    ensures FilterAndAppend(log, start, term, prev, es) == PaperLog(log, prev, es)
  {
    hide FilterAndAppend, PaperLog, OpenSegment;
    FastPathRefines(log, start, term, prev, es);
    var skip := Min(|es|, |log| - prev);
    if Shortcut(log, start, term, prev, es) {
      forall i | 0 <= i < skip ensures es[i].term == term { assert es[0].term <= es[i].term <= es[skip - 1].term; }
    }
  }

  /** A request whose terms fall, which the code does not check for, gets past the check with a conflict. */
  lemma FallingTermsFool() returns (log: seq<Entry>, es: seq<Entry>)
    ensures |log| == 4 && OpenSegment(log, 1, 2)
    ensures FilterAndAppend(log, 1, 2, 1, es) == log && PaperLog(log, 1, es) == [log[0]] + es != log
  {
    var a, b := Entry(2, Noop), Entry(1, Noop);
    log, es := [a, a, a, a], [a, b, a];
    assert !OneTerm(log, 2, 1, es) by { assert es[1].term == 1; }
    AgreeingStops(log, 1, es, 1);
    assert Agreeing(log, 1, es) == 1 by { assert es[1..] == [b, a]; assert Agreeing(log, 2, es[1..]) == 0; }
    assert log[..2] + es[1..] == [log[0]] + es;
    assert log + es[3..] == log;
    assert ([log[0]] + es)[2] == b;
  }

  /** The log as a map from index to term. */
  function Terms(log: seq<Entry>): map<nat, nat> { map i | 0 < i <= |log| :: TermAt(log, i) }

  /** Storing `es` one after the other from index `first` on. */
  function Stores(first: nat, es: seq<Entry>): seq<LogOp> { seq(|es|, i requires 0 <= i < |es| => Store(first + i, es[i].term)) }

  function Replaced(log: seq<Entry>, n: nat, es: seq<Entry>): seq<Entry>
    requires n <= |log|
  {
    if es == [] then log else log[..n] + es
  }

  lemma ReplacedLast(log: seq<Entry>, n: nat, es: seq<Entry>)
    requires n <= |log| && es != []
    ensures var k := |es| - 1;
      n + k <= |Replaced(log, n, es[..k])| && Replaced(log, n, es[..k])[..n + k] + [es[k]] == Replaced(log, n, es)
  {
  }

  lemma StoresLast(ops: seq<LogOp>, first: nat, es: seq<Entry>)
    requires es != []
    ensures var k := |es| - 1; ops + Stores(first, es) == (ops + Stores(first, es[..k])) + [Store(first + k, es[k].term)]
  {
  }

  lemma LogAfterOne(ops: seq<LogOp>, op: LogOp)
    ensures LogAfter(ops + [op]) == ApplyOp(LogAfter(ops), op)
  {
    assert (ops + [op])[..|ops|] == ops;
  }

  /** Entries stored behind the first `n` replace whatever came after them. */
  lemma {:induction false} StoresLog(ops: seq<LogOp>, log: seq<Entry>, n: nat, es: seq<Entry>)
    requires LogAfter(ops) == Terms(log) && n <= |log|
    ensures LogAfter(ops + Stores(n + 1, es)) == Terms(Replaced(log, n, es))
    decreases |es|
  {
    hide LogAfter, Terms, ApplyOp, Replaced;
    if es == [] {
      assert ops + Stores(n + 1, es) == ops && Replaced(log, n, es) == log by { ReplacedNothing(log, n); }
    } else {
      var k := |es| - 1;
      StoresLog(ops, log, n, es[..k]);
      StoresLast(ops, n + 1, es);
      LogAfterOne(ops + Stores(n + 1, es[..k]), Store(n + 1 + k, es[k].term));
      ReplacedLast(log, n, es);
      OneStored(Replaced(log, n, es[..k]), n + k, es[k]);
    }
  }

  lemma ReplacedNothing(log: seq<Entry>, n: nat)
    requires n <= |log|
    ensures Replaced(log, n, []) == log
  {
  }

  lemma OneStored(log: seq<Entry>, n: nat, e: Entry)
    requires n <= |log|
    ensures ApplyOp(Terms(log), Store(n + 1, e.term)) == Terms(log[..n] + [e])
  {
  }

  /** The open segment of the index describes the tail of whatever log it was built for. */
  lemma OpenSegmentOf(ops: seq<LogOp>, log: seq<Entry>)
    requires Positive(ops) && LogAfter(ops) == Terms(log)
    ensures OpenSegment(log, IndexAfter(ops).open.start, IndexAfter(ops).open.term)
  {
    var s := IndexAfter(ops);
    forall i | 0 <= i < |log| && s.open.start <= i + 1 ensures log[i].term == s.open.term {
      assert i + 1 in LogAfter(ops);
      IndexFaithful(ops, i + 1);
    }
  }
}
