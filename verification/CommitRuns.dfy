/** Many calls of the commit handler over one committed log: what the worker gets in all, and what it applies. */
module CommitRuns {
  import Types

  import opened Commands
  import opened CommitHandler

  /** One call: where it starts and ends, which changes are refused, and how much the worker's channel takes. */
  datatype Call = Call(applied: nat, commit: nat, refused: Refusals, room: nat)

  /** Indexes start at one and are consecutive. */
  ghost predicate Indexed(log: seq<LogEntry>) { forall i :: 0 <= i < |log| ==> log[i].index == i + 1 }

  /** `pending_range`: the entries behind the applied index, up to the commit index. */
  function Range(log: seq<LogEntry>, c: Call): seq<LogEntry>
    requires c.commit <= |log|
  {
    if c.commit > c.applied then log[c.applied..c.commit] else []
  }

  /** What one call hands over to the worker. */
  function Handed(log: seq<LogEntry>, c: Call): seq<LogEntry>
    requires c.commit <= |log|
  {
    Delivered(Cut(Plan(Range(log, c), [], false, c.refused), c.room))
  }

  /** The last index a call hands over, or the index it starts behind. */
  function Top(log: seq<LogEntry>, c: Call): nat
    requires c.commit <= |log|
  {
    var d := Handed(log, c);
    if d == [] then c.applied else d[|d| - 1].index
  }

  /** The highest index handed over so far; before anything is, the index the run starts behind. */
  function High(log: seq<LogEntry>, start: nat, cs: seq<Call>): nat
    requires Within(log, cs)
  {
    if cs == [] then start else
    var n := |cs| - 1;
    Types.Max(High(log, start, cs[..n]), Top(log, cs[n]))
  }

  predicate Within(log: seq<LogEntry>, cs: seq<Call>) { forall i :: 0 <= i < |cs| ==> cs[i].commit <= |log| }

  /** Everything handed over by the calls, in order. */
  function Out(log: seq<LogEntry>, cs: seq<Call>): seq<LogEntry>
    requires Within(log, cs)
  {
    if cs == [] then [] else
    var n := |cs| - 1;
    Out(log, cs[..n]) + Handed(log, cs[n])
  }

  /** Calls over one log: none starts behind an index above what was handed over before it. */
  ghost predicate Calls(log: seq<LogEntry>, start: nat, cs: seq<Call>)
  {
    && Indexed(log) && Within(log, cs) && start <= |log|
    && forall i :: 0 <= i < |cs| ==> start <= cs[i].applied <= High(log, start, cs[..i])
  }

  // ---- Payload-carrying entries of a stretch of the log ------------------------------------------------------------

  /** `e` is the entry at its index, that index lies in the stretch, and it has a payload. */
  predicate Shown(log: seq<LogEntry>, lo: nat, hi: nat, e: LogEntry)
  {
    lo < e.index <= hi && e.index <= |log| && log[e.index - 1] == e && !e.content.Absent?
  }

  lemma {:induction false} VisiblePlus(a: seq<LogEntry>, b: seq<LogEntry>)
    ensures Visible(a + b) == Visible(a) + Visible(b)
  {
    if a == [] {
      assert a + b == b;
    } else {
      VisiblePlus(a[1..], b);
      assert (a + b)[1..] == a[1..] + b;
    }
  }

  lemma VisibleOne(e: LogEntry)
    ensures Visible([e]) == if e.content.Absent? then [] else [e]
  {
    assert [e][1..] == [];
  }

  /** One more entry of the stretch. */
  lemma VisibleNext(log: seq<LogEntry>, lo: nat, hi: nat)
    requires lo <= hi < |log|
    ensures Visible(log[lo..hi + 1]) == Visible(log[lo..hi]) + (if log[hi].content.Absent? then [] else [log[hi]])
  {
    assert log[lo..hi + 1] == log[lo..hi] + [log[hi]];
    VisiblePlus(log[lo..hi], [log[hi]]);
    VisibleOne(log[hi]);
  }

  predicate InIndexOrder(es: seq<LogEntry>) { forall i, j :: 0 <= i < j < |es| ==> es[i].index < es[j].index }

  lemma {:induction false} VisibleShown(log: seq<LogEntry>, lo: nat, hi: nat, e: LogEntry)
    requires Indexed(log) && lo <= hi <= |log|
    ensures e in Visible(log[lo..hi]) <==> Shown(log, lo, hi, e)
    decreases hi
  {
    if lo == hi {
      assert log[lo..hi] == [];
    } else {
      VisibleShown(log, lo, hi - 1, e);
      VisibleNext(log, lo, hi - 1);
      assert log[hi - 1].index == hi;
    }
  }

  lemma {:induction false} VisibleOrdered(log: seq<LogEntry>, lo: nat, hi: nat)
    requires Indexed(log) && lo <= hi <= |log|
    ensures InIndexOrder(Visible(log[lo..hi]))
    decreases hi
  {
    hide Visible;
    if lo == hi {
      assert log[lo..hi] == [];
      NothingVisible();
    } else {
      VisibleOrdered(log, lo, hi - 1);
      VisibleNext(log, lo, hi - 1);
      var a := Visible(log[lo..hi - 1]);
      forall i | 0 <= i < |a| ensures a[i].index < hi { VisibleShown(log, lo, hi - 1, a[i]); }
      assert log[hi - 1].index == hi;
    }
  }

  /** The payload-carrying entries of a stretch are those shown in it, in index order. */
  lemma VisibleIs(log: seq<LogEntry>, lo: nat, hi: nat)
    requires Indexed(log) && lo <= hi <= |log|
    ensures forall e :: e in Visible(log[lo..hi]) <==> Shown(log, lo, hi, e)
    ensures InIndexOrder(Visible(log[lo..hi]))
  {
    hide Visible, Shown;
    forall e ensures e in Visible(log[lo..hi]) <==> Shown(log, lo, hi, e) { VisibleShown(log, lo, hi, e); }
    VisibleOrdered(log, lo, hi);
  }

  /** A prefix of the payload-carrying entries is what a shorter stretch carries. */
  lemma {:induction false} PrefixIs(log: seq<LogEntry>, lo: nat, hi: nat, p: seq<LogEntry>)
    requires Indexed(log) && lo <= hi <= |log| && p <= Visible(log[lo..hi]) && p != []
    ensures var top := p[|p| - 1].index; lo < top <= hi && p == Visible(log[lo..top])
    decreases hi
  {
    if lo < hi {
      VisibleNext(log, lo, hi - 1);
      var a := Visible(log[lo..hi - 1]);
      if |p| <= |a| {
        assert p <= a;
        PrefixIs(log, lo, hi - 1, p);
      } else {
        assert p == Visible(log[lo..hi]);
      }
    }
  }

  // ---- One call ------------------------------------------------------------------------------------------------------

  /** A call hands over exactly what the log carries between where it starts and its last index. */
  lemma HandedIs(log: seq<LogEntry>, c: Call)
    requires Indexed(log) && c.commit <= |log| && c.applied <= |log|
    ensures c.applied <= Top(log, c) <= |log| && Handed(log, c) == Visible(log[c.applied..Top(log, c)])
    ensures Handed(log, c) == [] ==> Top(log, c) == c.applied
    ensures Handed(log, c) != [] ==> Top(log, c) <= c.commit && Shown(log, c.applied, c.commit, log[Top(log, c) - 1])
  {
    hide Delivered, Cut, Plan, Visible;
    var d := Handed(log, c);
    OrderedDelivery(Range(log, c), c.refused, c.room);
    if d != [] {
      assert Range(log, c) == log[c.applied..c.commit] by { NothingVisible(); }
      PrefixIs(log, c.applied, c.commit, d);
      VisibleIs(log, c.applied, Top(log, c));
      assert d[|d| - 1] in d;
    } else {
      assert log[c.applied..c.applied] == [];
      NothingVisible();
    }
  }

  lemma NothingVisible()
    ensures Visible([]) == []
  {
  }

  /** What a caller can see beforehand: the call has room for a delivery and a payload to deliver. */
  predicate Works(log: seq<LogEntry>, c: Call)
    requires c.commit <= |log|
  {
    c.room > 0 && exists i :: c.applied <= i < c.commit && !log[i].content.Absent?
  }

  lemma {:induction false} PlanHands(es: seq<LogEntry>, batch: seq<LogEntry>, refused: Refusals, room: nat)
    ensures Delivered(Cut(Plan(es, batch, false, refused), room)) != [] <==> room > 0 && batch + Visible(es) != []
    decreases |es|
  {
    if es == [] {
    } else if Barrier(es[0]) {
      CutPlus(Now(es[0], batch, false, refused), Plan(es[1..], [], FailedAfter(es[0], false, refused), refused), room);
    } else {
      PlanHands(es[1..], BatchAfter(es[0], batch), refused, room);
      assert Plan(es, batch, false, refused) == Plan(es[1..], BatchAfter(es[0], batch), false, refused);
    }
  }

  lemma WorksExactly(log: seq<LogEntry>, c: Call)
    requires Indexed(log) && c.commit <= |log|
    ensures Handed(log, c) != [] <==> Works(log, c)
  {
    hide Delivered, Cut, Plan, Visible;
    PlanHands(Range(log, c), [], c.refused, c.room);
    if c.applied < c.commit {
      VisibleIs(log, c.applied, c.commit);
      var v := Visible(log[c.applied..c.commit]);
      if v != [] { assert Shown(log, c.applied, c.commit, v[0]); }
      if i :| c.applied <= i < c.commit && !log[i].content.Absent? { assert Shown(log, c.applied, c.commit, log[i]); }
    } else {
      NothingVisible();
    }
  }

  // ---- Many calls ------------------------------------------------------------------------------------------------------

  lemma CallsInit(log: seq<LogEntry>, start: nat, cs: seq<Call>)
    requires Calls(log, start, cs) && cs != []
    ensures var n := |cs| - 1; Calls(log, start, cs[..n]) && start <= cs[n].applied <= High(log, start, cs[..n])
  {
    var n := |cs| - 1;
    forall i | 0 <= i < n ensures start <= cs[..n][i].applied <= High(log, start, cs[..n][..i]) {
      assert cs[..n][..i] == cs[..i];
    }
  }

  /** Nothing is handed over beyond the highest index, and above the start that index carries a payload. */
  lemma {:induction false} HighIs(log: seq<LogEntry>, start: nat, cs: seq<Call>)
    requires Calls(log, start, cs)
    ensures var h := High(log, start, cs); start <= h <= |log| && (start < h ==> !log[h - 1].content.Absent?)
    decreases |cs|
  {
    hide Visible, Handed, Top;
    if cs != [] {
      var n := |cs| - 1;
      CallsInit(log, start, cs);
      HighIs(log, start, cs[..n]);
      HandedIs(log, cs[n]);
    }
  }

  lemma NothingBetween(log: seq<LogEntry>, lo: nat, e: LogEntry)
    ensures !Shown(log, lo, lo, e)
  {
  }

  lemma Stretches(log: seq<LogEntry>, start: nat, h: nat, lo: nat, top: nat, e: LogEntry)
    requires start <= lo <= h && lo <= top
    ensures Shown(log, start, h, e) || Shown(log, lo, top, e) <==> Shown(log, start, Types.Max(h, top), e)
  {
  }

  /**
   * No gaps: after any number of calls, whatever was refused and wherever the worker's channel was
   * full, exactly the payload-carrying entries up to the highest index handed over have been handed
   * over.
   */
  lemma {:induction false} NoGaps(log: seq<LogEntry>, start: nat, cs: seq<Call>, e: LogEntry)
    requires Calls(log, start, cs)
    ensures e in Out(log, cs) <==> Shown(log, start, High(log, start, cs), e)
    decreases |cs|
  {
    hide Visible, Handed, Top, Shown;
    assert cs == [] ==> !Shown(log, start, start, e) by { NothingBetween(log, start, e); }
    if cs != [] {
      var n := |cs| - 1;
      CallsInit(log, start, cs);
      NoGaps(log, start, cs[..n], e);
      HighIs(log, start, cs[..n]);
      HandedIs(log, cs[n]);
      VisibleIs(log, cs[n].applied, Top(log, cs[n]));
      Stretches(log, start, High(log, start, cs[..n]), cs[n].applied, Top(log, cs[n]), e);
    }
  }

  /** Every call that has something to deliver starts behind the last index handed over. */
  ghost predicate CaughtUp(log: seq<LogEntry>, start: nat, cs: seq<Call>)
    requires Within(log, cs)
  {
    forall i :: 0 <= i < |cs| && Works(log, cs[i]) ==> cs[i].applied == High(log, start, cs[..i])
  }

  lemma CaughtUpLast(log: seq<LogEntry>, start: nat, cs: seq<Call>)
    requires Within(log, cs) && cs != []
    ensures var n := |cs| - 1;
      CaughtUp(log, start, cs) <==>
      CaughtUp(log, start, cs[..n]) && (Works(log, cs[n]) ==> cs[n].applied == High(log, start, cs[..n]))
  {
    var n := |cs| - 1;
    hide Works, High;
    assert forall i :: 0 <= i < n ==> cs[..n][i] == cs[i] && cs[..n][..i] == cs[..i];
  }

  /** If every call has caught up, the worker gets the log's payload-carrying entries in order, each once. */
  lemma {:induction false} CaughtUpStream(log: seq<LogEntry>, start: nat, cs: seq<Call>)
    requires Calls(log, start, cs) && CaughtUp(log, start, cs)
    ensures High(log, start, cs) <= |log| && start <= High(log, start, cs)
    ensures Out(log, cs) == Visible(log[start..High(log, start, cs)])
    decreases |cs|
  {
    hide Visible, Works, Handed, Top, CaughtUp, Calls;
    HighIs(log, start, cs);
    if cs == [] {
      assert log[start..start] == [];
      NothingVisible();
    } else {
      CaughtUpStep(log, start, cs);
    }
  }

  lemma {:induction false} CaughtUpStep(log: seq<LogEntry>, start: nat, cs: seq<Call>)
    requires Calls(log, start, cs) && CaughtUp(log, start, cs) && cs != []
    requires start <= High(log, start, cs) <= |log|
    ensures Out(log, cs) == Visible(log[start..High(log, start, cs)])
    decreases |cs|, 0
  {
    hide Visible, Works, Handed, CaughtUp;
    var n := |cs| - 1;
    CallsInit(log, start, cs);
    CaughtUpLast(log, start, cs);
    CaughtUpStream(log, start, cs[..n]);
    HandedIs(log, cs[n]);
    WorksExactly(log, cs[n]);
    var h, top := High(log, start, cs[..n]), Top(log, cs[n]);
    if Handed(log, cs[n]) != [] {
      assert log[start..top] == log[start..h] + log[h..top];
      VisiblePlus(log[start..h], log[h..top]);
    }
  }

  /** No index twice. */
  predicate Distinct(es: seq<LogEntry>) { forall i, j :: 0 <= i < j < |es| ==> es[i].index != es[j].index }

  lemma DistinctInit(a: seq<LogEntry>, b: seq<LogEntry>)
    requires Distinct(a + b)
    ensures Distinct(a)
  {
    var c := a + b;
    forall i, j | 0 <= i < j < |a| ensures a[i].index != a[j].index { assert c[i].index != c[j].index; }
  }

  lemma TwiceOver(a: seq<LogEntry>, b: seq<LogEntry>, e: LogEntry)
    requires e in a && e in b
    ensures !Distinct(a + b)
  {
    var c := a + b;
    var i :| 0 <= i < |a| && a[i] == e;
    var j :| 0 <= j < |b| && b[j] == e;
    assert c[i].index == c[|a| + j].index;
  }

  /** A call that starts further back hands over an entry that has been handed over before. */
  lemma LaggingRepeats(log: seq<LogEntry>, start: nat, cs: seq<Call>, c: Call)
    requires Calls(log, start, cs) && c.commit <= |log| && Works(log, c)
    requires start <= c.applied < High(log, start, cs)
    ensures !Distinct(Out(log, cs) + Handed(log, c))
  {
    hide Handed, Out, Works, Calls;
    CallsIndexed(log, start, cs);
    HighIs(log, start, cs);
    var h := High(log, start, cs);
    HandedIs(log, c);
    WorksExactly(log, c);
    VisibleIs(log, c.applied, Top(log, c));
    var top := Top(log, c);
    var e := log[(if top < h then top else h) - 1];
    assert Shown(log, c.applied, top, e) && Shown(log, start, h, e);
    NoGaps(log, start, cs, e);
    TwiceOver(Out(log, cs), Handed(log, c), e);
  }

  lemma CallsIndexed(log: seq<LogEntry>, start: nat, cs: seq<Call>)
    requires Calls(log, start, cs)
    ensures Indexed(log) && Within(log, cs)
  {
  }

  lemma {:induction false} DistinctCaughtUp(log: seq<LogEntry>, start: nat, cs: seq<Call>)
    requires Calls(log, start, cs) && Distinct(Out(log, cs))
    ensures CaughtUp(log, start, cs)
    decreases |cs|
  {
    hide Handed, Works, Calls, Distinct;
    if cs != [] {
      var n := |cs| - 1;
      CallsInit(log, start, cs);
      assert Within(log, cs) by { CallsIndexed(log, start, cs); }
      DistinctInit(Out(log, cs[..n]), Handed(log, cs[n]));
      DistinctCaughtUp(log, start, cs[..n]);
      if Works(log, cs[n]) && cs[n].applied < High(log, start, cs[..n]) { LaggingRepeats(log, start, cs[..n], cs[n]); }
      CaughtUpLast(log, start, cs);
    }
  }

  /**
   * Nothing is handed over twice exactly if every call that has something to deliver starts behind the
   * last index handed over; then the worker gets the log's payload-carrying entries in log order.
   */
  lemma NoRepeatsExactly(log: seq<LogEntry>, start: nat, cs: seq<Call>)
    requires Calls(log, start, cs)
    ensures Distinct(Out(log, cs)) <==> CaughtUp(log, start, cs)
    ensures CaughtUp(log, start, cs) ==> InIndexOrder(Out(log, cs))
  {
    hide Out, CaughtUp;
    if CaughtUp(log, start, cs) {
      CaughtUpStream(log, start, cs);
      VisibleIs(log, start, High(log, start, cs));
    }
    if Distinct(Out(log, cs)) { DistinctCaughtUp(log, start, cs); }
  }

  /** A second call while only index 1 is applied hands over index 2 again. */
  lemma LagRepeats(a: LogEntry, b: LogEntry, c: LogEntry)
    requires a.index == 1 && b.index == 2 && c.index == 3
    requires a.content.NoopEntry? && b.content.NoopEntry? && c.content.NoopEntry?
    ensures var log, cs := [a, b, c], [Call(0, 2, {}, 2), Call(1, 3, {}, 2)];
      Calls(log, 0, cs) && Out(log, cs) == [a, b, b, c]
  {
    hide Visible, Plan, Cut, Delivered;
    var log, x, y := [a, b, c], Call(0, 2, {}, 2), Call(1, 3, {}, 2);
    assert log[0..2] == [a, b] && log[1..3] == [b, c];
    TwoNoops(a, b);
    TwoNoops(b, c);
    var cs := [x, y];
    assert cs[..0] == [] && cs[..1] == [x] && [x][..0] == [];
    assert Out(log, [x]) == [a, b] && High(log, 0, [x]) == 2;
  }

  lemma TwoNoops(a: LogEntry, b: LogEntry)
    requires a.content.NoopEntry? && b.content.NoopEntry?
    ensures Delivered(Cut(Plan([a, b], [], false, {}), 2)) == [a, b]
  {
    assert [a, b][1..] == [b] && [b][1..] == [];
    assert [] + [a] == [a] && [] + [b] == [b];
    var p := [Deliver([b])];
    assert Plan([b], [], false, {}) == p && p[1..] == [] && Delivered(p) == [b];
    var q := [Deliver([a])] + p;
    assert Plan([a, b], [], false, {}) == q && q[1..] == p;
    assert Cut(p, 1) == p && Cut(q, 2) == [q[0]] + Cut(p, 1);
    assert Delivered(q) == [a] + Delivered(p);
  }

  // ---- What the worker applies ----------------------------------------------------------------------------------------

  /** The worker decodes one delivery after the other. */
  function DecodePlan(plan: seq<Action>): Result<seq<ApplyEntry>>
  {
    if plan == [] then Ok([])
    else if !plan[0].Deliver? then DecodePlan(plan[1..])
    else match (DecodeAll(plan[0].batch), DecodePlan(plan[1..]))
      case (Ok(xs), Ok(ys)) => Ok(xs + ys)
      case _ => Err
  }

  /** Where the batches are cut makes no difference to what is decoded. */
  lemma {:induction false} DecodeInBatches(plan: seq<Action>)
    ensures DecodePlan(plan) == DecodeAll(Delivered(plan))
  {
    if plan != [] {
      DecodeInBatches(plan[1..]);
      if plan[0].Deliver? { DecodePlus(plan[0].batch, Delivered(plan[1..])); }
    }
  }

  /** No change is refused, the worker takes every delivery, and every delivery decodes. */
  predicate ErrorFree(log: seq<LogEntry>, c: Call)
    requires c.commit <= |log|
  {
    var plan := Plan(Range(log, c), [], false, c.refused);
    !AnyRefused(Range(log, c), c.refused) && Cut(plan, c.room) == plan && DecodePlan(plan).Ok?
  }

  function AppliedEntries(log: seq<LogEntry>, c: Call): seq<ApplyEntry>
    requires c.commit <= |log| && ErrorFree(log, c)
  {
    DecodePlan(Plan(Range(log, c), [], false, c.refused)).value
  }

  /**
   * A call without errors applies every payload-carrying entry of its range, in order, under its own
   * index and term and with the command that was written; the applied indexes are the consecutive ones from behind the applied index to the
   * commit index exactly if no entry of the range lacks its payload.
   */
  lemma ErrorFreeCall(log: seq<LogEntry>, c: Call)
    requires Indexed(log) && c.applied <= c.commit <= |log| && ErrorFree(log, c)
    ensures var xs, es := AppliedEntries(log, c), Visible(log[c.applied..c.commit]);
      && |xs| == |es|
      && (forall i :: 0 <= i < |xs| ==> xs[i].index == es[i].index && xs[i].term == es[i].term)
      && (forall i, a :: 0 <= i < |xs| ==> (xs[i].command == a <==> Asks(es[i].content, a)))
      && ((|xs| == c.commit - c.applied && forall i :: 0 <= i < |xs| ==> xs[i].index == c.applied + 1 + i)
          <==> forall i :: c.applied <= i < c.commit ==> !log[i].content.Absent?)
  {
    hide Plan, Cut, Delivered, Visible, DecodePlan, AnyRefused, Asks;
    var es := Visible(log[c.applied..c.commit]);
    RangeIs(log, c);
    OrderedDelivery(Range(log, c), c.refused, c.room);
    DecodeInBatches(Plan(Range(log, c), [], false, c.refused));
    DecodeKeeps(es);
    forall i, a | 0 <= i < |es| ensures DecodeAll(es).value[i].command == a <==> Asks(es[i].content, a) { DecodesCommand(es, i, a); }
    GapFree(Range(log, c));
    FullStretch(log, c.applied, c.commit);
  }

  lemma RangeIs(log: seq<LogEntry>, c: Call)
    requires c.applied <= c.commit <= |log|
    ensures Range(log, c) == log[c.applied..c.commit]
  {
  }

  lemma FullStretch(log: seq<LogEntry>, lo: nat, hi: nat)
    requires Indexed(log) && lo <= hi <= |log|
    ensures var es := Visible(log[lo..hi]);
      (|es| == hi - lo && forall i :: 0 <= i < |es| ==> es[i].index == lo + 1 + i)
      <==> forall i :: lo <= i < hi ==> !log[i].content.Absent?
  {
    hide Visible;
    var es, s := Visible(log[lo..hi]), log[lo..hi];
    VisibleIs(log, lo, hi);
    GapFree(s);
    if |es| == |s| && forall i :: 0 <= i < |es| ==> es[i].index == lo + 1 + i {
      forall i | lo <= i < hi ensures !log[i].content.Absent? { assert es[i - lo] in es; }
    }
    if forall i :: lo <= i < hi ==> !log[i].content.Absent? { assert forall i :: 0 <= i < |s| ==> s[i] == log[lo + i]; }
  }
}
