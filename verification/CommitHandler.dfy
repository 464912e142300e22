/** Handing committed entries to the state machine worker, with barriers at configuration entries. */
module CommitHandler {
  import opened Commands

  /** What the handler does, in order. */
  datatype Action = Deliver(batch: seq<LogEntry>) | ApplyConfig(index: nat, ok: bool)

  datatype Outcome = Done | ConfigFailed | WorkerGone

  // ---- The steps for a range of entries ------------------------------------------------------------------

  /** Which configuration changes the membership refuses. */
  type Refusals = set<nat>

  function Flushed(batch: seq<LogEntry>): seq<Action> { if batch == [] then [] else [Deliver(batch)] }

  predicate Collects(e: LogEntry) { e.content.Write? || e.content.Unreadable? }

  predicate Barrier(e: LogEntry) { e.content.NoopEntry? || e.content.ConfigEntry? }

  /** What entry `e` leads to at once, with `batch` collected and `failed` a change refused before. */
  function Now(e: LogEntry, batch: seq<LogEntry>, failed: bool, refused: Refusals): seq<Action>
  {
    if !Barrier(e) then []
    else if e.content.NoopEntry? || failed then [Deliver(batch + [e])]
    else [Deliver(batch + [e]), ApplyConfig(e.index, e.index !in refused)]
  }

  function BatchAfter(e: LogEntry, batch: seq<LogEntry>): seq<LogEntry>
  {
    if Barrier(e) then [] else if Collects(e) then batch + [e] else batch
  }

  predicate FailedAfter(e: LogEntry, failed: bool, refused: Refusals)
  {
    failed || (e.content.ConfigEntry? && e.index in refused)
  }

  /** `process_batch` for the remaining entries. */
  function Plan(es: seq<LogEntry>, batch: seq<LogEntry>, failed: bool, refused: Refusals): seq<Action>
    decreases |es|
  {
    if es == [] then (if failed then [] else Flushed(batch)) else
    Now(es[0], batch, failed, refused)
    + Plan(es[1..], BatchAfter(es[0], batch), FailedAfter(es[0], failed, refused), refused)
  }

  /** The part of a plan before the delivery that finds the worker gone. */
  function Cut(plan: seq<Action>, room: nat): seq<Action>
  {
    if plan == [] || (plan[0].Deliver? && room == 0) then []
    else [plan[0]] + Cut(plan[1..], if plan[0].Deliver? then room - 1 else room)
  }

  // ---- The handler ------------------------------------------------------------------------------------------

  class Handler {
    var done: seq<Action>
    var room: nat            // deliveries the worker's channel still takes

    constructor (n: nat)
      ensures done == [] && room == n
    {
      done, room := [], n;
    }

    method SendToWorker(batch: seq<LogEntry>) returns (ok: bool)
      modifies this
      ensures ok == (batch == [] || old(room) > 0)
      ensures done == old(done) + (if ok then Flushed(batch) else [])
      ensures room == old(room) - (if ok then |Flushed(batch)| else 0)
    {
      if batch == [] { return true; }
      if room == 0 { return false; }
      done, room := done + [Deliver(batch)], room - 1;
      return true;
    }

    method HandleEntry(e: LogEntry, batch: seq<LogEntry>, failed: bool, refused: Refusals)
      returns (ok: bool, batch': seq<LogEntry>, failed': bool)
      modifies this
      ensures done == old(done) + Cut(Now(e, batch, failed, refused), old(room))
      ensures ok <==> Cut(Now(e, batch, failed, refused), old(room)) == Now(e, batch, failed, refused)
      ensures ok ==> room == old(room) - Deliveries(Now(e, batch, failed, refused))
      ensures ok ==> batch' == BatchAfter(e, batch) && failed' == FailedAfter(e, failed, refused)
    {
      ok, batch', failed' := true, batch, failed;
      if Collects(e) {
        batch' := batch + [e];
      } else if Barrier(e) {
        CutNow(e, batch, failed, refused, room);
        ok := SendToWorker(batch + [e]);
        if !ok { return; }
        batch' := [];
        if e.content.ConfigEntry? && !failed {
          done := done + [ApplyConfig(e.index, e.index !in refused)];
          failed' := e.index in refused;
        }
      }
    }

    method ProcessBatch(es: seq<LogEntry>, refused: Refusals) returns (r: Outcome)
      modifies this
      ensures done == old(done) + Cut(Plan(es, [], false, refused), old(room))
      ensures r.WorkerGone? <==> Cut(Plan(es, [], false, refused), old(room)) != Plan(es, [], false, refused)
      ensures r.Done? ==> !AnyRefused(es, refused)
      ensures r.ConfigFailed? ==> AnyRefused(es, refused)
    {
      hide Now, BatchAfter, FailedAfter, Cut;
      ghost var plan := Plan(es, [], false, refused);
      var batch: seq<LogEntry>, failed := [], false;
      var k := 0;
      assert es[0..] == es;
      while k < |es|
        invariant k <= |es|
        invariant done + Cut(Plan(es[k..], batch, failed, refused), room) == old(done) + Cut(plan, old(room))
        invariant Cut(Plan(es[k..], batch, failed, refused), room) == Plan(es[k..], batch, failed, refused)
             <==> Cut(plan, old(room)) == plan
        invariant failed == AnyRefused(es[..k], refused)
      {
        var e := es[k];
        assert es[k..][0] == e && es[k..][1..] == es[k + 1..];
        ghost var now := Now(e, batch, failed, refused);
        ghost var later := Plan(es[k + 1..], BatchAfter(e, batch), FailedAfter(e, failed, refused), refused);
        CutPlus(now, later, room);
        if Cut(now, room) == now { Cancel(now, Cut(later, room - Deliveries(now)), later); }
        var ok;
        ok, batch, failed := HandleEntry(e, batch, failed, refused);
        if !ok { return WorkerGone; }
        RefusedNext(es, k, refused);
        k := k + 1;
      }
      assert es[..k] == es;
      CutFlushed(batch, room);
      if failed { return ConfigFailed; }
      var ok := SendToWorker(batch);
      return if ok then Done else WorkerGone;
    }
  }

  predicate AnyRefused(es: seq<LogEntry>, refused: Refusals)
  {
    exists i :: 0 <= i < |es| && es[i].content.ConfigEntry? && es[i].index in refused
  }

  lemma RefusedNext(es: seq<LogEntry>, k: nat, refused: Refusals)
    requires k < |es|
    ensures AnyRefused(es[..k + 1], refused) <==> FailedAfter(es[k], AnyRefused(es[..k], refused), refused)
  {
    var a, b := es[..k], es[..k + 1];
    if AnyRefused(a, refused) {
      var i :| 0 <= i < |a| && a[i].content.ConfigEntry? && a[i].index in refused;
      assert b[i] == a[i];
    }
    if AnyRefused(b, refused) {
      var i :| 0 <= i < |b| && b[i].content.ConfigEntry? && b[i].index in refused;
      if i < k { assert a[i] == b[i]; }
    }
    assert b[k] == es[k];
  }

  function Deliveries(plan: seq<Action>): nat
  {
    if plan == [] then 0 else Deliveries(plan[1..]) + (if plan[0].Deliver? then 1 else 0)
  }

  lemma CutNow(e: LogEntry, batch: seq<LogEntry>, failed: bool, refused: Refusals, room: nat)
    ensures var now := Now(e, batch, failed, refused);
      Cut(now, room) == if room == 0 then [] else now
    ensures Deliveries(Now(e, batch, failed, refused)) == if Barrier(e) then 1 else 0
  {
    var now := Now(e, batch, failed, refused);
    if |now| == 2 {
      assert now[1..] == [now[1]] && now[1..][1..] == [];
      assert Cut([now[1]], if room > 0 then room - 1 else 0) == [now[1]] && Deliveries([now[1]]) == 0;
    }
  }

  /** Cutting a plan in two parts: the second part is reached only if the first is complete. */
  lemma {:induction false} CutPlus(a: seq<Action>, b: seq<Action>, room: nat)
    ensures Cut(a, room) == a ==> Deliveries(a) <= room && Cut(a + b, room) == a + Cut(b, room - Deliveries(a))
    ensures Cut(a, room) != a ==> Cut(a + b, room) == Cut(a, room) && Cut(a + b, room) != a + b
    decreases |a|
  {
    if a == [] {
      assert a + b == b;
    } else {
      assert (a + b)[1..] == a[1..] + b && a == [a[0]] + a[1..];
      if !(a[0].Deliver? && room == 0) {
        CutPlus(a[1..], b, if a[0].Deliver? then room - 1 else room);
        assert a + b == [a[0]] + (a[1..] + b);
      }
    }
  }

  lemma Cancel(a: seq<Action>, b: seq<Action>, c: seq<Action>)
    ensures a + b == a + c <==> b == c
  {
    assert (a + b)[|a|..] == b && (a + c)[|a|..] == c;
  }

  lemma CutFlushed(batch: seq<LogEntry>, room: nat)
    ensures Cut(Flushed(batch), room) == if batch == [] || room > 0 then Flushed(batch) else []
    ensures Cut([], room) == []
  {
  }

  // ---- Ordered delivery --------------------------------------------------------------------------------------

  /** The entries that carry a payload. */
  function Visible(es: seq<LogEntry>): seq<LogEntry>
  {
    if es == [] then [] else
    var rest := Visible(es[1..]);
    if es[0].content.Absent? then rest else [es[0]] + rest
  }

  /** Everything delivered, in order. */
  function Delivered(plan: seq<Action>): seq<LogEntry>
  {
    if plan == [] then [] else if plan[0].Deliver? then plan[0].batch + Delivered(plan[1..]) else Delivered(plan[1..])
  }

  /** What is still collected when the handler gives up after a refused change. */
  function Unsent(es: seq<LogEntry>, batch: seq<LogEntry>, failed: bool, refused: Refusals): seq<LogEntry>
    decreases |es|
  {
    if es == [] then (if failed then batch else [])
    else Unsent(es[1..], BatchAfter(es[0], batch), FailedAfter(es[0], failed, refused), refused)
  }

  lemma {:induction false} DeliveredPlus(a: seq<Action>, b: seq<Action>)
    ensures Delivered(a + b) == Delivered(a) + Delivered(b)
    decreases |a|
  {
    if a == [] {
      assert a + b == b;
    } else {
      DeliveredPlus(a[1..], b);
      assert (a + b)[1..] == a[1..] + b;
    }
  }

  lemma DeliveredNow(e: LogEntry, batch: seq<LogEntry>, failed: bool, refused: Refusals)
    ensures Delivered(Now(e, batch, failed, refused)) == if Barrier(e) then batch + [e] else []
  {
    var now := Now(e, batch, failed, refused);
    if |now| == 2 { assert now[1..] == [now[1]] && Delivered([now[1]]) == []; }
  }

  /** Every entry with a payload is delivered exactly once, in order, or left in the unsent rest. */
  lemma {:induction false} PlanDelivers(es: seq<LogEntry>, batch: seq<LogEntry>, failed: bool, refused: Refusals)
    ensures Delivered(Plan(es, batch, failed, refused)) + Unsent(es, batch, failed, refused) == batch + Visible(es)
    decreases |es|
  {
    hide Plan, Delivered, Now, Visible, Unsent, BatchAfter, FailedAfter, Barrier;
    if es == [] {
      PlanEnd(batch, failed, refused);
    } else {
      var e := es[0];
      var b, f := BatchAfter(e, batch), FailedAfter(e, failed, refused);
      PlanDelivers(es[1..], b, f, refused);
      PlanStep(es, batch, failed, refused);
      RestStep(es, batch, failed, refused);
      Regroup(batch, e, Delivered(Plan(es[1..], b, f, refused)), Unsent(es[1..], b, f, refused), Visible(es[1..]));
    }
  }

  lemma RestStep(es: seq<LogEntry>, batch: seq<LogEntry>, failed: bool, refused: Refusals)
    requires es != []
    ensures Visible(es) == if es[0].content.Absent? then Visible(es[1..]) else [es[0]] + Visible(es[1..])
    ensures Unsent(es, batch, failed, refused) == Unsent(es[1..], BatchAfter(es[0], batch), FailedAfter(es[0], failed, refused), refused)
  {
  }

  lemma PlanEnd(batch: seq<LogEntry>, failed: bool, refused: Refusals)
    ensures Delivered(Plan([], batch, failed, refused)) + Unsent([], batch, failed, refused) == batch + Visible([])
  {
    assert Delivered(Flushed(batch)) == batch;
  }

  lemma PlanStep(es: seq<LogEntry>, batch: seq<LogEntry>, failed: bool, refused: Refusals)
    requires es != []
    ensures var e := es[0];
      Delivered(Plan(es, batch, failed, refused))
      == (if Barrier(e) then batch + [e] else [])
         + Delivered(Plan(es[1..], BatchAfter(e, batch), FailedAfter(e, failed, refused), refused))
  {
    hide Now, BatchAfter, FailedAfter;
    var e := es[0];
    DeliveredNow(e, batch, failed, refused);
    DeliveredPlus(Now(e, batch, failed, refused),
                  Plan(es[1..], BatchAfter(e, batch), FailedAfter(e, failed, refused), refused));
  }

  /** With the rest `d` delivered and `u` unsent, the parts around entry `e` add up. */
  lemma Regroup(batch: seq<LogEntry>, e: LogEntry, d: seq<LogEntry>, u: seq<LogEntry>, v: seq<LogEntry>)
    requires d + u == BatchAfter(e, batch) + v
    ensures ((if Barrier(e) then batch + [e] else []) + d) + u == batch + (if e.content.Absent? then v else [e] + v)
  {
    if Barrier(e) {
      assert d + u == v;
      assert (batch + [e] + d) + u == batch + [e] + (d + u);
    } else if Collects(e) {
      assert (batch + [e]) + v == batch + ([e] + v);
    }
  }

  predicate AllCollect(xs: seq<LogEntry>) { forall i :: 0 <= i < |xs| ==> Collects(xs[i]) }

  /** The unsent rest holds only client commands, and there is none unless a change was refused. */
  lemma {:induction false} UnsentCommands(es: seq<LogEntry>, batch: seq<LogEntry>, failed: bool, refused: Refusals)
    requires AllCollect(batch)
    ensures AllCollect(Unsent(es, batch, failed, refused))
    ensures !failed && !AnyRefused(es, refused) ==> Unsent(es, batch, failed, refused) == []
    decreases |es|
  {
    if es != [] {
      UnsentCommands(es[1..], BatchAfter(es[0], batch), FailedAfter(es[0], failed, refused), refused);
      if AnyRefused(es[1..], refused) {
        var i :| 0 <= i < |es[1..]| && es[1..][i].content.ConfigEntry? && es[1..][i].index in refused;
        assert es[i + 1] == es[1..][i];
      }
      if es[0].content.ConfigEntry? && es[0].index in refused { assert AnyRefused(es, refused); }
    }
  }

  lemma {:induction false} CutPrefix(plan: seq<Action>, room: nat)
    ensures Cut(plan, room) <= plan && Delivered(Cut(plan, room)) <= Delivered(plan)
  {
    if plan != [] && !(plan[0].Deliver? && room == 0) {
      CutPrefix(plan[1..], if plan[0].Deliver? then room - 1 else room);
      var rest := Cut(plan[1..], if plan[0].Deliver? then room - 1 else room);
      assert ([plan[0]] + rest)[1..] == rest;
    }
  }

  /**
   * Ordered delivery: whatever fails, the worker gets a prefix of the entries with a payload, in
   * log order and without repeats; if nothing fails it gets all of them; after a refused change
   * alone, what is missing are client commands only.
   */
  lemma OrderedDelivery(es: seq<LogEntry>, refused: Refusals, room: nat)
    ensures Delivered(Cut(Plan(es, [], false, refused), room)) <= Visible(es)
    ensures !AnyRefused(es, refused) && Cut(Plan(es, [], false, refused), room) == Plan(es, [], false, refused) ==>
      Delivered(Cut(Plan(es, [], false, refused), room)) == Visible(es)
    ensures Cut(Plan(es, [], false, refused), room) == Plan(es, [], false, refused) ==>
      var d := Delivered(Plan(es, [], false, refused));
      d <= Visible(es) && forall i :: |d| <= i < |Visible(es)| ==> Visible(es)[i].content.Write? || Visible(es)[i].content.Unreadable?
  {
    hide Plan, Cut, Delivered, Unsent, Collects, AnyRefused, Visible;
    var plan := Plan(es, [], false, refused);
    PlanDelivers(es, [], false, refused);
    UnsentCommands(es, [], false, refused);
    CutPrefix(plan, room);
    var d, u := Delivered(plan), Unsent(es, [], false, refused);
    assert d + u == Visible(es);
    forall i | |d| <= i < |Visible(es)| ensures Visible(es)[i].content.Write? || Visible(es)[i].content.Unreadable? {
      assert Visible(es)[i] == u[i - |d|];
      CommandsOnly(u[i - |d|]);
    }
  }

  lemma CommandsOnly(e: LogEntry)
    ensures Collects(e) <==> e.content.Write? || e.content.Unreadable?
    ensures Barrier(e) <==> e.content.NoopEntry? || e.content.ConfigEntry?
  {
  }

  lemma {:induction false} VisibleHas(es: seq<LogEntry>, e: LogEntry)
    ensures e in Visible(es) <==> e in es && !e.content.Absent?
  {
    if es != [] {
      VisibleHas(es[1..], e);
      assert es == [es[0]] + es[1..];
    }
  }

  /** Every no-op and every configuration entry is delivered as long as the worker takes deliveries, whatever is refused. */
  lemma BarriersDelivered(es: seq<LogEntry>, refused: Refusals, room: nat, e: LogEntry)
    requires Cut(Plan(es, [], false, refused), room) == Plan(es, [], false, refused)
    requires e in es && (e.content.NoopEntry? || e.content.ConfigEntry?)
    ensures e in Delivered(Plan(es, [], false, refused))
  {
    hide Plan, Cut, Delivered, AnyRefused, Visible;
    OrderedDelivery(es, refused, room);
    VisibleHas(es, e);
    var d := Delivered(Plan(es, [], false, refused));
    var i :| 0 <= i < |Visible(es)| && Visible(es)[i] == e;
    assert i < |d| && d[i] == e;
  }

  predicate IsCommand(e: LogEntry) { e.content.Write? || e.content.Unreadable? }

  /** No delivery is empty or carries anything but commands before its last entry; all but the final one end in a barrier. */
  predicate Split(plan: seq<Action>)
  {
    forall i :: 0 <= i < |plan| && plan[i].Deliver? ==>
      var b := plan[i].batch;
      && b != [] && (forall j :: 0 <= j < |b| - 1 ==> IsCommand(b[j]))
      && (i + 1 < |plan| ==> b[|b| - 1].content.NoopEntry? || b[|b| - 1].content.ConfigEntry?)
  }

  predicate EndsInBarrier(b: seq<LogEntry>) { b != [] && (b[|b| - 1].content.NoopEntry? || b[|b| - 1].content.ConfigEntry?) }

  lemma SplitPlus(a: seq<Action>, b: seq<Action>)
    requires Split(a) && Split(b) && forall i :: 0 <= i < |a| && a[i].Deliver? ==> EndsInBarrier(a[i].batch)
    ensures Split(a + b)
  {
    hide IsCommand;
    var c := a + b;
    forall i | 0 <= i < |c| && c[i].Deliver? && i + 1 < |c| ensures EndsInBarrier(c[i].batch) {
      if i >= |a| { assert c[i] == b[i - |a|]; }
    }
  }

  lemma NowSplit(e: LogEntry, batch: seq<LogEntry>, failed: bool, refused: Refusals)
    requires forall j :: 0 <= j < |batch| ==> IsCommand(batch[j])
    ensures var now := Now(e, batch, failed, refused);
      Split(now) && forall i :: 0 <= i < |now| && now[i].Deliver? ==> EndsInBarrier(now[i].batch)
    ensures var after := BatchAfter(e, batch); forall j :: 0 <= j < |after| ==> IsCommand(after[j])
  {
  }

  /** The deliveries are cut right behind every no-op and configuration entry, and nowhere else but at the end. */
  lemma {:induction false} BatchesSplit(es: seq<LogEntry>, batch: seq<LogEntry>, failed: bool, refused: Refusals)
    requires forall j :: 0 <= j < |batch| ==> IsCommand(batch[j])
    ensures Split(Plan(es, batch, failed, refused))
    decreases |es|
  {
    hide Now, BatchAfter, FailedAfter, Split, IsCommand;
    if es == [] {
      EndSplit(batch);
    } else {
      var e := es[0];
      NowSplit(e, batch, failed, refused);
      BatchesSplit(es[1..], BatchAfter(e, batch), FailedAfter(e, failed, refused), refused);
      SplitPlus(Now(e, batch, failed, refused), Plan(es[1..], BatchAfter(e, batch), FailedAfter(e, failed, refused), refused));
    }
  }

  lemma EndSplit(batch: seq<LogEntry>)
    requires forall j :: 0 <= j < |batch| ==> IsCommand(batch[j])
    ensures Split([]) && Split(Flushed(batch))
  {
  }

  // ---- Configuration barriers -----------------------------------------------------------------------------------

  /** The changes applied: in log order, up to and including the first refused one. */
  function Changes(es: seq<LogEntry>, refused: Refusals): seq<Action>
  {
    if es == [] then []
    else if !es[0].content.ConfigEntry? then Changes(es[1..], refused)
    else if es[0].index in refused then [ApplyConfig(es[0].index, false)]
    else [ApplyConfig(es[0].index, true)] + Changes(es[1..], refused)
  }

  function Applied(plan: seq<Action>): seq<Action>
  {
    if plan == [] then [] else if plan[0].ApplyConfig? then [plan[0]] + Applied(plan[1..]) else Applied(plan[1..])
  }

  lemma {:induction false} AppliedPlus(a: seq<Action>, b: seq<Action>)
    ensures Applied(a + b) == Applied(a) + Applied(b)
    decreases |a|
  {
    if a == [] {
      assert a + b == b;
    } else {
      AppliedPlus(a[1..], b);
      assert (a + b)[0] == a[0] && (a + b)[1..] == a[1..] + b;
      var x, y := Applied(a[1..]), Applied(b);
      if a[0].ApplyConfig? { assert [a[0]] + (x + y) == ([a[0]] + x) + y; }
    }
  }

  lemma AppliedNow(e: LogEntry, batch: seq<LogEntry>, failed: bool, refused: Refusals)
    ensures Applied(Now(e, batch, failed, refused))
            == if e.content.ConfigEntry? && !failed then [ApplyConfig(e.index, e.index !in refused)] else []
  {
    var now := Now(e, batch, failed, refused);
    if |now| == 2 { assert now[1..] == [now[1]] && Applied([now[1]]) == [now[1]]; }
  }

  /** Configuration changes are applied in log order and stop at the first failure. */
  lemma {:induction false} ChangesInOrder(es: seq<LogEntry>, batch: seq<LogEntry>, failed: bool, refused: Refusals)
    ensures Applied(Plan(es, batch, failed, refused)) == if failed then [] else Changes(es, refused)
    decreases |es|
  {
    hide Now;
    if es != [] {
      var e := es[0];
      ChangesInOrder(es[1..], BatchAfter(e, batch), FailedAfter(e, failed, refused), refused);
      AppliedNow(e, batch, failed, refused);
      AppliedPlus(Now(e, batch, failed, refused),
                  Plan(es[1..], BatchAfter(e, batch), FailedAfter(e, failed, refused), refused));
    }
  }

  /** Right before a change is applied, the batch that ends in its entry is delivered. */
  predicate Guarded(plan: seq<Action>)
  {
    forall i :: 0 <= i < |plan| && plan[i].ApplyConfig? ==>
      0 < i && plan[i - 1].Deliver? && plan[i - 1].batch != []
      && plan[i - 1].batch[|plan[i - 1].batch| - 1].index == plan[i].index
      && plan[i - 1].batch[|plan[i - 1].batch| - 1].content.ConfigEntry?
  }

  lemma {:induction false} BarriersKept(es: seq<LogEntry>, batch: seq<LogEntry>, failed: bool, refused: Refusals)
    ensures Guarded(Plan(es, batch, failed, refused))
    decreases |es|
  {
    if es != [] {
      var e := es[0];
      var now, later := Now(e, batch, failed, refused), Plan(es[1..], BatchAfter(e, batch), FailedAfter(e, failed, refused), refused);
      BarriersKept(es[1..], BatchAfter(e, batch), FailedAfter(e, failed, refused), refused);
      GuardedPlus(now, later);
    }
  }

  lemma GuardedPlus(a: seq<Action>, b: seq<Action>)
    requires Guarded(a) && Guarded(b)
    ensures Guarded(a + b)
  {
    var c := a + b;
    forall i | 0 <= i < |c| && c[i].ApplyConfig? ensures 0 < i && c[i - 1] == if i < |a| then a[i - 1] else b[i - |a| - 1] {
      if i >= |a| { assert b[i - |a|].ApplyConfig?; }
    }
  }

  lemma GuardedCut(es: seq<LogEntry>, refused: Refusals, room: nat)
    ensures Guarded(Cut(Plan(es, [], false, refused), room))
  {
    hide Plan, Cut;
    BarriersKept(es, [], false, refused);
    CutPrefix(Plan(es, [], false, refused), room);
  }

  // ---- Gaps -------------------------------------------------------------------------------------------------------

  /** The delivered indexes have no gap exactly if no entry of the range lacks its payload. */
  lemma {:induction false} GapFree(es: seq<LogEntry>)
    ensures Visible(es) == es <==> forall i :: 0 <= i < |es| ==> !es[i].content.Absent?
    ensures |Visible(es)| <= |es|
  {
    if es != [] {
      GapFree(es[1..]);
      assert es == [es[0]] + es[1..];
      if !es[0].content.Absent? {
        assert Visible(es) == es <==> Visible(es[1..]) == es[1..] by { Drop(es[0], Visible(es[1..]), es[1..]); }
        assert forall i :: 0 <= i < |es[1..]| ==> es[1..][i] == es[i + 1];
      }
    }
  }

  /** An entry without payload between two others: index 2 is never handed over. */
  lemma AbsentLeavesGap()
    ensures Visible([LogEntry(1, 1, NoopEntry), LogEntry(2, 1, Absent), LogEntry(3, 1, NoopEntry)])
            == [LogEntry(1, 1, NoopEntry), LogEntry(3, 1, NoopEntry)]
  {
    var a, b, c := LogEntry(1, 1, NoopEntry), LogEntry(2, 1, Absent), LogEntry(3, 1, NoopEntry);
    assert [a, b, c][1..] == [b, c] && [b, c][1..] == [c] && [c][1..] == [];
    assert Visible([c]) == [c];
  }

  lemma Drop(e: LogEntry, a: seq<LogEntry>, b: seq<LogEntry>)
    ensures [e] + a == [e] + b <==> a == b
  {
    assert ([e] + a)[1..] == a && ([e] + b)[1..] == b;
  }
}
