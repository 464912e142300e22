/** Watching a key prefix: register, scan, then apply only the events behind the scan. */
module WatchRegistry {
  import opened Types

  type Registry = map<Bytes, string>

  // ---- The server -------------------------------------------------------------------------------------

  datatype Change = Set(key: Bytes, value: Bytes) | Unset(key: Bytes)

  /** The changes of revision `r` are at position `r - 1`. */
  type Server = seq<seq<Change>>

  function Apply(m: map<Bytes, Bytes>, c: Change): map<Bytes, Bytes>
  {
    match c
    case Set(key, value) => m[key := value]
    case Unset(key) => m - {key}
  }

  function ApplyAll(m: map<Bytes, Bytes>, cs: seq<Change>): map<Bytes, Bytes>
  {
    if cs == [] then m else Apply(ApplyAll(m, cs[..|cs| - 1]), cs[|cs| - 1])
  }

  /** The server's map after revision `r`. */
  function MapAt(h: Server, r: nat): map<Bytes, Bytes>
    requires r <= |h|
  {
    if r == 0 then map[] else ApplyAll(MapAt(h, r - 1), h[r - 1])
  }

  predicate Under(prefix: Bytes, key: Bytes) { prefix <= key }

  /** What a client sees of the server's map under a prefix; `text` is the lossy decoding of values. */
  function View(m: map<Bytes, Bytes>, prefix: Bytes, text: Bytes -> string): Registry
  {
    map k | k in m && Under(prefix, k) :: text(m[k])
  }

  // ---- The stream ----------------------------------------------------------------------------------------

  datatype Kind = PutEvent | DeleteEvent | CanceledEvent | ProgressEvent | UnknownEvent

  datatype WatchEvent = WatchEvent(kind: Kind, key: Bytes, value: Bytes, revision: nat)

  function EventOf(c: Change, r: nat): WatchEvent
  {
    match c
    case Set(key, value) => WatchEvent(PutEvent, key, value, r)
    case Unset(key) => WatchEvent(DeleteEvent, key, "", r)
  }

  /** The events of one revision that concern the prefix. */
  function EventsOf(cs: seq<Change>, prefix: Bytes, r: nat): seq<WatchEvent>
  {
    if cs == [] then [] else
    var init, c := EventsOf(cs[..|cs| - 1], prefix, r), cs[|cs| - 1];
    if Under(prefix, c.key) then init + [EventOf(c, r)] else init
  }

  /** Everything that happens under the prefix after revision `from` up to revision `upto`. */
  function Events(h: Server, prefix: Bytes, from: nat, upto: nat): seq<WatchEvent>
    requires from <= upto <= |h|
    decreases upto
  {
    if from == upto then [] else Events(h, prefix, from, upto - 1) + EventsOf(h[upto - 1], prefix, upto)
  }

  /** The stream without the events a client ignores. */
  function Changes(es: seq<WatchEvent>): seq<WatchEvent>
  {
    if es == [] then [] else
    var init, e := Changes(es[..|es| - 1]), es[|es| - 1];
    if e.kind.ProgressEvent? || e.kind.UnknownEvent? then init else init + [e]
  }

  // ---- The client -------------------------------------------------------------------------------------------

  /** `apply_event_to_registry` */
  function Applied(r: Registry, e: WatchEvent, text: Bytes -> string): Registry
  {
    match e.kind
    case PutEvent => r[e.key := text(e.value)]
    case DeleteEvent => r - {e.key}
    case CanceledEvent => map[]
    case _ => r
  }

  /** One event of the drain loop: events up to the scan revision are already in the snapshot. */
  function Consumed(r: Registry, e: WatchEvent, scan: nat, text: Bytes -> string): Registry
  {
    if e.revision <= scan then r else Applied(r, e, text)
  }

  predicate Stops(e: WatchEvent, scan: nat) { scan < e.revision && e.kind.CanceledEvent? }

  function ConsumeAll(r: Registry, es: seq<WatchEvent>, scan: nat, text: Bytes -> string): Registry
  {
    if es == [] then r else Consumed(ConsumeAll(r, es[..|es| - 1], scan, text), es[|es| - 1], scan, text)
  }

  class Watcher {
    var registry: Registry

    method ApplyEvent(e: WatchEvent, text: Bytes -> string) returns (canceled: bool)
      modifies this
      ensures registry == Applied(old(registry), e, text) && canceled == e.kind.CanceledEvent?
    {
      canceled := false;
      match e.kind
      case PutEvent => registry := registry[e.key := text(e.value)];
      case DeleteEvent => registry := registry - {e.key};
      case CanceledEvent => registry := map[]; canceled := true;
      case ProgressEvent =>
      case UnknownEvent =>
    }

    /** One connection: the snapshot replaces the registry, then the stream is drained until it ends or is canceled. */
    method Session(snapshot: map<Bytes, Bytes>, prefix: Bytes, scan: nat, es: seq<WatchEvent>, text: Bytes -> string)
      returns (used: nat, canceled: bool)
      modifies this
      ensures used <= |es| && registry == ConsumeAll(View(snapshot, prefix, text), es[..used], scan, text)
      ensures canceled ==> 0 < used && Stops(es[used - 1], scan)
      ensures !canceled ==> used == |es| && forall i :: 0 <= i < |es| ==> !Stops(es[i], scan)
    {
      registry := View(snapshot, prefix, text);
      used, canceled := 0, false;
      while used < |es|
        invariant used <= |es| && registry == ConsumeAll(View(snapshot, prefix, text), es[..used], scan, text)
        invariant forall i :: 0 <= i < used ==> !Stops(es[i], scan)
      {
        var e := es[used];
        assert es[..used + 1][..used] == es[..used];
        used := used + 1;
        if e.revision <= scan { continue; }
        canceled := ApplyEvent(e, text);
        if canceled { return; }
      }
      assert es[..used] == es;
    }
  }

  // ---- The registry is the server's map -------------------------------------------------------------------------

  lemma {:induction false} ConsumePlus(r: Registry, a: seq<WatchEvent>, b: seq<WatchEvent>, scan: nat, text: Bytes -> string)
    ensures ConsumeAll(r, a + b, scan, text) == ConsumeAll(ConsumeAll(r, a, scan, text), b, scan, text)
    decreases |b|
  {
    hide Consumed;
    if b == [] {
      assert a + b == a;
    } else {
      var n := |b| - 1;
      ConsumePlus(r, a, b[..n], scan, text);
      assert (a + b)[..|a + b| - 1] == a + b[..n];
    }
  }

  lemma ConsumeLast(r: Registry, es: seq<WatchEvent>, e: WatchEvent, scan: nat, text: Bytes -> string)
    ensures ConsumeAll(r, es + [e], scan, text) == Consumed(ConsumeAll(r, es, scan, text), e, scan, text)
  {
    assert (es + [e])[..|es|] == es;
  }

  /** Events that carry no change do not matter. */
  lemma {:induction false} ConsumeChanges(r: Registry, es: seq<WatchEvent>, scan: nat, text: Bytes -> string)
    ensures ConsumeAll(r, es, scan, text) == ConsumeAll(r, Changes(es), scan, text)
  {
    if es != [] {
      var n := |es| - 1;
      ConsumeChanges(r, es[..n], scan, text);
      ConsumeLast(r, Changes(es[..n]), es[n], scan, text);
    }
  }

  lemma {:induction false} OldEventsSkipped(r: Registry, es: seq<WatchEvent>, scan: nat, text: Bytes -> string)
    requires forall i :: 0 <= i < |es| ==> es[i].revision <= scan
    ensures ConsumeAll(r, es, scan, text) == r
  {
    if es != [] { OldEventsSkipped(r, es[..|es| - 1], scan, text); }
  }

  lemma {:induction false} EventsOfRevision(cs: seq<Change>, prefix: Bytes, r: nat, i: nat)
    requires i < |EventsOf(cs, prefix, r)|
    ensures EventsOf(cs, prefix, r)[i].revision == r
  {
    var n := |cs| - 1;
    if i < |EventsOf(cs[..n], prefix, r)| { EventsOfRevision(cs[..n], prefix, r, i); }
  }

  lemma {:induction false} EventRevisions(h: Server, prefix: Bytes, from: nat, upto: nat, i: nat)
    requires from <= upto <= |h| && i < |Events(h, prefix, from, upto)|
    ensures from < Events(h, prefix, from, upto)[i].revision <= upto
    decreases upto
  {
    var before := Events(h, prefix, from, upto - 1);
    if i < |before| {
      EventRevisions(h, prefix, from, upto - 1, i);
    } else {
      EventsOfRevision(h[upto - 1], prefix, upto, i - |before|);
    }
  }

  lemma {:induction false} EventsSplit(h: Server, prefix: Bytes, from: nat, mid: nat, upto: nat)
    requires from <= mid <= upto <= |h|
    ensures Events(h, prefix, from, upto) == Events(h, prefix, from, mid) + Events(h, prefix, mid, upto)
    decreases upto
  {
    if mid < upto { EventsSplit(h, prefix, from, mid, upto - 1); }
  }

  lemma ViewApply(m: map<Bytes, Bytes>, c: Change, prefix: Bytes, scan: nat, r: nat, text: Bytes -> string)
    requires scan < r
    ensures View(Apply(m, c), prefix, text)
            == if Under(prefix, c.key) then Consumed(View(m, prefix, text), EventOf(c, r), scan, text) else View(m, prefix, text)
  {
  }

  lemma {:induction false} RevisionConsumed(m: map<Bytes, Bytes>, cs: seq<Change>, prefix: Bytes, scan: nat, r: nat, text: Bytes -> string)
    requires scan < r
    ensures ConsumeAll(View(m, prefix, text), EventsOf(cs, prefix, r), scan, text) == View(ApplyAll(m, cs), prefix, text)
  {
    hide View, Consumed, Under;
    if cs != [] {
      var n := |cs| - 1;
      RevisionConsumed(m, cs[..n], prefix, scan, r, text);
      ViewApply(ApplyAll(m, cs[..n]), cs[n], prefix, scan, r, text);
      ConsumeLast(View(m, prefix, text), EventsOf(cs[..n], prefix, r), EventOf(cs[n], r), scan, text);
    }
  }

  lemma {:induction false} LaterEvents(h: Server, prefix: Bytes, scan: nat, upto: nat, text: Bytes -> string)
    requires scan <= upto <= |h|
    ensures ConsumeAll(View(MapAt(h, scan), prefix, text), Events(h, prefix, scan, upto), scan, text)
            == View(MapAt(h, upto), prefix, text)
    decreases upto
  {
    hide View, Consumed, EventsOf;
    if scan < upto {
      LaterEvents(h, prefix, scan, upto - 1, text);
      RevisionConsumed(MapAt(h, upto - 1), h[upto - 1], prefix, scan, upto, text);
      ConsumePlus(View(MapAt(h, scan), prefix, text), Events(h, prefix, scan, upto - 1), EventsOf(h[upto - 1], prefix, upto), scan, text);
    }
  }

  /**
   * Watch reconnect: if the stream was registered at or before the scan revision and delivers every
   * later change in order, then the snapshot plus the events behind the scan is exactly the server's
   * map under the prefix after each fully consumed revision.
   */
  lemma RegistryIsServerMap(h: Server, prefix: Bytes, registered: nat, scan: nat, consumed: nat,
                            es: seq<WatchEvent>, text: Bytes -> string)
    requires registered <= scan <= consumed <= |h| && Changes(es) == Events(h, prefix, registered, consumed)
    ensures ConsumeAll(View(MapAt(h, scan), prefix, text), es, scan, text) == View(MapAt(h, consumed), prefix, text)
  {
    hide View, Consumed, MapAt, Events, Changes, ConsumeAll;
    var r := View(MapAt(h, scan), prefix, text);
    var early, late := Events(h, prefix, registered, scan), Events(h, prefix, scan, consumed);
    ConsumeChanges(r, es, scan, text);
    EventsSplit(h, prefix, registered, scan, consumed);
    ConsumePlus(r, early, late, scan, text);
    forall i | 0 <= i < |early| ensures early[i].revision <= scan { EventRevisions(h, prefix, registered, scan, i); }
    OldEventsSkipped(r, early, scan, text);
    LaterEvents(h, prefix, scan, consumed, text);
  }

  /** Registering after the scan loses what happened in between: the order of the two steps matters. */
  lemma LateRegistrationLoses() returns (h: Server)
    ensures |h| == 1
    ensures Events(h, "", 1, 1) == []
    ensures ConsumeAll(View(MapAt(h, 0), "", (b: Bytes) => b), [], 0, (b: Bytes) => b) != View(MapAt(h, 1), "", (b: Bytes) => b)
  {
    h := [[Set("k", "v")]];
    assert ApplyAll(map[], h[0]) == map["k" := "v"] by { assert h[0][..0] == []; }
    assert "k" in View(MapAt(h, 1), "", (b: Bytes) => b);
  }

  /** `make_cancel_event`: the notice that the buffer overflowed. */
  function CancelEvent(key: Bytes): WatchEvent { WatchEvent(CanceledEvent, key, "", 0) }

  /** The notice is taken for an old event: it neither ends a session nor clears the registry, whatever the scan. */
  lemma CancelUnnoticed(r: Registry, es: seq<WatchEvent>, key: Bytes, scan: nat, text: Bytes -> string)
    ensures !Stops(CancelEvent(key), scan)
    ensures ConsumeAll(r, es + [CancelEvent(key)], scan, text) == ConsumeAll(r, es, scan, text)
  {
    ConsumeLast(r, es, CancelEvent(key), scan, text);
  }

  /** The keys of the registry are exactly the server's keys that begin with the prefix, with their decoded values. */
  lemma RegistryHolds(h: Server, prefix: Bytes, registered: nat, scan: nat, consumed: nat,
                      es: seq<WatchEvent>, text: Bytes -> string, k: Bytes)
    requires registered <= scan <= consumed <= |h| && Changes(es) == Events(h, prefix, registered, consumed)
    ensures var r, m := ConsumeAll(View(MapAt(h, scan), prefix, text), es, scan, text), MapAt(h, consumed);
      && (k in r <==> k in m && |prefix| <= |k| && k[..|prefix|] == prefix)
      && (k in r ==> r[k] == text(m[k]))
  {
    hide MapAt, Events, Changes, ConsumeAll;
    RegistryIsServerMap(h, prefix, registered, scan, consumed, es, text);
  }

  /** A cancellation that is newer than the scan ends the session and empties the registry. */
  lemma CancelNoticed(r: Registry, es: seq<WatchEvent>, e: WatchEvent, scan: nat, text: Bytes -> string)
    requires e.kind.CanceledEvent? && scan < e.revision
    ensures Stops(e, scan) && ConsumeAll(r, es + [e], scan, text) == map[]
  {
    ConsumeLast(r, es, e, scan, text);
  }
}
