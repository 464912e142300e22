/** Decoding log entries into state machine commands. */
module Commands {
  import opened Types

  datatype BatchOp = PutOp(key: Bytes, value: Bytes) | RemoveOp(key: Bytes)

  datatype Command =
    | NoCommand
    | Put(key: Bytes, value: Bytes, ttl: Option<nat>)
    | Remove(key: Bytes)
    | Swap(key: Bytes, expected: Option<Bytes>, value: Bytes)
    | Atomic(ops: seq<BatchOp>)

  // ---- The wire form ----------------------------------------------------------------------------------

  /** Zero means no expiry; the operation of a message may be absent. */
  datatype WireOp = WirePut(key: Bytes, value: Bytes, ttl: nat) | WireRemove(key: Bytes) | WireNone

  datatype WireCommand =
    | WPut(key: Bytes, value: Bytes, ttl: nat)
    | WRemove(key: Bytes)
    | WSwap(key: Bytes, expected: Option<Bytes>, value: Bytes)
    | WBatch(ops: seq<WireOp>)
    | WNone

  datatype Result<T> = Ok(value: T) | Err

  predicate OpValid(o: WireOp) { (o.WirePut? && o.ttl == 0) || o.WireRemove? }

  function DecodeOp(o: WireOp): BatchOp
    requires OpValid(o)
  {
    match o
    case WirePut(key, value, _) => PutOp(key, value)
    case WireRemove(key) => RemoveOp(key)
  }

  /** All operations of a batch, or an error if any is not supported. */
  function DecodeOps(ops: seq<WireOp>): Result<seq<BatchOp>>
  {
    if ops == [] then Ok([])
    else if !OpValid(ops[0]) then Err
    else match DecodeOps(ops[1..]) case Ok(rest) => Ok([DecodeOp(ops[0])] + rest) case Err => Err
  }

  /** `TryFrom<WriteCommand> for Command` */
  function Decode(w: WireCommand): Result<Command>
  {
    match w
    case WPut(key, value, ttl) => Ok(Put(key, value, if ttl == 0 then None else Some(ttl)))
    case WRemove(key) => Ok(Remove(key))
    case WSwap(key, expected, value) => Ok(Swap(key, expected, value))
    case WBatch(ops) => (match DecodeOps(ops) case Ok(os) => Ok(Atomic(os)) case Err => Err)
    case WNone => Err
  }

  function EncodeOps(ops: seq<BatchOp>): seq<WireOp>
  {
    if ops == [] then [] else
    [match ops[0] case PutOp(key, value) => WirePut(key, value, 0) case RemoveOp(key) => WireRemove(key)] + EncodeOps(ops[1..])
  }

  /** The wire form of a command; a no-op has none. */
  function Encode(c: Command): WireCommand
  {
    match c
    case NoCommand => WNone
    case Put(key, value, ttl) => WPut(key, value, if ttl.Some? then ttl.value else 0)
    case Remove(key) => WRemove(key)
    case Swap(key, expected, value) => WSwap(key, expected, value)
    case Atomic(ops) => WBatch(EncodeOps(ops))
  }

  lemma {:induction false} OpsRoundTrip(ops: seq<BatchOp>)
    ensures DecodeOps(EncodeOps(ops)) == Ok(ops)
  {
    if ops != [] {
      OpsRoundTrip(ops[1..]);
      assert EncodeOps(ops)[1..] == EncodeOps(ops[1..]);
      assert [ops[0]] + ops[1..] == ops;
    }
  }

  /** Decoding gives back exactly the commands that have a wire form: no no-op, no expiry of zero seconds. */
  lemma RoundTrip(c: Command)
    ensures Decode(Encode(c)) == Ok(c) <==> !c.NoCommand? && !(c.Put? && c.ttl == Some(0))
  {
    if c.Atomic? { OpsRoundTrip(c.ops); }
  }

  /** A batch is decoded as a whole: it fails exactly if one operation is absent or asks for an expiry. */
  lemma {:induction false} BatchAllOrNothing(ops: seq<WireOp>)
    ensures DecodeOps(ops).Ok? <==> forall i :: 0 <= i < |ops| ==> OpValid(ops[i])
    ensures DecodeOps(ops).Ok? ==>
      |DecodeOps(ops).value| == |ops| && forall i :: 0 <= i < |ops| ==> OpValid(ops[i]) && DecodeOps(ops).value[i] == DecodeOp(ops[i])
  {
    if ops != [] {
      BatchAllOrNothing(ops[1..]);
      assert forall i :: 0 <= i < |ops[1..]| ==> ops[1..][i] == ops[i + 1];
      if DecodeOps(ops[1..]).Ok? && OpValid(ops[0]) {
        assert forall i :: 0 < i < |ops| ==> DecodeOps(ops).value[i] == DecodeOps(ops[1..]).value[i - 1];
      }
    }
  }

  /** The other way round: what decodes has this wire form, so nothing decodes to the wrong command. */
  lemma WireRoundTrip(w: WireCommand)
    ensures Decode(w).Ok? ==> Encode(Decode(w).value) == w
    ensures Decode(w).Err? <==> w.WNone? || (w.WBatch? && exists i :: 0 <= i < |w.ops| && !OpValid(w.ops[i]))
  {
    if w.WBatch? {
      BatchAllOrNothing(w.ops);
      if DecodeOps(w.ops).Ok? { EncodeDecoded(w.ops); }
    }
  }

  lemma {:induction false} EncodeDecoded(ops: seq<WireOp>)
    requires DecodeOps(ops).Ok?
    ensures EncodeOps(DecodeOps(ops).value) == ops
  {
    if ops != [] {
      EncodeDecoded(ops[1..]);
      var d := DecodeOps(ops).value;
      assert d[1..] == DecodeOps(ops[1..]).value && ops == [ops[0]] + ops[1..];
    }
  }

  // ---- Log entries ----------------------------------------------------------------------------------------

  /** What a stored entry carries; `Absent` has no payload message at all, `Unreadable` bytes do not parse. */
  datatype Content = Absent | NoopEntry | ConfigEntry(change: nat) | Write(w: WireCommand) | Unreadable

  datatype LogEntry = LogEntry(index: nat, term: nat, content: Content)

  datatype ApplyEntry = ApplyEntry(index: nat, term: nat, command: Command)

  function DecodeEntry(e: LogEntry): Result<ApplyEntry>
  {
    match e.content
    case Absent => Err
    case Unreadable => Err
    case NoopEntry => Ok(ApplyEntry(e.index, e.term, NoCommand))
    case ConfigEntry(_) => Ok(ApplyEntry(e.index, e.term, NoCommand))
    case Write(w) => (match Decode(w) case Ok(c) => Ok(ApplyEntry(e.index, e.term, c)) case Err => Err)
  }

  /** Every entry decoded, or an error if one of them fails. */
  function DecodeAll(es: seq<LogEntry>): Result<seq<ApplyEntry>>
  {
    if es == [] then Ok([]) else
    match (DecodeAll(es[..|es| - 1]), DecodeEntry(es[|es| - 1]))
    case (Ok(xs), Ok(x)) => Ok(xs + [x])
    case _ => Err
  }

  /** Decoding keeps every index and term, and fails exactly if one entry fails. */
  lemma {:induction false} DecodeKeeps(es: seq<LogEntry>)
    ensures DecodeAll(es).Ok? <==> forall i :: 0 <= i < |es| ==> DecodeEntry(es[i]).Ok?
    ensures DecodeAll(es).Ok? ==> |DecodeAll(es).value| == |es|
    ensures DecodeAll(es).Ok? ==> forall i :: 0 <= i < |es| ==>
      DecodeAll(es).value[i].index == es[i].index && DecodeAll(es).value[i].term == es[i].term
      && Ok(DecodeAll(es).value[i]) == DecodeEntry(es[i])
  {
    if es != [] {
      var n := |es| - 1;
      DecodeKeeps(es[..n]);
      assert forall i :: 0 <= i < n ==> es[..n][i] == es[i];
    }
  }

  /** The command that an entry's content asks for; a client command is given by its wire form. */
  predicate Asks(content: Content, c: Command)
  {
    || ((content.NoopEntry? || content.ConfigEntry?) && c == NoCommand)
    || (content == Write(Encode(c)) && !c.NoCommand? && !(c.Put? && c.ttl == Some(0)))
  }

  /** Every decoded entry carries exactly the command that was written: no other, and none for a no-op or a change. */
  lemma DecodesCommand(es: seq<LogEntry>, i: nat, c: Command)
    requires DecodeAll(es).Ok? && i < |es|
    ensures |DecodeAll(es).value| == |es|
    ensures DecodeAll(es).value[i].command == c <==> Asks(es[i].content, c)
  {
    hide DecodeAll, Decode, Encode;
    DecodeKeeps(es);
    RoundTrip(c);
    if es[i].content.Write? { WireRoundTrip(es[i].content.w); NeverEmpty(es[i].content.w); }
  }

  lemma NeverEmpty(w: WireCommand)
    requires Decode(w).Ok?
    ensures var c := Decode(w).value; !c.NoCommand? && !(c.Put? && c.ttl == Some(0))
  {
  }

  lemma {:induction false} DecodePlus(a: seq<LogEntry>, b: seq<LogEntry>)
    ensures DecodeAll(a + b) ==
      if DecodeAll(a).Ok? && DecodeAll(b).Ok? then Ok(DecodeAll(a).value + DecodeAll(b).value) else Err
    decreases |b|
  {
    if b == [] {
      assert a + b == a && DecodeAll(b) == Ok([]);
      if DecodeAll(a).Ok? { assert DecodeAll(a).value + [] == DecodeAll(a).value; }
    } else {
      var n := |b| - 1;
      DecodePlus(a, b[..n]);
      assert (a + b)[..|a| + n] == a + b[..n] && (a + b)[|a| + n] == b[n];
      var x, y, e := DecodeAll(a), DecodeAll(b[..n]), DecodeEntry(b[n]);
      if x.Ok? && y.Ok? && e.Ok? { assert x.value + (y.value + [e.value]) == (x.value + y.value) + [e.value]; }
    }
  }

  /** `decode_entries`: the first failure ends it. */
  method DecodeEntries(es: seq<LogEntry>) returns (r: Result<seq<ApplyEntry>>)
    ensures r == DecodeAll(es)
  {
    var result := [];
    var k := 0;
    while k < |es|
      invariant k <= |es| && DecodeAll(es[..k]) == Ok(result)
    {
      var e := es[k];
      assert es[..k + 1][..k] == es[..k];
      var failed := e.content.Absent? || e.content.Unreadable? || (e.content.Write? && Decode(e.content.w).Err?);
      if failed {
        DecodeKeeps(es);
        return Err;
      }
      var command := if e.content.Write? then Decode(e.content.w).value else NoCommand;
      result := result + [ApplyEntry(e.index, e.term, command)];
      k := k + 1;
    }
    assert es[..k] == es;
    return Ok(result);
  }
}
