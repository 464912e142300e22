/** Values shared by every component. */
module Types {
  datatype Option<+T> = None | Some(value: T)

  type Bytes = string

  /** What a log entry carries (`entry_payload::Payload`). */
  datatype Payload = Noop | Config(change: nat) | Command(data: string)

  /** A log entry; its index is the position it is stored under. */
  datatype Entry = Entry(term: nat, payload: Payload)

  function Max(a: nat, b: nat): nat { if a < b then b else a }

  /** The element laid out at index `i` when `xs` starts at index `first`. */
  function Nth<T>(xs: seq<T>, first: nat, i: nat): T
    requires first <= i < first + |xs|
  {
    xs[i - first]
  }

  /** `xs` laid out at consecutive indexes from `first`. */
  function Laid<T>(xs: seq<T>, first: nat): map<nat, T>
  {
    map i | first <= i < first + |xs| :: Nth(xs, first, i)
  }

  function Min(a: nat, b: nat): nat { if a < b then a else b }
}
