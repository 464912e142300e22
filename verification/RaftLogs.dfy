/** The part of the local Raft log that a leader writes to. */
module RaftLogs {
  import opened Types

  /**
   * `entries` by index, `maxIndex` the last stored index (`last_entry_id`), `nextId` the
   * next index to be handed out, `poisoned` set once by the first failed disk write.
   */
  datatype Log = Log(entries: map<nat, Entry>, maxIndex: nat, nextId: nat, poisoned: bool)

  /** The next index handed out is the one every caller predicts from `last_entry_id`. */
  predicate Aligned(l: Log) { l.nextId == l.maxIndex + 1 }

  /** No entry is stored above `maxIndex`, and no stored index is handed out again. */
  predicate Bounded(l: Log)
  {
    && l.maxIndex < l.nextId
    && forall i :: i in l.entries ==> i <= l.maxIndex
  }

  /** The slots that receive `ps` when indexes are handed out from `first`. */
  function Slots(first: nat, term: nat, ps: seq<Payload>): map<nat, Entry>
  {
    map i | first <= i < first + |ps| :: Entry(term, Nth(ps, first, i))
  }

  /** A write is refused exactly when the disk is poisoned and there is something to write. */
  predicate Accepts(l: Log, ps: seq<Payload>) { ps == [] || !l.poisoned }

  /** Indexes are handed out first, then the entries are stored; a refused write keeps them. */
  function Append(l: Log, term: nat, ps: seq<Payload>): Log
  {
    if ps == [] then l
    else if l.poisoned then l.(nextId := l.nextId + |ps|)
    else Log(l.entries + Slots(l.nextId, term, ps),
             Max(l.maxIndex, l.nextId + |ps| - 1),
             l.nextId + |ps|,
             false)
  }

  /** A follower truncates its log at `from` and stores `es` there; indexes are never handed back. */
  function Replace(l: Log, from: nat, es: seq<Entry>): Log
    requires 0 < from
  {
    Log((map i | i in l.entries && i < from :: l.entries[i]) + Laid(es, from),
        from + |es| - 1,
        Max(l.nextId, from + |es|),
        l.poisoned)
  }

  /** `purge_prefix`: without a remaining entry the last index reads 0. */
  function PurgeTo(l: Log, cutoff: nat): Log
  {
    var rest := map i | i in l.entries && cutoff < i :: l.entries[i];
    l.(entries := rest, maxIndex := if rest == map[] then 0 else l.maxIndex)
  }

  /** Replacing a tail keeps the prediction right exactly if the log did not get shorter. */
  lemma ReplaceAligned(l: Log, from: nat, es: seq<Entry>)
    requires Bounded(l) && Aligned(l) && 0 < from <= l.maxIndex + 1 && es != []
    ensures Bounded(Replace(l, from, es))
    ensures Aligned(Replace(l, from, es)) <==> l.maxIndex <= Replace(l, from, es).maxIndex
  {
  }

  /** Purging keeps the prediction right exactly if an entry remains or none was ever handed out. */
  lemma PurgeAligned(l: Log, cutoff: nat)
    requires Bounded(l) && Aligned(l) && (0 < l.maxIndex ==> l.maxIndex in l.entries)
    ensures Bounded(PurgeTo(l, cutoff))
    ensures Aligned(PurgeTo(l, cutoff)) <==> cutoff < l.maxIndex || l.maxIndex == 0
  {
    if 0 < l.maxIndex && cutoff < l.maxIndex {
      assert l.maxIndex in PurgeTo(l, cutoff).entries;
    }
  }

  /** What replacing a tail leaves: the entries before it, the new ones, and nothing else. */
  lemma ReplaceContents(l: Log, from: nat, es: seq<Entry>, i: nat)
    requires 0 < from
    ensures var m := Replace(l, from, es);
      && (i in m.entries <==> (i < from && i in l.entries) || from <= i < from + |es|)
      && (from <= i < from + |es| ==> m.entries[i] == es[i - from])
      && (i < from && i in l.entries ==> m.entries[i] == l.entries[i])
      && m.poisoned == l.poisoned
  {
  }

  /** What a purge leaves: exactly the entries above its cutoff. */
  lemma PurgeContents(l: Log, cutoff: nat, i: nat)
    ensures var m := PurgeTo(l, cutoff);
      && (i in m.entries <==> cutoff < i && i in l.entries) && (i in m.entries ==> m.entries[i] == l.entries[i])
      && m.nextId == l.nextId && m.poisoned == l.poisoned
  {
  }
}
