/**
  The source table as its write-ahead log tells it, the mirror a sink keeps of it, and what the
  coordinator can observe of a change.
*/
module SourceTable {
  import opened Prelude
  import opened Coordinator

  /** `Patch` is an update whose event omits unchanged TOAST columns; `Rekey` one that changes the
      primary key; `DelUnkeyed` a delete whose old tuple does not carry the key (REPLICA IDENTITY
      NOTHING or another index). */
  datatype Change =
    | Put(key: Key, doc: Doc)
    | Patch(key: Key, doc: Doc)
    | Del(key: Key)
    | Truncate
    | Rekey(old_: Key, new_: Key, doc: Doc)
    | DelUnkeyed(key: Key)

  /** A watermark carries its chunk's id; `Foreign` is another node's or slot's message. */
  datatype Entry =
    | Changed(table: string, change: Change)
    | Mark(id: nat, high: bool)
    | Foreign

  /** The log as it stands at the end of a run, one table in it, that table's contents when the
      slot was created, and the chunk size. */
  datatype Env = Env(wal: seq<Entry>, base: map<Key, Doc>, table: string, size: nat)

  /** A row for examples. */
  const DOC: Doc := map["a" := "1", "b" := "1"]

  predicate Touches(ch: Change, k: Key) {
    match ch
    case Put(key, _) => k == key
    case Patch(key, _) => k == key
    case Del(key) => k == key
    case Truncate => true
    case Rekey(o, n, _) => k == o || k == n
    case DelUnkeyed(key) => k == key
  }

  function Patched(v: Option<Doc>, doc: Doc): Doc { if v.Some? then v.value + doc else doc }

  /** What the change does to the row with key `k` in the source. */
  function Effect(v: Option<Doc>, ch: Change, k: Key): Option<Doc> {
    match ch
    case Put(key, doc) => if k == key then Some(doc) else v
    case Patch(key, doc) => if k == key then Some(Patched(v, doc)) else v
    case Del(key) => if k == key then None else v
    case Truncate => None
    case Rekey(o, n, doc) => if k == n then Some(doc) else if k == o then None else v
    case DelUnkeyed(key) => if k == key then None else v
  }

  /** The key ObserveEvent reads: the new row's, or the old row's for a delete. */
  function ObservedKey(ch: Change): Option<Key> {
    match ch
    case Put(key, _) => Some(key)
    case Patch(key, _) => Some(key)
    case Del(key) => Some(key)
    case Truncate => None
    case Rekey(_, n, _) => Some(n)
    case DelUnkeyed(_) => None
  }

  /** Changes a mirror sink reproduces. */
  predicate Plain(ch: Change) { ch.Put? || ch.Del? || ch.Truncate? }

  predicate TouchedAt(e: Env, x: nat, k: Key) {
    x < |e.wal| && e.wal[x].Changed? && e.wal[x].table == e.table && Touches(e.wal[x].change, k)
  }

  ghost predicate Untouched(e: Env, k: Key, lo: nat, hi: nat) {
    forall x: nat :: lo <= x < hi ==> !TouchedAt(e, x, k)
  }

  /** The source row with key `k` after the first `p` log entries. */
  function ValueAt(e: Env, k: Key, p: nat): Option<Doc>
    requires p <= |e.wal|
  {
    if p == 0 then (if k in e.base then Some(e.base[k]) else None)
    else if e.wal[p - 1].Changed? && e.wal[p - 1].table == e.table then
      Effect(ValueAt(e, k, p - 1), e.wal[p - 1].change, k)
    else ValueAt(e, k, p - 1)
  }

  /** The keys the coordinator notes while streaming the entries `lo..hi`. */
  function SeenIn(e: Env, lo: nat, hi: nat): set<Key>
    requires hi <= |e.wal|
    decreases hi
  {
    if hi <= lo then {}
    else SeenIn(e, lo, hi - 1) + SeenAt(e.table, e.wal[hi - 1])
  }

  function SeenAt(table: string, entry: Entry): set<Key> {
    if entry.Changed? && entry.table == table && ObservedKey(entry.change).Some?
    then {ObservedKey(entry.change).value} else {}
  }

  lemma {:induction false} StillThere(e: Env, k: Key, lo: nat, hi: nat)
    requires lo <= hi <= |e.wal| && Untouched(e, k, lo, hi)
    ensures ValueAt(e, k, lo) == ValueAt(e, k, hi)
    decreases hi
  {
    if hi <= lo {
    } else {
      StillThere(e, k, lo, hi - 1);
      assert !TouchedAt(e, hi - 1, k);
    }
  }

  /** Among inserts, updates and deletes that carry their key, one that was not seen was not touched. */
  lemma {:induction false} UnseenUntouched(e: Env, k: Key, lo: nat, hi: nat)
    requires hi <= |e.wal| && k !in SeenIn(e, lo, hi)
    requires forall x :: lo <= x < hi && e.wal[x].Changed? && e.wal[x].table == e.table ==>
               e.wal[x].change.Put? || e.wal[x].change.Del?
    ensures Untouched(e, k, lo, hi)
    decreases hi
  {
    if hi <= lo {
    } else {
      UnseenUntouched(e, k, lo, hi - 1);
      assert !TouchedAt(e, hi - 1, k);
    }
  }

  /** A seen key was touched. */
  lemma {:induction false} SeenTouched(e: Env, k: Key, lo: nat, hi: nat)
    requires hi <= |e.wal| && k in SeenIn(e, lo, hi)
    ensures exists x: nat :: lo <= x < hi && TouchedAt(e, x, k)
    decreases hi
  {
    if k in SeenAt(e.table, e.wal[hi - 1]) {
      assert TouchedAt(e, hi - 1, k);
    } else {
      SeenTouched(e, k, lo, hi - 1);
    }
  }

  // ---------------------------------------------------------------- keyset pages

  /** `SELECT ... WHERE pk > from ORDER BY pk LIMIT size` as of log position `sel`. */
  ghost predicate Page(e: Env, from: Option<Key>, sel: nat, rows: seq<Row>)
    requires sel <= |e.wal|
  {
    && |rows| <= e.size
    && (forall i, j :: 0 <= i < j < |rows| ==> rows[i].key < rows[j].key)
    && (forall r | r in rows :: After(from, r.key) && ValueAt(e, r.key, sel) == Some(r.doc))
    && (forall k: Key | InRange(e, from, rows, k) && ValueAt(e, k, sel).Some? :: Row(k, ValueAt(e, k, sel).value) in rows)
  }

  predicate After(from: Option<Key>, k: Key) { from.None? || from.value < k }

  predicate UpTo(to: Option<Key>, k: Key) { to.Some? && k <= to.value }

  function LastKey(rows: seq<Row>): Option<Key> {
    if rows == [] then None else Some(rows[|rows| - 1].key)
  }

  predicate Short(e: Env, rows: seq<Row>) { |rows| < e.size }

  /** The keys a page accounts for: up to its last row, or everything beyond when it is short. */
  predicate InRange(e: Env, from: Option<Key>, rows: seq<Row>, k: Key) {
    After(from, k) && (Short(e, rows) || UpTo(LastKey(rows), k))
  }
}
