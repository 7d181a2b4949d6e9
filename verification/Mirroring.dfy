/**
  The sink against the source table, key by key: what one delivery, one rewind or one finished
  chunk does to a key's standing.
*/
module Mirroring {
  import opened Prelude
  import opened Coordinator
  import opened SourceTable
  import opened Convergence

  // ---------------------------------------------------------------- a key's standing

  /** The sink's value `v` for key `k` is the source's as of position `z`, and nothing delivered
      since then changed it. */
  ghost predicate AsOf(e: Env, k: Key, v: Option<Doc>, reach: nat, horizon: nat, z: nat) {
    z <= horizon <= |e.wal| && v == ValueAt(e, k, z) && (z <= reach ==> Untouched(e, k, z, reach))
  }

  /** The change that will make up for whatever the sink holds is still to be delivered. */
  ghost predicate Awaited(e: Env, k: Key, reach: nat, horizon: nat, x: nat) {
    reach <= x < horizon && TouchedAt(e, x, k)
  }

  ghost predicate Current(e: Env, k: Key, v: Option<Doc>, reach: nat, horizon: nat) {
    (exists z: nat :: AsOf(e, k, v, reach, horizon, z)) || (exists x: nat :: Awaited(e, k, reach, horizon, x))
  }

  /** Neither a delivered event nor a chunk has brought the key to the sink yet. */
  ghost predicate Absent(e: Env, k: Key, v: Option<Doc>, reach: nat) { v == None && Untouched(e, k, 0, reach) }

  /** A current key with nothing pending agrees with the source. */
  lemma CurrentAgrees(e: Env, k: Key, v: Option<Doc>, reach: nat, horizon: nat)
    requires Current(e, k, v, reach, horizon) && reach <= horizon <= |e.wal| && Untouched(e, k, reach, horizon)
    ensures v == ValueAt(e, k, reach)
  {
    var z: nat :| AsOf(e, k, v, reach, horizon, z);
    if z <= reach { StillThere(e, k, z, reach); } else { StillThere(e, k, reach, z); }
  }

  lemma FreshIsCurrent(e: Env, k: Key, v: Option<Doc>, reach: nat, horizon: nat, z: nat)
    requires reach <= z <= horizon <= |e.wal| && v == ValueAt(e, k, z)
    ensures Current(e, k, v, reach, horizon)
  {
    assert AsOf(e, k, v, reach, horizon, z);
  }

  /** Passing an entry that does not touch the key, or staying put, keeps its standing. */
  lemma PassingKeeps(e: Env, k: Key, v: Option<Doc>, reach: nat, horizon: nat, reach': nat, horizon': nat)
    requires horizon <= horizon' <= |e.wal|
    requires reach' == reach || (reach' == reach + 1 && !TouchedAt(e, reach, k))
    ensures Current(e, k, v, reach, horizon) ==> Current(e, k, v, reach', horizon')
    ensures Absent(e, k, v, reach) ==> Absent(e, k, v, reach')
  {
    if z: nat :| AsOf(e, k, v, reach, horizon, z) {
      assert AsOf(e, k, v, reach', horizon', z);
    }
    if x: nat :| Awaited(e, k, reach, horizon, x) {
      assert Awaited(e, k, reach', horizon', x);
    }
  }

  lemma RewindKeeps(e: Env, k: Key, v: Option<Doc>, reach: nat, horizon: nat, at: nat)
    requires at <= reach
    ensures Current(e, k, v, reach, horizon) ==> Current(e, k, v, at, horizon)
    ensures Absent(e, k, v, reach) ==> Absent(e, k, v, at)
  {
    if z: nat :| AsOf(e, k, v, reach, horizon, z) {
      assert AsOf(e, k, v, at, horizon, z);
    }
    if x: nat :| Awaited(e, k, reach, horizon, x) {
      assert Awaited(e, k, at, horizon, x);
    }
  }

  // ---------------------------------------------------------------- what deliveries do to the sink

  /** For plain changes the mirror's value of a touched key does not depend on what it held. */
  lemma ChangeAt(sink: map<Key, Doc>, ch: Change, k: Key, before: Option<Doc>)
    requires Plain(ch)
    ensures SinkAt(ApplyChange(sink, ch), k) == if Touches(ch, k) then Effect(before, ch, k) else SinkAt(sink, k)
  {}

  lemma {:induction false} RowsAtKey(sink: map<Key, Doc>, rows: seq<Row>, k: Key)
    ensures (exists r :: r in rows && r.key == k && SinkAt(ApplyRows(sink, rows), k) == Some(r.doc))
            || ((forall r | r in rows :: r.key != k) && SinkAt(ApplyRows(sink, rows), k) == SinkAt(sink, k))
    decreases |rows|
  {
    if rows == [] {
    } else {
      RowsAtKey(sink[rows[0].key := rows[0].doc], rows[1..], k);
      assert rows[0] in rows;
    }
  }

  lemma {:induction false} PartSome(rows: seq<Row>, keys: set<Key>, r: Row)
    requires r in Part(rows, keys)
    ensures r in rows
  {
    if rows[0].key in keys && r == rows[0] {
    } else {
      PartSome(rows[1..], keys, r);
    }
  }

  /** An event of ours makes the keys it touches current and leaves the others. */
  lemma EventKeeps(e: Env, sink: map<Key, Doc>, k: Key, reach: nat, horizon: nat, x: nat, reach': nat, horizon': nat)
    requires IsOurs(e, x) && Plain(e.wal[x].change)
    requires reach <= x < horizon' <= |e.wal| && horizon <= horizon' && (reach' == reach || reach' == reach + 1 == x + 1)
    ensures var v, v' := SinkAt(sink, k), SinkAt(ApplyChange(sink, e.wal[x].change), k);
            && (Current(e, k, v, reach, horizon) ==> Current(e, k, v', reach', horizon'))
            && (Absent(e, k, v, reach) ==> Current(e, k, v', reach', horizon') || Absent(e, k, v', reach'))
  {
    hide Current, Absent, ApplyChange, Plain;
    ChangeAt(sink, e.wal[x].change, k, ValueAt(e, k, x));
    var v' := SinkAt(ApplyChange(sink, e.wal[x].change), k);
    if TouchedAt(e, x, k) {
      FreshIsCurrent(e, k, v', reach', horizon', x + 1);
    } else {
      PassingKeeps(e, k, v', reach, horizon, reach', horizon');
    }
  }

  /** Rows that are what the source holds at their watermark leave every key at least as good. */
  lemma RowsKeep(e: Env, sink: map<Key, Doc>, rows: seq<Row>, k: Key, reach: nat, horizon: nat, x: nat, reach': nat, horizon': nat)
    requires x < |e.wal| && !IsOurs(e, x) && (forall r | r in rows :: ValueAt(e, r.key, x) == Some(r.doc))
    requires reach <= x < horizon' <= |e.wal| && horizon <= horizon' && (reach' == reach || reach' == reach + 1 == x + 1)
    ensures var v, v' := SinkAt(sink, k), SinkAt(ApplyRows(sink, rows), k);
            && (Current(e, k, v, reach, horizon) ==> Current(e, k, v', reach', horizon'))
            && (Absent(e, k, v, reach) ==> Current(e, k, v', reach', horizon') || Absent(e, k, v', reach'))
            && ((exists r :: r in rows && r.key == k) ==> Current(e, k, v', reach', horizon'))
  {
    hide Current, Absent, ApplyRows;
    RowsAtKey(sink, rows, k);
    var v' := SinkAt(ApplyRows(sink, rows), k);
    if r :| r in rows && r.key == k {
      assert ValueAt(e, k, x + 1) == ValueAt(e, k, x);
      FreshIsCurrent(e, k, v', reach', horizon', x + 1);
    } else {
      PassingKeeps(e, k, v', reach, horizon, reach', horizon');
    }
  }
}
