/**
  Backfill converges: once a table is marked done, the sink holds exactly what the source holds, for
  every key, in every interleaving of live changes, chunks, restarts, failures and crashes.
*/
module Sync {
  import opened Prelude
  import opened Coordinator
  import opened SourceTable
  import opened Convergence
  import opened ChunkProtocol
  import opened ChunkRuns
  import opened Mirroring

  /** No truncate of ours stands strictly between the two positions. */
  ghost predicate NotTruncated(e: Env, lo: nat, hi: nat) {
    forall x: nat | lo < x < hi && IsOurs(e, x) :: !e.wal[x].change.Truncate?
  }

  /** What the log must look like: changes carry their key and keep it, and no truncate falls
      between the watermarks of one of this table's chunks. */
  ghost predicate Tame(e: Env, past: Past) {
    && (forall x: nat | x < |e.wal| && IsOurs(e, x) :: Plain(e.wal[x].change))
    && (forall id | id in past.lowAt && id in past.highAt :: NotTruncated(e, past.lowAt[id], past.highAt[id]))
  }

  /** Histories only grow, so what a later one rules out an earlier one does. */
  lemma TameBefore(e: Env, past: Past, past': Past)
    requires Grows(past, past') && Tame(e, past')
    ensures Tame(e, past)
  {
    hide NotTruncated, Plain, IsOurs;
  }

  // ---------------------------------------------------------------- a chunk's rows

  /** Where a chunk's watermarks and its select stand. */
  lemma WindowStands(e: Env, written: nat, nextId: nat, past: Past, id: nat)
    requires Log(e, written, nextId, past) && id in past.highAt
    ensures id in past.picked && id in past.lowAt && id in past.origin && past.highAt[id] < written <= |e.wal|
    ensures past.lowAt[id] < past.picked[id].sel <= past.highAt[id]
    ensures e.wal[past.lowAt[id]] == Mark(id, false) && e.wal[past.highAt[id]] == Mark(id, true)
    ensures Page(e, past.origin[id], past.picked[id].sel, past.picked[id].rows)
  {
    hide Page, MarkPlaced;
    assert HighOk(e, written, past, id) && PickOk(e, written, past, id) && LowOk(e, written, past, id);
  }

  /** Between watermarks, a key that was not seen was not touched. */
  lemma UnseenKept(e: Env, lo: nat, sel: nat, hi: nat, k: Key)
    requires lo < sel <= hi < |e.wal| && NotTruncated(e, lo, hi) && k !in SeenIn(e, lo + 1, hi)
    requires forall x: nat | x < |e.wal| && IsOurs(e, x) :: Plain(e.wal[x].change)
    ensures ValueAt(e, k, sel) == ValueAt(e, k, hi)
  {
    hide SeenIn, ValueAt;
    forall x | lo + 1 <= x < hi && e.wal[x].Changed? && e.wal[x].table == e.table
      ensures e.wal[x].change.Put? || e.wal[x].change.Del?
    {
      assert IsOurs(e, x);
    }
    UnseenUntouched(e, k, lo + 1, hi);
    StillThere(e, k, sel, hi);
  }

  lemma WindowTells(e: Env, written: nat, nextId: nat, past: Past, id: nat, k: Key)
    requires Tame(e, past) && Log(e, written, nextId, past) && id in past.highAt
    ensures id in past.picked && id in past.lowAt && id in past.origin && past.highAt[id] < written <= |e.wal|
    ensures past.lowAt[id] < past.picked[id].sel <= past.highAt[id]
    ensures Page(e, past.origin[id], past.picked[id].sel, past.picked[id].rows)
    ensures k !in SeenIn(e, past.lowAt[id] + 1, past.highAt[id]) ==>
              ValueAt(e, k, past.picked[id].sel) == ValueAt(e, k, past.highAt[id])
  {
    hide Log, SeenIn, ValueAt, Page, NotTruncated, Plain, IsOurs;
    WindowStands(e, written, nextId, past, id);
    if k !in SeenIn(e, past.lowAt[id] + 1, past.highAt[id]) {
      UnseenKept(e, past.lowAt[id], past.picked[id].sel, past.highAt[id], k);
    }
  }

  /** What a chunk releases is what the source holds at its high watermark. */
  lemma ReleasedIsCurrent(e: Env, written: nat, nextId: nat, past: Past, id: nat, r: Row)
    requires Tame(e, past) && Log(e, written, nextId, past) && id in past.highAt && r in Release(e, past, id)
    ensures past.highAt[id] <= |e.wal| && ValueAt(e, r.key, past.highAt[id]) == Some(r.doc)
  {
    hide Log, Tame, ValueAt, SeenIn;
    WindowTells(e, written, nextId, past, id, r.key);
    SurvivingIff(past.picked[id].rows, SeenIn(e, past.lowAt[id] + 1, past.highAt[id]), r);
  }

  /** A key of the chunk's range is among the released rows, or was touched between the watermarks,
      or is gone at the high one. */
  lemma RangeTells(e: Env, written: nat, nextId: nat, past: Past, id: nat, k: Key)
    requires Tame(e, past) && Log(e, written, nextId, past) && id in past.highAt && Covers(e, past, id, k)
    ensures past.highAt[id] < |e.wal|
    ensures (exists r :: r in Release(e, past, id) && r.key == k)
            || (exists y: nat :: y < past.highAt[id] && TouchedAt(e, y, k))
            || ValueAt(e, k, past.highAt[id]) == None
  {
    hide Log, Tame, ValueAt, SeenIn;
    WindowTells(e, written, nextId, past, id, k);
    var rows, seen := past.picked[id].rows, SeenIn(e, past.lowAt[id] + 1, past.highAt[id]);
    if k in seen {
      SeenTouched(e, k, past.lowAt[id] + 1, past.highAt[id]);
    } else if ValueAt(e, k, past.picked[id].sel).Some? {
      var r := Row(k, ValueAt(e, k, past.picked[id].sel).value);
      SurvivingIff(rows, seen, r);
    }
  }

  // ---------------------------------------------------------------- the invariant

  ghost predicate KeyOk(e: Env, k: Key, v: Option<Doc>, reach: nat, horizon: nat) {
    Current(e, k, v, reach, horizon) || Absent(e, k, v, reach)
  }

  ghost predicate SinkOk(e: Env, sink: map<Key, Doc>, reach: nat, horizon: nat) {
    forall k: Key :: KeyOk(e, k, SinkAt(sink, k), reach, horizon)
  }

  ghost predicate RangeOk(e: Env, past: Past, id: nat, sink: map<Key, Doc>, reach: nat, horizon: nat) {
    forall k: Key | Covers(e, past, id, k) :: Current(e, k, SinkAt(sink, k), reach, horizon)
  }

  /** Every key of a finished chunk is current. */
  ghost predicate DoneOk(e: Env, c: Coord, past: Past, sink: map<Key, Doc>, reach: nat, horizon: nat) {
    forall id | id in past.origin && id in c.chunks && c.chunks[id].done :: RangeOk(e, past, id, sink, reach, horizon)
  }

  /** Credited chunks are finished. */
  ghost predicate TrailDone(c: Coord, past: Past, trail: seq<nat>) {
    forall id | id in trail :: id in past.origin && id in c.chunks && c.chunks[id].done
  }

  ghost predicate Synced(e: Env, s: Sys) {
    && s.st.reach <= s.st.horizon <= s.written <= |e.wal|
    && SinkOk(e, s.st.sink, s.st.reach, s.st.horizon)
    && DoneOk(e, s.co, s.past, s.st.sink, s.st.reach, s.st.horizon)
    && TrailDone(s.co, s.past, s.saved.trail) && TrailDone(s.co, s.past, s.cached.trail)
    && TrailDone(s.co, s.past, s.lane.trail)
  }

  // ---------------------------------------------------------------- stream steps

  /** From one standing of all keys to the next, no key loses. */
  ghost predicate NoKeyLoses(e: Env, sink: map<Key, Doc>, reach: nat, horizon: nat, sink': map<Key, Doc>, reach': nat, horizon': nat) {
    forall k: Key {:trigger SinkAt(sink', k)} ::
      && (Current(e, k, SinkAt(sink, k), reach, horizon) ==> Current(e, k, SinkAt(sink', k), reach', horizon'))
      && (Absent(e, k, SinkAt(sink, k), reach) ==> KeyOk(e, k, SinkAt(sink', k), reach', horizon'))
  }

  lemma DeliveryKeeps(e: Env, s: Sys, st': Stream)
    requires Tame(e, s.past) && Protocol(e, s) && Synced(e, s) && CanDeliver(e, s)
    requires st' == StreamDelivered(e, s.st)
    ensures st'.reach <= st'.horizon <= s.written
    ensures NoKeyLoses(e, s.st.sink, s.st.reach, s.st.horizon, st'.sink, st'.reach, st'.horizon)
  {
    hide LaneOk, Channels, Collecting, Records, ReleasedOnce, SavedOk, LaneProgress, Log, Release, SinkOk, DoneOk, TrailDone,
         Current, Absent, ApplyChange, ApplyRows;
    var u := s.st.queue[0];
    assert UnitOk(e, s.co.inflight, s.past, u);
    forall k: Key
      ensures Current(e, k, SinkAt(s.st.sink, k), s.st.reach, s.st.horizon) ==> Current(e, k, SinkAt(st'.sink, k), st'.reach, st'.horizon)
      ensures Absent(e, k, SinkAt(s.st.sink, k), s.st.reach) ==> KeyOk(e, k, SinkAt(st'.sink, k), st'.reach, st'.horizon)
    {
      if IsOurs(e, u.pos) {
        EventKeeps(e, s.st.sink, k, s.st.reach, s.st.horizon, u.pos, st'.reach, st'.horizon);
      } else {
        forall r | r in u.rows ensures ValueAt(e, r.key, u.pos) == Some(r.doc) {
          UnitRow(e, s, u, r);
        }
        RowsKeep(e, s.st.sink, u.rows, k, s.st.reach, s.st.horizon, u.pos, st'.reach, st'.horizon);
      }
    }
  }

  /** A queued row is what the source holds at its unit's position. */
  lemma UnitRow(e: Env, s: Sys, u: Unit, r: Row)
    requires Tame(e, s.past) && Log(e, s.written, s.co.nextId, s.past) && UnitOk(e, s.co.inflight, s.past, u) && r in u.rows
    requires u.pos < s.written
    ensures ValueAt(e, r.key, u.pos) == Some(r.doc)
  {
    hide Log, Tame, ValueAt, Release;
    var id := e.wal[u.pos].id;
    ReleasedIsCurrent(e, s.written, s.co.nextId, s.past, id, r);
    HighStands(e, s.written, s.co.nextId, s.past, u.pos);
  }

  lemma HighStands(e: Env, written: nat, nextId: nat, past: Past, x: nat)
    requires Log(e, written, nextId, past) && x < written && x < |e.wal| && e.wal[x].Mark? && e.wal[x].high && e.wal[x].id in past.highAt
    ensures past.highAt[e.wal[x].id] == x
  {
    hide LowOk, Page;
    assert HighOk(e, written, past, e.wal[x].id) && PickOk(e, written, past, e.wal[x].id);
    assert MarkPlaced(e, past, x);
  }

  lemma FailureKeeps(e: Env, s: Sys, live: bool, keys: set<Key>, st': Stream)
    requires Tame(e, s.past) && Protocol(e, s) && Synced(e, s) && CanDeliver(e, s)
    requires st' == StreamFailed(e, s.st, live, keys)
    ensures st'.reach <= st'.horizon <= s.written
    ensures NoKeyLoses(e, s.st.sink, s.st.reach, s.st.horizon, st'.sink, st'.reach, st'.horizon)
  {
    hide LaneOk, Channels, Collecting, Records, ReleasedOnce, SavedOk, LaneProgress, Log, Release, SinkOk, DoneOk, TrailDone,
         Current, Absent, ApplyChange, ApplyRows;
    var u := s.st.queue[0];
    assert UnitOk(e, s.co.inflight, s.past, u);
    forall k: Key
      ensures Current(e, k, SinkAt(s.st.sink, k), s.st.reach, s.st.horizon) ==> Current(e, k, SinkAt(st'.sink, k), st'.reach, st'.horizon)
      ensures Absent(e, k, SinkAt(s.st.sink, k), s.st.reach) ==> KeyOk(e, k, SinkAt(st'.sink, k), st'.reach, st'.horizon)
    {
      if !IsOurs(e, u.pos) {
        forall r | r in Part(u.rows, keys) ensures ValueAt(e, r.key, u.pos) == Some(r.doc) {
          PartSome(u.rows, keys, r);
          UnitRow(e, s, u, r);
        }
        RowsKeep(e, s.st.sink, Part(u.rows, keys), k, s.st.reach, s.st.horizon, u.pos, st'.reach, st'.horizon);
      } else if live {
        EventKeeps(e, s.st.sink, k, s.st.reach, s.st.horizon, u.pos, st'.reach, st'.horizon);
      } else {
        PassingKeeps(e, k, SinkAt(s.st.sink, k), s.st.reach, s.st.horizon, st'.reach, st'.horizon);
      }
    }
  }

  lemma StartKeepsKeys(e: Env, sink: map<Key, Doc>, reach: nat, horizon: nat, at: nat)
    requires at <= reach
    ensures NoKeyLoses(e, sink, reach, horizon, sink, at, horizon)
  {
    hide Current, Absent;
    forall k: Key
      ensures Current(e, k, SinkAt(sink, k), reach, horizon) ==> Current(e, k, SinkAt(sink, k), at, horizon)
      ensures Absent(e, k, SinkAt(sink, k), reach) ==> Absent(e, k, SinkAt(sink, k), at)
    {
      RewindKeeps(e, k, SinkAt(sink, k), reach, horizon, at);
    }
  }

  lemma FurtherKeepsKeys(e: Env, sink: map<Key, Doc>, reach: nat, horizon: nat, horizon': nat)
    requires horizon <= horizon' <= |e.wal|
    ensures NoKeyLoses(e, sink, reach, horizon, sink, reach, horizon')
  {
    hide Current, Absent;
    forall k: Key
      ensures Current(e, k, SinkAt(sink, k), reach, horizon) ==> Current(e, k, SinkAt(sink, k), reach, horizon')
    {
      PassingKeeps(e, k, SinkAt(sink, k), reach, horizon, reach, horizon');
    }
  }

  /** If no key loses and the finished chunks are those from before, the invariant carries over. */
  lemma KeysKeep(e: Env, c: Coord, c': Coord, past: Past, past': Past, sink: map<Key, Doc>, reach: nat, horizon: nat,
                 sink': map<Key, Doc>, reach': nat, horizon': nat, extra: set<nat>)
    requires SinkOk(e, sink, reach, horizon) && DoneOk(e, c, past, sink, reach, horizon)
    requires NoKeyLoses(e, sink, reach, horizon, sink', reach', horizon')
    requires forall id | id in past'.origin && id in c'.chunks && c'.chunks[id].done && id !in extra ::
               && id in past.origin && id in c.chunks && c.chunks[id].done
               && RowsOf(past', id) == RowsOf(past, id) && OriginOf(past', id) == OriginOf(past, id)
    requires forall id | id in past'.origin && id in extra :: RangeOk(e, past', id, sink', reach', horizon')
    ensures SinkOk(e, sink', reach', horizon') && DoneOk(e, c', past', sink', reach', horizon')
  {
    hide Current, Absent, InRange, RowsOf, OriginOf;
    forall k: Key ensures KeyOk(e, k, SinkAt(sink', k), reach', horizon') {
      assert KeyOk(e, k, SinkAt(sink, k), reach, horizon);
    }
    forall id | id in past'.origin && id in c'.chunks && c'.chunks[id].done && id !in extra
      ensures RangeOk(e, past', id, sink', reach', horizon')
    {
      assert RangeOk(e, past, id, sink, reach, horizon);
      forall k: Key | Covers(e, past', id, k) ensures Current(e, k, SinkAt(sink', k), reach', horizon') {
        assert Covers(e, past, id, k);
      }
    }
  }

  // ---------------------------------------------------------------- finishing a chunk

  /** Delivering a chunk's high watermark makes every key of its range current. */
  lemma DeliveredRange(e: Env, s: Sys, id: nat, st': Stream)
    requires Tame(e, s.past) && Protocol(e, s) && Synced(e, s) && CanDeliver(e, s) && st' == StreamDelivered(e, s.st)
    requires e.wal[s.st.queue[0].pos] == Mark(id, true) && id in s.past.origin && id in s.co.inflight
    ensures RangeOk(e, s.past, id, st'.sink, st'.reach, st'.horizon)
  {
    hide LaneOk, Channels, Collecting, Records, ReleasedOnce, SavedOk, LaneProgress, DoneOk, TrailDone, ApplyRows,
         Release, Log, Current, Absent, Covers, ValueAt, Tame;
    var u := s.st.queue[0];
    var x := u.pos;
    assert UnitOk(e, s.co.inflight, s.past, u);
    OurHigh(e, s.written, s.co.nextId, s.past, x);
    forall r | r in u.rows ensures ValueAt(e, r.key, x) == Some(r.doc) { UnitRow(e, s, u, r); }
    forall k: Key | Covers(e, s.past, id, k) ensures Current(e, k, SinkAt(st'.sink, k), st'.reach, st'.horizon) {
      RangeTells(e, s.written, s.co.nextId, s.past, id, k);
      RowsKeep(e, s.st.sink, u.rows, k, s.st.reach, s.st.horizon, x, st'.reach, st'.horizon);
      assert KeyOk(e, k, SinkAt(s.st.sink, k), s.st.reach, s.st.horizon);
      if !Current(e, k, SinkAt(s.st.sink, k), s.st.reach, s.st.horizon) && !(exists r :: r in u.rows && r.key == k) {
        RowsAtKey(s.st.sink, u.rows, k);
        AbsentInRange(e, k, SinkAt(s.st.sink, k), s.st.reach, x, st'.reach, st'.horizon);
      }
    }
  }

  lemma OurHigh(e: Env, written: nat, nextId: nat, past: Past, x: nat)
    requires Log(e, written, nextId, past) && x < written && x < |e.wal| && e.wal[x].Mark? && e.wal[x].high && e.wal[x].id in past.origin
    ensures e.wal[x].id in past.highAt && past.highAt[e.wal[x].id] == x
  {
    hide LowOk, PickOk, HighOk;
    assert MarkPlaced(e, past, x);
  }

  /** A key the sink never had, in the range of a chunk that finishes at `x`. */
  lemma AbsentInRange(e: Env, k: Key, v: Option<Doc>, reach: nat, x: nat, reach': nat, horizon': nat)
    requires Absent(e, k, v, reach) && reach <= x < horizon' <= |e.wal| && !IsOurs(e, x)
    requires reach' == reach || reach' == x + 1
    requires (exists y: nat :: y < x && TouchedAt(e, y, k)) || ValueAt(e, k, x) == None
    requires reach' == x + 1 ==> reach == x
    ensures Current(e, k, v, reach', horizon')
  {
    if y: nat :| y < x && TouchedAt(e, y, k) {
      assert reach <= y;
      assert Awaited(e, k, reach', horizon', y);
    } else {
      assert ValueAt(e, k, x + 1) == ValueAt(e, k, x);
      FreshIsCurrent(e, k, v, reach', horizon', x + 1);
    }
  }

  /** An empty chunk finishes at once: everything beyond its origin is absent from the source. */
  lemma EmptyRange(e: Env, past: Past, id: nat, from: Option<Key>, sel: nat, sink: map<Key, Doc>, reach: nat, horizon: nat)
    requires SinkOk(e, sink, reach, horizon) && sel <= horizon <= |e.wal|
    requires Page(e, from, sel, []) && OriginOf(past, id) == from && RowsOf(past, id) == []
    ensures RangeOk(e, past, id, sink, reach, horizon)
  {
    hide Current, ValueAt;
    forall k: Key | Covers(e, past, id, k) ensures Current(e, k, SinkAt(sink, k), reach, horizon) {
      assert ValueAt(e, k, sel) == None;
      assert KeyOk(e, k, SinkAt(sink, k), reach, horizon);
      if !Current(e, k, SinkAt(sink, k), reach, horizon) {
        AbsentAsOf(e, k, SinkAt(sink, k), reach, horizon, sel);
      }
    }
  }

  lemma AbsentAsOf(e: Env, k: Key, v: Option<Doc>, reach: nat, horizon: nat, sel: nat)
    requires Absent(e, k, v, reach) && sel <= horizon <= |e.wal| && ValueAt(e, k, sel) == None
    ensures Current(e, k, v, reach, horizon)
  {
    assert AsOf(e, k, v, reach, horizon, sel);
  }

  // ---------------------------------------------------------------- every step

  /** Finished chunks stay finished, with the range they had; `extra` may be newly finished. */
  ghost predicate DoneFrom(c: Coord, c': Coord, past: Past, past': Past, extra: set<nat>) {
    && (forall id | id in past.origin && id in c.chunks && c.chunks[id].done ::
          id in past'.origin && id in c'.chunks && c'.chunks[id].done)
    && (forall id | id in past'.origin && id in c'.chunks && c'.chunks[id].done && id !in extra ::
          && id in past.origin && id in c.chunks && c.chunks[id].done
          && RowsOf(past', id) == RowsOf(past, id) && OriginOf(past', id) == OriginOf(past, id))
  }

  /** The trails a step leaves behind: one of those before, or a finished chunk more. */
  predicate TrailFrom(s: Sys, trail: seq<nat>, extra: seq<nat>) {
    trail == [] || trail == s.saved.trail || trail == s.cached.trail || trail == s.lane.trail || trail == s.lane.trail + extra
  }

  lemma TrailKeeps(s: Sys, c': Coord, past': Past, extra: set<nat>, trail: seq<nat>, head: seq<nat>)
    requires TrailDone(s.co, s.past, s.saved.trail) && TrailDone(s.co, s.past, s.cached.trail) && TrailDone(s.co, s.past, s.lane.trail)
    requires DoneFrom(s.co, c', s.past, past', extra) && TrailDone(s.co, s.past, head) && TrailFrom(s, trail, head)
    ensures TrailDone(c', past', trail)
  {
    assert forall id | id in s.lane.trail + head :: id in s.lane.trail || id in head;
  }

  lemma SyncedFrom(e: Env, s: Sys, s': Sys, extra: set<nat>, head: seq<nat>)
    requires Synced(e, s) && s'.st.reach <= s'.st.horizon <= s'.written <= |e.wal|
    requires NoKeyLoses(e, s.st.sink, s.st.reach, s.st.horizon, s'.st.sink, s'.st.reach, s'.st.horizon)
    requires DoneFrom(s.co, s'.co, s.past, s'.past, extra)
    requires forall id | id in extra :: RangeOk(e, s'.past, id, s'.st.sink, s'.st.reach, s'.st.horizon)
    requires TrailDone(s.co, s.past, head)
    requires TrailFrom(s, s'.saved.trail, head) && TrailFrom(s, s'.cached.trail, head) && TrailFrom(s, s'.lane.trail, head)
    ensures Synced(e, s')
  {
    hide SinkOk, DoneOk, TrailDone, TrailFrom, NoKeyLoses, RangeOk;
    TrailKeeps(s, s'.co, s'.past, extra, s'.saved.trail, head);
    TrailKeeps(s, s'.co, s'.past, extra, s'.cached.trail, head);
    TrailKeeps(s, s'.co, s'.past, extra, s'.lane.trail, head);
    KeysKeep(e, s.co, s'.co, s.past, s'.past, s.st.sink, s.st.reach, s.st.horizon, s'.st.sink, s'.st.reach, s'.st.horizon, extra);
  }

  lemma SameKeys(e: Env, sink: map<Key, Doc>, reach: nat, horizon: nat)
    ensures NoKeyLoses(e, sink, reach, horizon, sink, reach, horizon)
  {}

  /** Steps that touch neither the sink nor what is finished. */
  lemma QuietSynced(e: Env, s: Sys, s': Sys, head: seq<nat>)
    requires Synced(e, s) && s.written <= s'.written <= |e.wal|
    requires s'.st.sink == s.st.sink && s'.st.reach == s.st.reach && s'.st.horizon == s.st.horizon
    requires DoneFrom(s.co, s'.co, s.past, s'.past, {}) && TrailDone(s.co, s.past, head)
    requires TrailFrom(s, s'.saved.trail, head) && TrailFrom(s, s'.cached.trail, head) && TrailFrom(s, s'.lane.trail, head)
    ensures Synced(e, s')
  {
    SameKeys(e, s.st.sink, s.st.reach, s.st.horizon);
    hide DoneFrom, TrailFrom, TrailDone, NoKeyLoses, SinkOk, DoneOk;
    SyncedFrom(e, s, s', {}, head);
  }

  lemma SelectSynced(e: Env, s: Sys, sel: nat, rows: seq<Row>)
    requires Protocol(e, s) && Synced(e, s) && CanSelect(e, s, sel, rows)
    ensures Synced(e, DoSelect(s, sel, rows))
  {
    hide WindowOk, Channels, Collecting, Records, QueueOk, ReleasedOnce, SavedOk, LaneProgress, Log, Page,
         SinkOk, DoneOk, TrailDone, NoKeyLoses, Release, RangeOk;
    var s' := DoSelect(s, sel, rows);
    var n := s.lane.starting.id;
    StartRecord(e, s);
    FurtherKeepsKeys(e, s.st.sink, s.st.reach, s.st.horizon, s'.st.horizon);
    var extra := if rows == [] then {n} else {};
    if rows == [] {
      FurtherOk(e, s.st.sink, s.st.reach, s.st.horizon, s'.st.horizon);
      EmptyRange(e, s'.past, n, s.lane.next, sel, s.st.sink, s.st.reach, s'.st.horizon);
    }
    NoTrail(s.co, s.past);
    SyncedFrom(e, s, s', extra, []);
  }

  lemma NoTrail(c: Coord, past: Past)
    ensures TrailDone(c, past, [])
  {}

  lemma FurtherOk(e: Env, sink: map<Key, Doc>, reach: nat, horizon: nat, horizon': nat)
    requires SinkOk(e, sink, reach, horizon) && horizon <= horizon' <= |e.wal|
    ensures SinkOk(e, sink, reach, horizon')
  {
    hide Current, Absent;
    FurtherKeepsKeys(e, sink, reach, horizon, horizon');
    forall k: Key ensures KeyOk(e, k, SinkAt(sink, k), reach, horizon') {
      assert KeyOk(e, k, SinkAt(sink, k), reach, horizon);
    }
  }

  lemma DeliverSynced(e: Env, s: Sys)
    requires Tame(e, s.past) && Protocol(e, s) && Synced(e, s) && CanDeliver(e, s)
    ensures Synced(e, DoDeliver(e, s))
  {
    hide LaneOk, Channels, Collecting, Records, QueueOk, ReleasedOnce, SavedOk, LaneProgress, Log, Tame,
         SinkOk, DoneOk, TrailDone, NoKeyLoses, RangeOk, StreamDelivered;
    var s' := DoDeliver(e, s);
    var entry := e.wal[s.st.queue[0].pos];
    DeliveryKeeps(e, s, s'.st);
    var ours := entry.Mark? && entry.high && Known(s.co, entry.id) && entry.id in s.past.origin;
    if ours { DeliveredRange(e, s, entry.id, s'.st); }
    NoTrail(s.co, s.past);
    SyncedFrom(e, s, s', if ours then {entry.id} else {}, []);
  }

  lemma DeliverFailSynced(e: Env, s: Sys, live: bool, keys: set<Key>)
    requires Tame(e, s.past) && Protocol(e, s) && Synced(e, s) && CanDeliver(e, s)
    ensures Synced(e, DoDeliverFail(e, s, live, keys))
  {
    hide Protocol, Tame, SinkOk, DoneOk, TrailDone, NoKeyLoses, RangeOk, StreamFailed;
    FailureKeeps(e, s, live, keys, DoDeliverFail(e, s, live, keys).st);
    NoTrail(s.co, s.past);
    SyncedFrom(e, s, DoDeliverFail(e, s, live, keys), {}, []);
  }

  lemma StartSynced(e: Env, s: Sys, at: nat)
    requires Synced(e, s) && at <= s.st.reach
    ensures Synced(e, DoStart(s, at))
  {
    hide SinkOk, DoneOk, TrailDone, NoKeyLoses, RangeOk;
    StartKeepsKeys(e, s.st.sink, s.st.reach, s.st.horizon, at);
    NoTrail(s.co, s.past);
    SyncedFrom(e, s, DoStart(s, at), {}, []);
  }

  lemma CreditSynced(e: Env, s: Sys, saves: bool)
    requires Protocol(e, s) && Synced(e, s) && CanCredit(s)
    ensures Synced(e, DoCredit(e, s, saves))
  {
    hide Protocol, SinkOk, DoneOk, RangeOk, Release, RowsOf, OriginOf, Complete;
    HeadRecord(e, s);
    QuietSynced(e, s, DoCredit(e, s, saves), [s.lane.window[0]]);
  }

  lemma RegisterSynced(e: Env, s: Sys)
    requires Protocol(e, s) && Synced(e, s) && CanRegister(s)
    ensures Synced(e, DoRegister(e, s))
  {
    hide Protocol, SinkOk, DoneOk, RangeOk, TrailDone;
    FreshId(e, s);
    NoTrail(s.co, s.past);
    QuietSynced(e, s, DoRegister(e, s), []);
  }

  lemma HandleSynced(e: Env, s: Sys)
    requires Synced(e, s) && CanHandle(e, s)
    ensures Synced(e, DoHandle(e, s))
  {
    hide SinkOk, DoneOk, RangeOk, TrailDone, Streamed, RowsAt;
    StreamedShape(s.co, e.wal[s.st.pos]);
    NoTrail(s.co, s.past);
    QuietSynced(e, s, DoHandle(e, s), []);
  }

  lemma OthersSynced(e: Env, s: Sys, c: Coord)
    requires Protocol(e, s) && Synced(e, s) && Rely(e, s.past, s.co, c)
    ensures Synced(e, s.(co := c))
  {
    hide LaneOk, Channels, Collecting, Records, QueueOk, ReleasedOnce, SavedOk, LaneProgress, Log,
         SinkOk, DoneOk, RangeOk, TrailDone, RowsOf, OriginOf;
    NoTrail(s.co, s.past);
    QuietSynced(e, s, s.(co := c), []);
  }

  lemma SyncKeeps(e: Env, s: Sys, step: Step)
    requires Tame(e, s.past) && Protocol(e, s) && Synced(e, s) && Enabled(e, s, step)
    ensures Synced(e, Next(e, s, step))
  {
    hide Protocol, Tame, SinkOk, DoneOk, RangeOk, TrailDone, DoRegister, DoSelect, DoCredit, DoStart, DoHandle, DoDeliver, DoDeliverFail,
         CanRegister, CanSelect, CanCredit, CanHandle, CanDeliver, Rely, CanBegin, CanRetry;
    NoTrail(s.co, s.past);
    match step
    case OtherLanes(c) => OthersSynced(e, s, c);
    case Register => RegisterSynced(e, s);
    case Select(sel, rows) => SelectSynced(e, s, sel, rows);
    case HeadDone(saves) => CreditSynced(e, s, saves);
    case StreamStart(at) => StartSynced(e, s, at);
    case Handle => HandleSynced(e, s);
    case Deliver => DeliverSynced(e, s);
    case DeliverFail(live, keys) => DeliverFailSynced(e, s, live, keys);
    case _ => QuietSynced(e, s, Next(e, s, step), []);
  }

  // ---------------------------------------------------------------- the theorems

  lemma InitSynced(e: Env)
    ensures Synced(e, INIT)
  {
    hide Current;
    forall k: Key ensures KeyOk(e, k, SinkAt(map[], k), 0, 0) {
      assert Absent(e, k, SinkAt(map[], k), 0);
    }
  }

  lemma {:induction false} RunSyncs(e: Env, trace: seq<Step>)
    requires e.size > 0
    ensures var r := Exec(e, trace); r.Some? && Tame(e, r.value.past) ==> Synced(e, r.value)
  {
    hide Synced, Protocol, Enabled, Next, Tame, Ordered;
    if trace == [] {
      InitSynced(e);
    } else {
      RunSyncs(e, trace[..|trace| - 1]);
      var before, step := Exec(e, trace[..|trace| - 1]), trace[|trace| - 1];
      if before.Some? && Enabled(e, before.value, step) {
        RunKeeps(e, trace[..|trace| - 1]);
        HistoryGrows(e, before.value, step);
        if Tame(e, Next(e, before.value, step).past) {
          TameBefore(e, before.value.past, Next(e, before.value, step).past);
          SyncKeeps(e, before.value, step);
        }
      }
    }
  }

  lemma AlwaysSynced(e: Env, s: Sys)
    requires e.size > 0 && Tame(e, s.past) && Reachable(e, s)
    ensures Synced(e, s)
  {
    hide Synced, Tame;
    var trace :| Exec(e, trace) == Some(s);
    RunSyncs(e, trace);
  }

  /** Once all chunks of a finished table are credited, every key is current. */
  lemma DoneIsCurrent(e: Env, s: Sys, v: Saved, k: Key)
    requires e.size > 0 && Log(e, s.written, s.co.nextId, s.past) && Synced(e, s) && SavedOk(e, s.past, v) && v.done
    requires TrailDone(s.co, s.past, v.trail)
    ensures Current(e, k, SinkAt(s.st.sink, k), s.st.reach, s.st.horizon)
  {
    hide Log, Covers, Current, SinkOk;
    ProperChunks(e, s.written, s.co.nextId, s.past);
    hide Proper, Tiles, Total;
    SavedPartition(e, s.past, v);
    assert Covered(e, s.past, v.trail, k);
    var i :| 0 <= i < |v.trail| && Covers(e, s.past, v.trail[i], k);
    assert v.trail[i] in v.trail;
    assert RangeOk(e, s.past, v.trail[i], s.st.sink, s.st.reach, s.st.horizon);
  }

  /** Backfill converges. Once the table is marked done, the sink agrees with the source at the
      delivered position on every key that nothing between there and the horizon touches ... */
  lemma Converges(e: Env, s: Sys, k: Key)
    requires e.size > 0 && Tame(e, s.past) && Reachable(e, s) && (s.saved.done || s.cached.done)
    requires Untouched(e, k, s.st.reach, s.st.horizon)
    ensures s.st.reach <= |e.wal| && SinkAt(s.st.sink, k) == ValueAt(e, k, s.st.reach)
  {
    hide Reachable, Tame, LaneOk, Channels, Collecting, Records, QueueOk, ReleasedOnce, LaneProgress, Log, Ids, SavedOk,
         SinkOk, DoneOk, TrailDone, Current, Untouched, Ordered;
    Always(e, s);
    AlwaysSynced(e, s);
    DoneIsCurrent(e, s, if s.saved.done then s.saved else s.cached, k);
    CurrentAgrees(e, k, SinkAt(s.st.sink, k), s.st.reach, s.st.horizon);
  }

  /** ... so on every key as soon as delivery has reached the horizon ... */
  lemma ConvergesAtHorizon(e: Env, s: Sys)
    requires e.size > 0 && Tame(e, s.past) && Reachable(e, s) && (s.saved.done || s.cached.done) && s.st.reach >= s.st.horizon
    ensures s.st.reach <= |e.wal| && forall k: Key :: SinkAt(s.st.sink, k) == ValueAt(e, k, s.st.reach)
  {
    hide Reachable, Tame, ValueAt, SinkAt, SinkOk, DoneOk, TrailDone;
    AlwaysSynced(e, s);
    forall k: Key ensures SinkAt(s.st.sink, k) == ValueAt(e, k, s.st.reach) { Converges(e, s, k); }
  }

  /** ... and in particular whenever everything written so far is delivered. */
  lemma ConvergesWhenCaughtUp(e: Env, s: Sys)
    requires e.size > 0 && Tame(e, s.past) && Reachable(e, s) && (s.saved.done || s.cached.done) && s.st.reach == s.written
    ensures s.written <= |e.wal| && forall k: Key :: SinkAt(s.st.sink, k) == ValueAt(e, k, s.written)
  {
    hide Reachable, Tame, ValueAt, SinkAt, SinkOk, DoneOk, TrailDone;
    AlwaysSynced(e, s);
    ConvergesAtHorizon(e, s);
  }

  /** No stale row is ever resurrected: done or not, a key the sink holds is the source's. */
  lemma NoStaleRow(e: Env, s: Sys, k: Key)
    requires e.size > 0 && Tame(e, s.past) && Reachable(e, s) && k in s.st.sink
    requires Untouched(e, k, s.st.reach, s.st.horizon)
    ensures s.st.reach <= |e.wal| && ValueAt(e, k, s.st.reach) == Some(s.st.sink[k])
  {
    hide Reachable, Tame, DoneOk, TrailDone, Current, Untouched;
    AlwaysSynced(e, s);
    assert KeyOk(e, k, SinkAt(s.st.sink, k), s.st.reach, s.st.horizon);
    CurrentAgrees(e, k, SinkAt(s.st.sink, k), s.st.reach, s.st.horizon);
  }
}
