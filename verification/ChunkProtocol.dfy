/**
  What every step of the watermark protocol keeps: the lane, the coordinator, the log and the
  delivery queue agree about every chunk.
*/
module ChunkProtocol {
  import opened Prelude
  import opened Coordinator
  import opened SourceTable
  import opened Convergence

  // ---------------------------------------------------------------- invariants

  /** Chunk ids are fresh, and the coordinator's chunks of our table are the lane's. */
  ghost predicate Ids(e: Env, c: Coord, past: Past) {
    && c.inflight <= c.chunks.Keys
    && (forall id | id in past.origin :: id in c.chunks && c.chunks[id].table == e.table)
    && (forall id | id in c.chunks :: id < c.nextId && (c.chunks[id].table == e.table ==> id in past.origin))
  }

  /** Our watermarks stand in the log exactly where the chunks' history says. */
  ghost predicate MarkPlaced(e: Env, past: Past, x: nat)
    requires x < |e.wal|
  {
    e.wal[x].Mark? && e.wal[x].id in past.origin ==>
      if e.wal[x].high then e.wal[x].id in past.highAt && past.highAt[e.wal[x].id] == x
      else e.wal[x].id in past.lowAt && past.lowAt[e.wal[x].id] == x
  }

  ghost predicate LowOk(e: Env, written: nat, past: Past, id: nat)
    requires id in past.lowAt
  {
    id in past.origin && past.lowAt[id] < written <= |e.wal| && e.wal[past.lowAt[id]] == Mark(id, false)
  }

  ghost predicate PickOk(e: Env, written: nat, past: Past, id: nat)
    requires id in past.picked
  {
    && id in past.lowAt && id in past.origin
    && past.lowAt[id] < past.picked[id].sel <= written <= |e.wal|
    && Page(e, past.origin[id], past.picked[id].sel, past.picked[id].rows)
  }

  ghost predicate HighOk(e: Env, written: nat, past: Past, id: nat)
    requires id in past.highAt
  {
    && id in past.picked && past.picked[id].rows != []
    && past.picked[id].sel <= past.highAt[id] < written <= |e.wal|
    && e.wal[past.highAt[id]] == Mark(id, true)
  }

  ghost predicate Log(e: Env, written: nat, nextId: nat, past: Past) {
    && written <= |e.wal|
    && (forall x: nat | x < written && e.wal[x].Mark? :: e.wal[x].id < nextId)
    && (forall x: nat | x < written :: MarkPlaced(e, past, x))
    && (forall id | id in past.lowAt :: LowOk(e, written, past, id))
    && (forall id | id in past.picked :: PickOk(e, written, past, id))
    && (forall id | id in past.highAt :: HighOk(e, written, past, id))
    && (forall id | id in past.origin :: id < nextId)
  }

  function RowsOf(past: Past, id: nat): seq<Row> {
    if id in past.picked then past.picked[id].rows else []
  }

  function OriginOf(past: Past, id: nat): Option<Key> {
    if id in past.origin then past.origin[id] else None
  }

  predicate Complete(past: Past, id: nat) {
    id in past.picked && (id in past.highAt || RowsOf(past, id) == [])
  }

  /** The window holds consecutive chunks from the cursor on; only its last may be short. */
  ghost predicate WindowOk(e: Env, past: Past, window: seq<nat>, cursor: Option<Key>, next: Option<Key>, exhausted: bool) {
    && |window| <= PIPELINE_DEPTH
    && (forall i :: 0 <= i < |window| ==> Complete(past, window[i]))
    && (window == [] ==> next == cursor && !exhausted)
    && (window != [] ==>
          && OriginOf(past, window[0]) == cursor
          && next == LastKey(RowsOf(past, window[|window| - 1]))
          && exhausted == Short(e, RowsOf(past, window[|window| - 1])))
    && (|window| == 2 ==>
          && window[0] != window[1] && !Short(e, RowsOf(past, window[0]))
          && OriginOf(past, window[1]) == LastKey(RowsOf(past, window[0])))
  }

  /** The chunk being started begins where the window ends. */
  ghost predicate StartOk(past: Past, lane: Lane) {
    !lane.starting.NotStarting? ==>
      && lane.running && !lane.exhausted && |lane.window| < PIPELINE_DEPTH
      && lane.starting.id in past.origin && past.origin[lane.starting.id] == lane.next
      && lane.starting.id !in past.highAt
      && (lane.starting.Fresh? ==> lane.starting.id !in past.lowAt && lane.starting.id !in past.picked)
      && (lane.starting.LowOut? ==> lane.starting.id in past.lowAt && lane.starting.id !in past.picked)
      && (lane.starting.Chosen? ==> lane.starting.id in past.picked && RowsOf(past, lane.starting.id) != [])
  }

  ghost predicate LaneOk(e: Env, past: Past, lane: Lane) {
    && WindowOk(e, past, lane.window, lane.cursor, lane.next, lane.exhausted)
    && StartOk(past, lane)
    && (!lane.running ==> lane.window == [])
  }

  /** No lane waits on a forgotten chunk: one it still owns is in flight, or finished, or its
      restart channel is closed. Chunks in flight share the current restart channel, belong to the
      lane, and are not finished yet, so `done` is closed at most once. */
  ghost predicate Channels(c: Coord, past: Past, lane: Lane) {
    && (forall id | id in past.origin ::
          && id in c.chunks && c.chunks[id].restart <= c.epoch
          && (id in c.inflight ==> c.chunks[id].restart == c.epoch && !c.chunks[id].done && id in Owned(lane)))
    && (forall id | id in Owned(lane) ::
          id in past.origin && id in c.chunks && (id in c.inflight || c.chunks[id].done || c.chunks[id].restart < c.epoch))
  }

  /** The rows a chunk releases: those no live event between its watermarks superseded. */
  function Release(e: Env, past: Past, id: nat): seq<Row> {
    if id in past.picked && id in past.lowAt && id in past.highAt && past.highAt[id] <= |e.wal| then
      Surviving(past.picked[id].rows, SeenIn(e, past.lowAt[id] + 1, past.highAt[id]))
    else []
  }

  predicate Passed(at: map<nat, nat>, id: nat, up: bool, pos: nat) {
    up && id in at && at[id] < pos
  }

  /** A chunk in flight collects exactly between its watermarks, and holds exactly the keys
      streamed since the low one; at the high one it lets its rows go. */
  ghost predicate InStep(e: Env, ch: Chunk, past: Past, id: nat, up: bool, pos: nat)
    requires pos <= |e.wal|
  {
    var low, high := Passed(past.lowAt, id, up, pos), Passed(past.highAt, id, up, pos);
    && ch.collecting == (low && !high)
    && (!low ==> ch.seen == {})
    && (low && !high ==> ch.seen == SeenIn(e, past.lowAt[id] + 1, pos))
    && (if high then ch.pending == [] && ch.delivered == |Release(e, past, id)| else ch.pending == RowsOf(past, id))
  }

  ghost predicate Collecting(e: Env, c: Coord, past: Past, up: bool, pos: nat) {
    pos <= |e.wal| &&
    forall id | id in past.origin && id in c.inflight && id in c.chunks :: InStep(e, c.chunks[id], past, id, up, pos)
  }

  ghost predicate UnitOk(e: Env, inflight: set<nat>, past: Past, u: Unit) {
    && u.pos < |e.wal|
    && (u.rows != [] ==> e.wal[u.pos].Mark? && e.wal[u.pos].high && e.wal[u.pos].id in past.highAt
                         && u.rows == Release(e, past, e.wal[u.pos].id))
    && (e.wal[u.pos].Mark? && e.wal[u.pos].high && e.wal[u.pos].id in past.origin && e.wal[u.pos].id in inflight ==>
          u.rows == Release(e, past, e.wal[u.pos].id))
  }

  /** The queue holds one unit per log entry between delivery and the stream's position. */
  ghost predicate QueueOk(e: Env, written: nat, inflight: set<nat>, past: Past, st: Stream) {
    && st.reach <= written && (!st.up ==> st.queue == [])
    && (st.up ==>
          && st.pos <= written && |st.queue| <= st.pos
          && st.reach <= st.pos - |st.queue| && (!st.gap ==> st.reach == st.pos - |st.queue|) && (st.gap ==> st.closing))
    && (forall i :: 0 <= i < |st.queue| ==> st.queue[i].pos == st.pos - |st.queue| + i)
    && (forall i :: 0 <= i < |st.queue| ==> UnitOk(e, inflight, past, st.queue[i]))
  }

  /** The coordinator's records of a chunk agree with its history, finished or abandoned. */
  ghost predicate RecordOk(e: Env, ch: Chunk, past: Past, id: nat) {
    && (id in past.picked ==> ch.rowCount == |RowsOf(past, id)| && ch.last == LastKey(RowsOf(past, id)))
    && (id !in past.highAt ==> ch.delivered == 0)
    && (ch.done ==> Complete(past, id) && ch.delivered == |Release(e, past, id)|)
  }

  ghost predicate Records(e: Env, c: Coord, past: Past) {
    forall id | id in past.origin && id in c.chunks :: RecordOk(e, c.chunks[id], past, id)
  }

  /** A chunk's rows are released at most once over all sessions. */
  ghost predicate ReleasedOnce(c: Coord, past: Past, released: seq<nat>) {
    && (forall i, j :: 0 <= i < j < |released| ==> released[i] != released[j])
    && (forall id | id in released ::
          id in past.origin && id in past.highAt && id in c.chunks && c.chunks[id].pending == [])
  }

  /** The rows released by a list of chunks. */
  function Total(e: Env, past: Past, trail: seq<nat>): nat {
    if trail == [] then 0 else Total(e, past, trail[..|trail| - 1]) + |Release(e, past, trail[|trail| - 1])|
  }

  /** Credited chunks tile the key space from its beginning: each starts at the end of the one
      before, all but a last short one are full. */
  ghost predicate Tiles(e: Env, past: Past, trail: seq<nat>) {
    && (forall i :: 0 <= i < |trail| ==> Complete(past, trail[i]) && trail[i] in past.origin)
    && (forall i :: 0 <= i < |trail| - 1 ==> !Short(e, RowsOf(past, trail[i])))
    && (trail != [] ==> OriginOf(past, trail[0]) == None)
    && (forall i, j {:trigger trail[i], trail[j]} :: 0 <= i < |trail| && 0 <= j < |trail| && j == i + 1 ==>
          OriginOf(past, trail[j]) == LastKey(RowsOf(past, trail[i])))
  }

  /** A cursor is the end of the last credited chunk, and the row count is what they released. */
  ghost predicate ProgressOk(e: Env, past: Past, trail: seq<nat>, cursor: Option<Key>, rows: nat) {
    && Tiles(e, past, trail)
    && (if trail == [] then cursor == None
        else cursor == LastKey(RowsOf(past, trail[|trail| - 1])) && !Short(e, RowsOf(past, trail[|trail| - 1])))
    && rows == Total(e, past, trail)
  }

  ghost predicate SavedOk(e: Env, past: Past, v: Saved) {
    if v.done then
      v.cursor == None && Tiles(e, past, v.trail) && v.rows == Total(e, past, v.trail)
      && v.trail != [] && Short(e, RowsOf(past, v.trail[|v.trail| - 1]))
    else ProgressOk(e, past, v.trail, v.cursor, v.rows)
  }

  ghost predicate LaneProgress(e: Env, past: Past, lane: Lane) {
    lane.running ==> ProgressOk(e, past, lane.trail, lane.cursor, lane.copied)
  }

  ghost predicate Protocol(e: Env, s: Sys) {
    && e.size > 0
    && Ids(e, s.co, s.past)
    && Log(e, s.written, s.co.nextId, s.past)
    && LaneOk(e, s.past, s.lane)
    && Channels(s.co, s.past, s.lane)
    && Collecting(e, s.co, s.past, s.st.up, s.st.pos)
    && QueueOk(e, s.written, s.co.inflight, s.past, s.st)
    && Records(e, s.co, s.past)
    && ReleasedOnce(s.co, s.past, s.released)
    && LaneProgress(e, s.past, s.lane)
    && SavedOk(e, s.past, s.saved) && SavedOk(e, s.past, s.cached)
  }

  // ---------------------------------------------------------------- history only grows

  predicate Extends<T(==)>(m: map<nat, T>, m': map<nat, T>) {
    forall id | id in m :: id in m' && m'[id] == m[id]
  }

  predicate Grows(past: Past, past': Past) {
    && Extends(past.origin, past'.origin) && Extends(past.lowAt, past'.lowAt)
    && Extends(past.picked, past'.picked) && Extends(past.highAt, past'.highAt)
  }

  lemma CompleteGrows(e: Env, past: Past, past': Past, id: nat)
    requires Grows(past, past') && Complete(past, id)
    requires id in past.highAt ==> id in past.lowAt
    requires id !in past.highAt ==> id !in past'.highAt
    ensures Complete(past', id) && RowsOf(past', id) == RowsOf(past, id)
    ensures Release(e, past', id) == Release(e, past, id)
  {}

  /** Growing history leaves what a list of credited chunks stands for unchanged. */
  lemma {:induction false} TotalGrows(e: Env, past: Past, past': Past, trail: seq<nat>)
    requires Grows(past, past')
    requires forall id | id in past.highAt :: id in past.lowAt
    requires forall i :: 0 <= i < |trail| ==> Complete(past, trail[i])
    requires forall id | id in past'.highAt && Complete(past, id) :: id in past.highAt
    ensures Total(e, past', trail) == Total(e, past, trail)
  {
    if trail == [] {
    } else {
      TotalGrows(e, past, past', trail[..|trail| - 1]);
      CompleteGrows(e, past, past', trail[|trail| - 1]);
    }
  }

  lemma TilesGrow(e: Env, past: Past, past': Past, trail: seq<nat>)
    requires Grows(past, past') && Tiles(e, past, trail)
    requires forall id | id in past.highAt :: id in past.lowAt
    requires forall id | id in past'.highAt && Complete(past, id) :: id in past.highAt
    ensures Tiles(e, past', trail) && Total(e, past', trail) == Total(e, past, trail)
    ensures forall i :: 0 <= i < |trail| ==> RowsOf(past', trail[i]) == RowsOf(past, trail[i])
  {
    TotalGrows(e, past, past', trail);
    hide Total, Release;
    forall i | 0 <= i < |trail|
      ensures Complete(past', trail[i]) && RowsOf(past', trail[i]) == RowsOf(past, trail[i])
    {
      CompleteGrows(e, past, past', trail[i]);
    }
  }

  lemma SavedGrows(e: Env, past: Past, past': Past, v: Saved)
    requires Grows(past, past') && SavedOk(e, past, v)
    requires forall id | id in past.highAt :: id in past.lowAt
    requires forall id | id in past'.highAt && Complete(past, id) :: id in past.highAt
    ensures SavedOk(e, past', v)
  {
    TilesGrow(e, past, past', v.trail);
    hide Tiles, Total;
  }

  lemma LaneProgressGrows(e: Env, past: Past, past': Past, lane: Lane)
    requires Grows(past, past') && LaneProgress(e, past, lane)
    requires forall id | id in past.highAt :: id in past.lowAt
    requires forall id | id in past'.highAt && Complete(past, id) :: id in past.highAt
    ensures LaneProgress(e, past', lane)
  {
    if lane.running { TilesGrow(e, past, past', lane.trail); }
    hide Tiles, Total;
  }

  // ---------------------------------------------------------------- frames

  /** The operation leaves our chunks as they are and takes nothing new in flight. */
  ghost predicate Quiet(past: Past, c: Coord, c': Coord) {
    && c'.nextId >= c.nextId
    && (forall id | id in past.origin && id in c.chunks ::
          id in c'.chunks && c'.chunks[id] == c.chunks[id] && (id in c'.inflight ==> id in c.inflight))
  }

  lemma QuietKeeps(e: Env, c: Coord, c': Coord, written: nat, past: Past, released: seq<nat>, st: Stream)
    requires Quiet(past, c, c') && (forall id | id in past.origin :: id in c.chunks)
    requires Collecting(e, c, past, st.up, st.pos) && QueueOk(e, written, c.inflight, past, st)
    requires Records(e, c, past) && ReleasedOnce(c, past, released)
    ensures Collecting(e, c', past, st.up, st.pos) && QueueOk(e, written, c'.inflight, past, st)
    ensures Records(e, c', past) && ReleasedOnce(c', past, released)
  {
    hide InStep, Release, RecordOk;
  }

  lemma QuietLog(e: Env, written: nat, nextId: nat, nextId': nat, past: Past)
    requires Log(e, written, nextId, past) && nextId <= nextId'
    ensures Log(e, written, nextId', past)
  {
    hide LowOk, PickOk, HighOk, MarkPlaced;
  }

  ghost predicate SameBut<T>(m: map<nat, T>, m': map<nat, T>, n: nat) {
    forall id | id != n :: (id in m <==> id in m') && (id in m ==> m[id] == m'[id])
  }

  /** Only chunk `n` gains history; it had no high watermark yet. */
  ghost predicate OnlyAt(past: Past, past': Past, n: nat) {
    && SameBut(past.origin, past'.origin, n) && SameBut(past.lowAt, past'.lowAt, n)
    && SameBut(past.picked, past'.picked, n) && SameBut(past.highAt, past'.highAt, n)
    && n !in past.highAt && (n in past.origin ==> n in past'.origin)
  }

  ghost predicate CoordOnlyAt(c: Coord, c': Coord, n: nat) {
    && SameBut(c.chunks, c'.chunks, n)
    && (forall id | id != n :: id in c'.inflight <==> id in c.inflight)
  }

  lemma OnlyAtSame(e: Env, past: Past, past': Past, n: nat, id: nat)
    requires OnlyAt(past, past', n) && id != n
    ensures RowsOf(past', id) == RowsOf(past, id) && OriginOf(past', id) == OriginOf(past, id)
    ensures Release(e, past', id) == Release(e, past, id) && Complete(past', id) == Complete(past, id)
  {}

  lemma CollectingAt(e: Env, c: Coord, c': Coord, past: Past, past': Past, up: bool, pos: nat, n: nat)
    requires Collecting(e, c, past, up, pos) && OnlyAt(past, past', n) && CoordOnlyAt(c, c', n)
    requires n in past'.origin && n in c'.inflight && n in c'.chunks ==> InStep(e, c'.chunks[n], past', n, up, pos)
    ensures Collecting(e, c', past', up, pos)
  {
    hide Release;
    forall id | id in past'.origin && id in c'.inflight && id in c'.chunks
      ensures InStep(e, c'.chunks[id], past', id, up, pos)
    {
      if id != n {
        OnlyAtSame(e, past, past', n, id);
        assert InStep(e, c.chunks[id], past, id, up, pos);
      }
    }
  }

  lemma RecordsAt(e: Env, c: Coord, c': Coord, past: Past, past': Past, n: nat)
    requires Records(e, c, past) && OnlyAt(past, past', n) && CoordOnlyAt(c, c', n)
    requires n in past'.origin && n in c'.chunks ==> RecordOk(e, c'.chunks[n], past', n)
    ensures Records(e, c', past')
  {
    hide Release;
    forall id | id in past'.origin && id in c'.chunks ensures RecordOk(e, c'.chunks[id], past', id) {
      if id != n {
        OnlyAtSame(e, past, past', n, id);
        assert RecordOk(e, c.chunks[id], past, id);
      }
    }
  }

  lemma QueueAt(e: Env, written: nat, written': nat, inflight: set<nat>, inflight': set<nat>, past: Past, past': Past,
                st: Stream, n: nat)
    requires QueueOk(e, written, inflight, past, st) && OnlyAt(past, past', n) && written <= written'
    requires forall id | id != n :: id in inflight' <==> id in inflight
    requires forall i :: 0 <= i < |st.queue| ==> NotMarkOf(e, st.queue[i], n)
    ensures QueueOk(e, written', inflight', past', st)
  {
    hide Release;
    forall i | 0 <= i < |st.queue| ensures UnitOk(e, inflight', past', st.queue[i]) {
      var u := st.queue[i];
      assert UnitOk(e, inflight, past, u) && NotMarkOf(e, u, n);
      if e.wal[u.pos].Mark? && e.wal[u.pos].high { OnlyAtSame(e, past, past', n, e.wal[u.pos].id); }
    }
  }

  predicate NotMarkOf(e: Env, u: Unit, n: nat) {
    u.pos < |e.wal| ==> !(e.wal[u.pos].Mark? && e.wal[u.pos].high && e.wal[u.pos].id == n)
  }

  /** No queued unit is for a chunk whose high watermark is not in the log yet. */
  lemma QueueNotMarkOf(e: Env, s: Sys, n: nat)
    requires QueueOk(e, s.written, s.co.inflight, s.past, s.st) && Log(e, s.written, s.co.nextId, s.past)
    requires n !in s.past.highAt && (n in s.past.origin || n >= s.co.nextId)
    ensures forall i :: 0 <= i < |s.st.queue| ==> NotMarkOf(e, s.st.queue[i], n)
  {
    hide UnitOk, LowOk, PickOk, HighOk, Release;
    forall i | 0 <= i < |s.st.queue| ensures NotMarkOf(e, s.st.queue[i], n) {
      var x := s.st.queue[i].pos;
      assert x < s.written;
      assert MarkPlaced(e, s.past, x);
    }
  }

  lemma LogAt(e: Env, written: nat, written': nat, nextId: nat, nextId': nat, past: Past, past': Past, n: nat)
    requires Log(e, written, nextId, past) && OnlyAt(past, past', n) && Grows(past, past')
    requires written <= written' && (written < written' ==> written' <= |e.wal|) && nextId <= nextId' && n < nextId'
    requires n in past.origin || n >= nextId
    requires n in past'.lowAt ==> LowOk(e, written', past', n)
    requires n in past'.picked ==> PickOk(e, written', past', n)
    requires n in past'.highAt ==> HighOk(e, written', past', n)
    requires forall x: nat | written <= x < written' :: e.wal[x].Mark? && e.wal[x].id == n && MarkPlaced(e, past', x)
    ensures Log(e, written', nextId', past')
  {
    hide Page;
    forall x: nat | x < written' ensures MarkPlaced(e, past', x) {
      if x < written { assert MarkPlaced(e, past, x); }
    }
    forall id | id in past'.lowAt ensures LowOk(e, written', past', id) {
      if id != n { assert LowOk(e, written, past, id); }
    }
    forall id | id in past'.picked ensures PickOk(e, written', past', id) {
      if id != n { assert PickOk(e, written, past, id); }
    }
    forall id | id in past'.highAt ensures HighOk(e, written', past', id) {
      if id != n { assert HighOk(e, written, past, id); }
    }
  }

  lemma WindowAt(e: Env, past: Past, past': Past, n: nat, window: seq<nat>, cursor: Option<Key>, next: Option<Key>, exhausted: bool)
    requires WindowOk(e, past, window, cursor, next, exhausted) && OnlyAt(past, past', n) && !Complete(past, n)
    ensures WindowOk(e, past', window, cursor, next, exhausted)
  {
    hide Release;
    forall i | 0 <= i < |window|
      ensures Complete(past', window[i]) && RowsOf(past', window[i]) == RowsOf(past, window[i])
              && OriginOf(past', window[i]) == OriginOf(past, window[i])
    {
      OnlyAtSame(e, past, past', n, window[i]);
    }
  }

  /** All history belongs to registered chunks. */
  lemma HasOrigin(e: Env, written: nat, nextId: nat, past: Past, n: nat)
    requires Log(e, written, nextId, past)
    ensures n in past.highAt ==> n in past.picked
    ensures n in past.picked ==> n in past.lowAt
    ensures n in past.lowAt ==> n in past.origin
  {
    hide Page, MarkPlaced;
    if n in past.highAt { assert HighOk(e, written, past, n); }
    if n in past.picked { assert PickOk(e, written, past, n); }
    if n in past.lowAt { assert LowOk(e, written, past, n); }
  }

  lemma ReleasedOnceAt(c: Coord, c': Coord, past: Past, past': Past, released: seq<nat>, n: nat)
    requires ReleasedOnce(c, past, released) && OnlyAt(past, past', n) && CoordOnlyAt(c, c', n)
    ensures ReleasedOnce(c', past', released)
  {
    forall id | id in released
      ensures id in past'.origin && id in past'.highAt && id in c'.chunks && c'.chunks[id].pending == []
    {
      assert id in past.highAt && id != n;
    }
  }

  lemma ProgressAt(e: Env, past: Past, past': Past, n: nat, lane: Lane, saved: Saved, cached: Saved)
    requires OnlyAt(past, past', n) && Grows(past, past') && !Complete(past, n)
    requires LaneProgress(e, past, lane) && SavedOk(e, past, saved) && SavedOk(e, past, cached)
    requires forall id | id in past.highAt :: id in past.lowAt
    ensures LaneProgress(e, past', lane) && SavedOk(e, past', saved) && SavedOk(e, past', cached)
  {
    hide LaneProgress, SavedOk;
    LaneProgressGrows(e, past, past', lane);
    SavedGrows(e, past, past', saved);
    SavedGrows(e, past, past', cached);
  }

  /** The common part of Register, EmitLow, Select and EmitHigh, which give chunk `n` more history. */
  lemma OneChunkMoves(e: Env, s: Sys, s': Sys, n: nat)
    requires Protocol(e, s)
    requires OnlyAt(s.past, s'.past, n) && CoordOnlyAt(s.co, s'.co, n) && Grows(s.past, s'.past)
    requires s.written <= s'.written && s'.st.(horizon := s.st.horizon) == s.st
    requires s'.released == s.released && s'.saved == s.saved && s'.cached == s.cached && s'.lane.running == s.lane.running
    requires s'.lane.trail == s.lane.trail && s'.lane.cursor == s.lane.cursor && s'.lane.copied == s.lane.copied
    requires !Complete(s.past, n) && (n in s.past.origin || n >= s.co.nextId)
    requires n in s'.past.origin && n in s'.co.inflight && n in s'.co.chunks ==>
               InStep(e, s'.co.chunks[n], s'.past, n, s.st.up, s.st.pos)
    requires n in s'.past.origin && n in s'.co.chunks ==> RecordOk(e, s'.co.chunks[n], s'.past, n)
    ensures Collecting(e, s'.co, s'.past, s'.st.up, s'.st.pos)
    ensures QueueOk(e, s'.written, s'.co.inflight, s'.past, s'.st)
    ensures Records(e, s'.co, s'.past) && ReleasedOnce(s'.co, s'.past, s'.released)
    ensures LaneProgress(e, s'.past, s'.lane) && SavedOk(e, s'.past, s'.saved) && SavedOk(e, s'.past, s'.cached)
  {
    hide Ids, LaneOk, Channels, Collecting, QueueOk, Records, ReleasedOnce, SavedOk, InStep, RecordOk, Release, Page;
    assert forall id | id in s.past.highAt :: id in s.past.lowAt by {
      forall id | id in s.past.highAt ensures id in s.past.lowAt {
        assert HighOk(e, s.written, s.past, id) && PickOk(e, s.written, s.past, id);
      }
    }
    CollectingAt(e, s.co, s'.co, s.past, s'.past, s.st.up, s.st.pos, n);
    RecordsAt(e, s.co, s'.co, s.past, s'.past, n);
    QueueNotMarkOf(e, s, n);
    hide Log;
    QueueAt(e, s.written, s'.written, s.co.inflight, s'.co.inflight, s.past, s'.past, s.st, n);
    QueueSame(e, s'.written, s'.co.inflight, s'.past, s.st, s'.st);
    ReleasedOnceAt(s.co, s'.co, s.past, s'.past, s.released, n);
    ProgressAt(e, s.past, s'.past, n, s.lane, s.saved, s.cached);
  }

  lemma QueueSame(e: Env, written: nat, inflight: set<nat>, past: Past, st: Stream, st': Stream)
    requires QueueOk(e, written, inflight, past, st) && st'.(horizon := st.horizon) == st
    ensures QueueOk(e, written, inflight, past, st')
  {
    assert st'.queue == st.(horizon := st.horizon).queue && st'.up == st.up && st'.pos == st.pos;
  }

  // ---------------------------------------------------------------- lane steps

  lemma WriteKeeps(e: Env, s: Sys)
    requires Protocol(e, s) && CanWrite(e, s)
    ensures Protocol(e, s.(written := s.written + 1))
  {
    hide Ids, LaneOk, Channels, Collecting, Records, ReleasedOnce, SavedOk, LaneProgress, UnitOk, Page;
  }

  lemma OtherLanesKeep(e: Env, s: Sys, c: Coord)
    requires Protocol(e, s) && Rely(e, s.past, s.co, c)
    ensures Protocol(e, s.(co := c))
  {
    hide LaneOk, SavedOk, LaneProgress, Log, Records, Collecting, ReleasedOnce, QueueOk;
    assert Quiet(s.past, s.co, c);
    QuietKeeps(e, s.co, c, s.written, s.past, s.released, s.st);
    QuietLog(e, s.written, s.co.nextId, c.nextId, s.past);
  }

  lemma BeginKeeps(e: Env, s: Sys, load: bool)
    requires Protocol(e, s) && CanBegin(s)
    ensures Protocol(e, DoBegin(s, load))
  {
    hide Ids, Log, Collecting, QueueOk, Records, ReleasedOnce;
    assert Owned(s.lane) == {} && Owned(DoBegin(s, load).lane) == {};
    PendingOk(e, s.past);
    hide Tiles, Total;
  }

  lemma RequeueKeeps(e: Env, s: Sys)
    requires Protocol(e, s)
    ensures Protocol(e, DoRequeue(s)) && Protocol(e, DoMark(s))
  {
    hide Ids, Log, LaneOk, Channels, Collecting, QueueOk, Records, ReleasedOnce, LaneProgress, SavedOk;
    PendingOk(e, s.past);
  }

  lemma PendingOk(e: Env, past: Past)
    ensures SavedOk(e, past, PENDING)
  {}

  lemma FailKeeps(e: Env, s: Sys)
    requires Protocol(e, s)
    ensures Protocol(e, DoFail(s))
  {
    hide Log, Collecting, QueueOk, Records, ReleasedOnce, SavedOk;
    assert Owned(IDLE_LANE) == {};
    QuietKeeps(e, s.co, DoFail(s).co, s.written, s.past, s.released, s.st);
  }

  lemma RetryKeeps(e: Env, s: Sys)
    requires Protocol(e, s) && CanRetry(s)
    ensures Protocol(e, DoRetry(s))
  {
    hide Log, Collecting, QueueOk, Records, ReleasedOnce, SavedOk, ProgressOk;
    assert Owned(DoRetry(s).lane) == {} && Owned(s.lane) == set id | id in s.lane.window;
    QuietKeeps(e, s.co, DoRetry(s).co, s.written, s.past, s.released, s.st);
  }

  lemma SeeKeeps(e: Env, s: Sys)
    requires Protocol(e, s)
    ensures Protocol(e, DoSee(s))
  {
    hide Ids, Log, Collecting, QueueOk, Records, ReleasedOnce, SavedOk, ProgressOk, WindowOk;
    assert Owned(DoSee(s).lane) == Owned(s.lane);
  }

  lemma RegisterKeeps(e: Env, s: Sys)
    requires Protocol(e, s) && CanRegister(s)
    ensures Protocol(e, DoRegister(e, s))
  {
    hide Collecting, Records, ReleasedOnce, QueueOk, Release, SavedOk, LaneProgress, Log, WindowOk, Channels;
    var s' := DoRegister(e, s);
    var n := s.co.nextId;
    HasOrigin(e, s.written, s.co.nextId, s.past, n);
    assert OnlyAt(s.past, s'.past, n) && CoordOnlyAt(s.co, s'.co, n) && Grows(s.past, s'.past);
    OneChunkMoves(e, s, s', n);
    LogAt(e, s.written, s'.written, s.co.nextId, s'.co.nextId, s.past, s'.past, n);
    WindowAt(e, s.past, s'.past, n, s.lane.window, s.lane.cursor, s.lane.next, s.lane.exhausted);
    RegisterChannels(e, s);
  }

  lemma RegisterChannels(e: Env, s: Sys)
    requires Ids(e, s.co, s.past) && Channels(s.co, s.past, s.lane) && CanRegister(s)
    ensures var s' := DoRegister(e, s); Channels(s'.co, s'.past, s'.lane)
  {
    assert Owned(DoRegister(e, s).lane) == Owned(s.lane) + {s.co.nextId};
  }

  lemma EmitLowKeeps(e: Env, s: Sys)
    requires Protocol(e, s) && CanEmitLow(e, s)
    ensures Protocol(e, DoEmitLow(s))
  {
    hide Collecting, Records, ReleasedOnce, QueueOk, Release, SavedOk, LaneProgress, Log, WindowOk;
    var s' := DoEmitLow(s);
    var n := s.lane.starting.id;
    assert OnlyAt(s.past, s'.past, n) && CoordOnlyAt(s.co, s'.co, n) && Grows(s.past, s'.past);
    assert Owned(s'.lane) == Owned(s.lane);
    StreamBehind(e, s);
    StartRecord(e, s);
    OneChunkMoves(e, s, s', n);
    LogAt(e, s.written, s'.written, s.co.nextId, s'.co.nextId, s.past, s'.past, n);
    WindowAt(e, s.past, s'.past, n, s.lane.window, s.lane.cursor, s.lane.next, s.lane.exhausted);
  }

  /** The stream has not passed what is not written yet. */
  lemma StreamBehind(e: Env, s: Sys)
    requires Log(e, s.written, s.co.nextId, s.past) && QueueOk(e, s.written, s.co.inflight, s.past, s.st)
    ensures s.st.up ==> s.st.pos <= s.written
    ensures forall id | id in s.past.origin :: id < s.co.nextId
  {}

  /** What is known of the chunk being started. */
  lemma StartRecord(e: Env, s: Sys)
    requires Protocol(e, s) && !s.lane.starting.NotStarting?
    ensures var n := s.lane.starting.id;
            && n in s.past.origin && n in s.co.chunks && RecordOk(e, s.co.chunks[n], s.past, n)
            && (n in s.co.inflight ==> s.st.pos <= |e.wal| && InStep(e, s.co.chunks[n], s.past, n, s.st.up, s.st.pos))
  {
    hide WindowOk, Log, QueueOk, ReleasedOnce, SavedOk, LaneProgress, Channels, RecordOk, InStep;
  }

  /** A complete chunk that begins where the window ends joins it. */
  lemma WindowExtends(e: Env, past: Past, window: seq<nat>, cursor: Option<Key>, next: Option<Key>, n: nat)
    requires WindowOk(e, past, window, cursor, next, false) && |window| < PIPELINE_DEPTH
    requires Complete(past, n) && OriginOf(past, n) == next && n !in window
    ensures WindowOk(e, past, window + [n], cursor, LastKey(RowsOf(past, n)), Short(e, RowsOf(past, n)))
  {
    hide OriginOf, RowsOf, Complete, Short, LastKey;
  }

  lemma NotInWindow(e: Env, past: Past, window: seq<nat>, cursor: Option<Key>, next: Option<Key>, exhausted: bool, n: nat)
    requires WindowOk(e, past, window, cursor, next, exhausted) && !Complete(past, n)
    ensures n !in window
  {
    hide Complete, OriginOf, RowsOf;
  }

  lemma SelectKeeps(e: Env, s: Sys, sel: nat, rows: seq<Row>)
    requires Protocol(e, s) && CanSelect(e, s, sel, rows)
    ensures Protocol(e, DoSelect(s, sel, rows))
  {
    hide Collecting, Records, ReleasedOnce, QueueOk, SavedOk, LaneProgress, Log, WindowOk, Page, Channels;
    var s' := DoSelect(s, sel, rows);
    var n := s.lane.starting.id;
    assert OnlyAt(s.past, s'.past, n) && CoordOnlyAt(s.co, s'.co, n) && Grows(s.past, s'.past);
    StreamBehind(e, s);
    StartRecord(e, s);
    OneChunkMoves(e, s, s', n);
    LoweredOk(e, s.written, s.co.nextId, s.past, n);
    LogAt(e, s.written, s'.written, s.co.nextId, s'.co.nextId, s.past, s'.past, n);
    WindowAt(e, s.past, s'.past, n, s.lane.window, s.lane.cursor, s.lane.next, s.lane.exhausted);
    NotInWindow(e, s.past, s.lane.window, s.lane.cursor, s.lane.next, s.lane.exhausted, n);
    if rows == [] {
      WindowExtends(e, s'.past, s.lane.window, s.lane.cursor, s.lane.next, n);
    }
    SelectChannels(e, s, sel, rows);
  }

  lemma SelectChannels(e: Env, s: Sys, sel: nat, rows: seq<Row>)
    requires Channels(s.co, s.past, s.lane) && CanSelect(e, s, sel, rows)
    ensures var s' := DoSelect(s, sel, rows); Channels(s'.co, s'.past, s'.lane)
  {
    hide Page;
    assert Owned(DoSelect(s, sel, rows).lane) == Owned(s.lane);
  }

  lemma EmitHighKeeps(e: Env, s: Sys)
    requires Protocol(e, s) && CanEmitHigh(e, s)
    ensures Protocol(e, DoEmitHigh(e, s))
  {
    hide Collecting, Records, ReleasedOnce, QueueOk, Release, SavedOk, LaneProgress, Log, WindowOk, Channels;
    var s' := DoEmitHigh(e, s);
    var n := s.lane.starting.id;
    assert OnlyAt(s.past, s'.past, n) && CoordOnlyAt(s.co, s'.co, n) && Grows(s.past, s'.past);
    StreamBehind(e, s);
    StartRecord(e, s);
    OneChunkMoves(e, s, s', n);
    PickedOk(e, s.written, s.co.nextId, s.past, n);
    LogAt(e, s.written, s'.written, s.co.nextId, s'.co.nextId, s.past, s'.past, n);
    WindowAt(e, s.past, s'.past, n, s.lane.window, s.lane.cursor, s.lane.next, s.lane.exhausted);
    NotInWindow(e, s.past, s.lane.window, s.lane.cursor, s.lane.next, s.lane.exhausted, n);
    WindowExtends(e, s'.past, s.lane.window, s.lane.cursor, s.lane.next, n);
    EmitHighChannels(e, s);
  }

  lemma LoweredOk(e: Env, written: nat, nextId: nat, past: Past, n: nat)
    requires Log(e, written, nextId, past) && n in past.lowAt
    ensures LowOk(e, written, past, n)
  {
    hide Page, MarkPlaced, PickOk, HighOk;
  }

  lemma PickedOk(e: Env, written: nat, nextId: nat, past: Past, n: nat)
    requires Log(e, written, nextId, past) && n in past.picked
    ensures PickOk(e, written, past, n) && LowOk(e, written, past, n)
  {
    hide Page, MarkPlaced;
  }

  lemma EmitHighChannels(e: Env, s: Sys)
    requires Channels(s.co, s.past, s.lane) && CanEmitHigh(e, s)
    ensures var s' := DoEmitHigh(e, s); Channels(s'.co, s'.past, s'.lane)
  {
    assert Owned(DoEmitHigh(e, s).lane) == Owned(s.lane);
  }

  /** Crediting the chunk that begins at the cursor extends the tiling. */
  lemma TrailExtends(e: Env, past: Past, trail: seq<nat>, cursor: Option<Key>, rows: nat, n: nat)
    requires ProgressOk(e, past, trail, cursor, rows)
    requires Complete(past, n) && n in past.origin && OriginOf(past, n) == cursor
    ensures Tiles(e, past, trail + [n]) && Total(e, past, trail + [n]) == rows + |Release(e, past, n)|
  {
    hide Release, OriginOf, RowsOf, Complete, Short, LastKey;
    assert (trail + [n])[..|trail|] == trail;
  }

  lemma HeadRecord(e: Env, s: Sys)
    requires Protocol(e, s) && CanCredit(s)
    ensures var n, ch := s.lane.window[0], s.co.chunks[s.lane.window[0]];
            && n in s.past.origin && n !in s.co.inflight && Complete(s.past, n) && OriginOf(s.past, n) == s.lane.cursor
            && ch.rowCount == |RowsOf(s.past, n)| && ch.last == LastKey(RowsOf(s.past, n))
            && ch.delivered == |Release(e, s.past, n)|
  {
    hide Log, QueueOk, Collecting, ReleasedOnce, SavedOk, LaneProgress, Release, Ids;
    assert s.lane.window[0] in Owned(s.lane);
    assert RecordOk(e, s.co.chunks[s.lane.window[0]], s.past, s.lane.window[0]);
  }

  lemma WindowShifts(e: Env, past: Past, window: seq<nat>, cursor: Option<Key>, next: Option<Key>, exhausted: bool)
    requires WindowOk(e, past, window, cursor, next, exhausted) && window != []
    requires exhausted || |window| == PIPELINE_DEPTH
    requires !Short(e, RowsOf(past, window[0]))
    ensures WindowOk(e, past, window[1..], LastKey(RowsOf(past, window[0])), next, exhausted)
  {
    hide OriginOf, RowsOf, Complete, Short, LastKey;
  }

  lemma CreditKeeps(e: Env, s: Sys, saves: bool)
    requires Protocol(e, s) && CanCredit(s)
    ensures Protocol(e, DoCredit(e, s, saves))
  {
    hide Log, Collecting, Records, ReleasedOnce, QueueOk, Release, WindowOk, Tiles, Total, Complete, Channels, LastKey, OriginOf;
    var s' := DoCredit(e, s, saves);
    var n := s.lane.window[0];
    HeadRecord(e, s);
    TrailExtends(e, s.past, s.lane.trail, s.lane.cursor, s.lane.copied, n);
    assert Quiet(s.past, s.co, s'.co);
    QuietKeeps(e, s.co, s'.co, s.written, s.past, s.released, s.st);
    if !Short(e, RowsOf(s.past, n)) {
      WindowShifts(e, s.past, s.lane.window, s.lane.cursor, s.lane.next, s.lane.exhausted);
    } else {
      IdleWindow(e, s.past);
    }
    hide RowsOf;
    CreditChannels(e, s, saves);
  }

  lemma IdleWindow(e: Env, past: Past)
    ensures LaneOk(e, past, IDLE_LANE)
  {}

  lemma CreditChannels(e: Env, s: Sys, saves: bool)
    requires Channels(s.co, s.past, s.lane) && CanCredit(s) && s.lane.window[0] !in s.co.inflight
    ensures var s' := DoCredit(e, s, saves); Channels(s'.co, s'.past, s'.lane)
  {
    var s' := DoCredit(e, s, saves);
    if s.co.chunks[s.lane.window[0]].rowCount < e.size {
      assert Owned(s'.lane) == {};
      assert Owned(s.lane) == {s.lane.window[0]} + set id | id in s.lane.window[1..];
    } else {
      assert s'.co == s.co && Owned(s.lane) == {s.lane.window[0]} + Owned(s'.lane);
    }
  }

  // ---------------------------------------------------------------- stream steps

  /** Ending or starting a session abandons everything in flight; whoever waits is told. */
  lemma SessionTurns(e: Env, c: Coord, c': Coord, past: Past, released: seq<nat>, lane: Lane, up: bool, pos: nat)
    requires Ids(e, c, past) && Channels(c, past, lane) && Records(e, c, past) && ReleasedOnce(c, past, released)
    requires c'.chunks == c.chunks && c'.nextId == c.nextId && c'.inflight == {} && pos <= |e.wal|
    requires c'.epoch > c.epoch || (c'.epoch == c.epoch && c.inflight == {})
    ensures Ids(e, c', past) && Channels(c', past, lane) && Records(e, c', past) && ReleasedOnce(c', past, released)
    ensures Collecting(e, c', past, up, pos)
  {
    hide RecordOk, InStep;
  }

  lemma StartKeeps(e: Env, s: Sys, at: nat)
    requires Protocol(e, s) && !s.st.up && at <= s.st.reach
    ensures Protocol(e, DoStart(s, at))
  {
    hide Ids, LaneOk, Channels, Collecting, UnitOk, Records, ReleasedOnce, SavedOk, LaneProgress;
    assert s.written <= |e.wal|;
    hide Log;
    SessionTurns(e, s.co, Started(s.co), s.past, s.released, s.lane, true, at);
  }

  lemma InLog(e: Env, c: Coord, past: Past, up: bool, pos: nat)
    requires Collecting(e, c, past, up, pos)
    ensures pos <= |e.wal|
  {}

  lemma StopKeeps(e: Env, s: Sys)
    requires Protocol(e, s)
    ensures Protocol(e, DoStop(s))
  {
    hide Ids, LaneOk, Channels, Collecting, UnitOk, Records, ReleasedOnce, SavedOk, LaneProgress, Log;
    InLog(e, s.co, s.past, s.st.up, s.st.pos);
    SessionTurns(e, s.co, Stopped(s.co), s.past, s.released, s.lane, false, s.st.pos);
  }

  lemma CrashKeeps(e: Env, s: Sys)
    requires Protocol(e, s)
    ensures Protocol(e, DoCrash(s))
  {
    hide Ids, Channels, Collecting, UnitOk, Records, ReleasedOnce, SavedOk, Log, LaneOk, ProgressOk;
    InLog(e, s.co, s.past, s.st.up, s.st.pos);
    IdleWindow(e, s.past);
    SessionTurns(e, s.co, DoCrash(s).co, s.past, s.released, s.lane, false, s.st.pos);
    NothingOwned(DoCrash(s).co, s.past, s.lane);
  }

  lemma NothingOwned(c: Coord, past: Past, lane: Lane)
    requires Channels(c, past, lane) && c.inflight == {}
    ensures Channels(c, past, IDLE_LANE)
  {}

  lemma TeardownKeeps(e: Env, s: Sys)
    requires Protocol(e, s)
    ensures Protocol(e, s.(st := s.st.(closing := true)))
  {
    hide Ids, Log, LaneOk, Channels, Collecting, UnitOk, Records, ReleasedOnce, SavedOk, LaneProgress;
  }

  lemma DropKeeps(e: Env, s: Sys)
    requires Protocol(e, s) && s.st.up && s.st.closing && s.st.queue != []
    ensures Protocol(e, DoDrop(s))
  {
    hide Ids, Log, LaneOk, Channels, Collecting, UnitOk, Records, ReleasedOnce, SavedOk, LaneProgress;
  }

  lemma DeliverFailKeeps(e: Env, s: Sys, live: bool, keys: set<Key>)
    requires Protocol(e, s) && CanDeliver(e, s)
    ensures Protocol(e, DoDeliverFail(e, s, live, keys))
  {
    hide Ids, Log, LaneOk, Channels, Collecting, UnitOk, Records, ReleasedOnce, SavedOk, LaneProgress, ApplyPart;
  }

  /** A chunk in flight whose high watermark the stream has passed has released its rows. */
  lemma ReportedRecord(e: Env, s: Sys, id: nat)
    requires Protocol(e, s) && CanDeliver(e, s) && e.wal[s.st.queue[0].pos] == Mark(id, true)
    requires id in s.past.origin && id in s.co.inflight
    ensures id in s.co.chunks && Complete(s.past, id)
    ensures s.co.chunks[id].delivered == |Release(e, s.past, id)|
  {
    hide LaneOk, Channels, UnitOk, ReleasedOnce, SavedOk, LaneProgress, Release, Page;
    var x := s.st.queue[0].pos;
    assert x < s.st.pos <= s.written;
    assert MarkPlaced(e, s.past, x);
    assert HighOk(e, s.written, s.past, id);
    assert InStep(e, s.co.chunks[id], s.past, id, s.st.up, s.st.pos);
  }

  lemma DeliverKeeps(e: Env, s: Sys)
    requires Protocol(e, s) && CanDeliver(e, s)
    ensures Protocol(e, DoDeliver(e, s))
  {
    hide Log, LaneOk, Release, SavedOk, LaneProgress, ApplyUnit, Collecting, Records, ReleasedOnce, QueueOk, Channels, Ids;
    var s' := DoDeliver(e, s);
    QueueShifts(e, s);
    var entry := e.wal[s.st.queue[0].pos];
    if entry.Mark? && entry.high && Known(s.co, entry.id) {
      if entry.id in s.past.origin { ReportedRecord(e, s, entry.id); }
      ReportKeeps(e, s.co, s.written, s.past, s.released, s'.st, s.lane, entry.id);
    }
  }

  lemma QueueShifts(e: Env, s: Sys)
    requires QueueOk(e, s.written, s.co.inflight, s.past, s.st) && CanDeliver(e, s)
    ensures QueueOk(e, s.written, s.co.inflight, s.past, StreamDelivered(e, s.st))
  {
    hide UnitOk, ApplyUnit;
  }

  lemma ReportKeeps(e: Env, c: Coord, written: nat, past: Past, released: seq<nat>, st: Stream, lane: Lane, id: nat)
    requires Ids(e, c, past) && Channels(c, past, lane) && Collecting(e, c, past, st.up, st.pos)
    requires QueueOk(e, written, c.inflight, past, st) && Records(e, c, past) && ReleasedOnce(c, past, released)
    requires Known(c, id)
    requires id in past.origin ==> Complete(past, id) && c.chunks[id].delivered == |Release(e, past, id)|
    ensures var c' := Reported(c, id, true);
            && Ids(e, c', past) && Channels(c', past, lane) && Collecting(e, c', past, st.up, st.pos)
            && QueueOk(e, written, c'.inflight, past, st) && Records(e, c', past) && ReleasedOnce(c', past, released)
  {
    hide Channels, Collecting, Release, Complete, Records;
    ReportChannels(c, past, lane, id);
    ReportRecords(e, c, past, st.up, st.pos, id);
  }

  lemma ReportChannels(c: Coord, past: Past, lane: Lane, id: nat)
    requires Channels(c, past, lane) && Known(c, id)
    ensures Channels(Reported(c, id, true), past, lane)
  {
    hide Owned;
  }

  lemma ReportRecords(e: Env, c: Coord, past: Past, up: bool, pos: nat, id: nat)
    requires Collecting(e, c, past, up, pos) && Records(e, c, past) && Known(c, id)
    requires id in past.origin ==> Complete(past, id) && c.chunks[id].delivered == |Release(e, past, id)|
    ensures var c' := Reported(c, id, true); Collecting(e, c', past, up, pos) && Records(e, c', past)
  {
    hide InStep, Release, Complete;
    var c' := Reported(c, id, true);
    forall j | j in past.origin && j in c'.chunks ensures RecordOk(e, c'.chunks[j], past, j) {
      assert RecordOk(e, c.chunks[j], past, j);
    }
  }

  // ---------------------------------------------------------------- the stream's own step

  /** A mark of ours is where history puts it, so no other entry is passed with it. */
  lemma PassedNow(e: Env, s: Sys, id: nat)
    requires Log(e, s.written, s.co.nextId, s.past) && s.st.pos < s.written && id in s.past.origin
    ensures s.written <= |e.wal|
    ensures var pos := s.st.pos;
            && (Passed(s.past.lowAt, id, true, pos + 1) <==> Passed(s.past.lowAt, id, true, pos) || e.wal[pos] == Mark(id, false))
            && (Passed(s.past.highAt, id, true, pos + 1) <==> Passed(s.past.highAt, id, true, pos) || e.wal[pos] == Mark(id, true))
            && (e.wal[pos] == Mark(id, false) ==> id in s.past.lowAt && s.past.lowAt[id] == pos)
            && (e.wal[pos] == Mark(id, true) ==> id in s.past.highAt && s.past.highAt[id] == pos)
            && (id in s.past.highAt ==> id in s.past.picked && id in s.past.lowAt && s.past.lowAt[id] < s.past.highAt[id] < |e.wal|)
  {
    hide Page;
    assert MarkPlaced(e, s.past, s.st.pos);
    if id in s.past.lowAt { assert LowOk(e, s.written, s.past, id); }
    if id in s.past.highAt {
      assert HighOk(e, s.written, s.past, id);
      assert PickOk(e, s.written, s.past, id);
    }
  }

  ghost predicate OursInStep(e: Env, s: Sys, id: nat) {
    && Known(s.co, id) && id in s.past.origin && s.co.chunks[id].table == e.table
    && s.st.pos < |e.wal| && InStep(e, s.co.chunks[id], s.past, id, true, s.st.pos)
  }

  lemma ChangedInStep(e: Env, s: Sys, id: nat)
    requires Log(e, s.written, s.co.nextId, s.past) && s.st.pos < s.written && OursInStep(e, s, id)
    requires e.wal[s.st.pos].Changed?
    ensures var c' := Streamed(s.co, e.wal[s.st.pos]);
            Known(c', id) && InStep(e, c'.chunks[id], s.past, id, true, s.st.pos + 1)
  {
    PassedNow(e, s, id);
    hide Log, Passed, Release;
  }

  lemma LowInStep(e: Env, s: Sys, m: nat, id: nat)
    requires Log(e, s.written, s.co.nextId, s.past) && s.st.pos < s.written && OursInStep(e, s, id)
    requires e.wal[s.st.pos] == Mark(m, false)
    ensures var c' := Marked(s.co, m, false);
            Known(c', id) && InStep(e, c'.chunks[id], s.past, id, true, s.st.pos + 1)
  {
    PassedNow(e, s, id);
    hide Log, Release;
  }

  lemma HighInStep(e: Env, s: Sys, m: nat, id: nat)
    requires Log(e, s.written, s.co.nextId, s.past) && s.st.pos < s.written && OursInStep(e, s, id)
    requires e.wal[s.st.pos] == Mark(m, true)
    ensures var c' := Marked(s.co, m, true);
            Known(c', id) && InStep(e, c'.chunks[id], s.past, id, true, s.st.pos + 1)
    ensures id == m ==> ReleasedAt(s.co, m, true) == Release(e, s.past, id)
  {
    PassedNow(e, s, id);
    hide Log;
  }

  /** Streaming one entry keeps every chunk in flight in step with the log. */
  lemma HandleCollects(e: Env, s: Sys)
    requires Protocol(e, s) && CanHandle(e, s)
    ensures Collecting(e, Streamed(s.co, e.wal[s.st.pos]), s.past, true, s.st.pos + 1)
    ensures forall id | id in s.past.origin && Known(s.co, id) && e.wal[s.st.pos] == Mark(id, true) ::
              RowsAt(s.past, s.co, e.wal[s.st.pos]) == Release(e, s.past, id)
  {
    hide LaneOk, Channels, QueueOk, Records, ReleasedOnce, SavedOk, LaneProgress, Log, InStep, Release;
    var entry, c' := e.wal[s.st.pos], Streamed(s.co, e.wal[s.st.pos]);
    forall id | id in s.past.origin && id in c'.inflight && id in c'.chunks
      ensures InStep(e, c'.chunks[id], s.past, id, true, s.st.pos + 1)
      ensures entry == Mark(id, true) ==> RowsAt(s.past, s.co, entry) == Release(e, s.past, id)
    {
      assert OursInStep(e, s, id);
      match entry
      case Changed(_, _) => ChangedInStep(e, s, id);
      case Mark(m, high) => if high { HighInStep(e, s, m, id); } else { LowInStep(e, s, m, id); }
      case Foreign => ForeignInStep(e, s, id);
    }
  }

  lemma ForeignInStep(e: Env, s: Sys, id: nat)
    requires Log(e, s.written, s.co.nextId, s.past) && s.st.pos < s.written && OursInStep(e, s, id)
    requires e.wal[s.st.pos].Foreign?
    ensures InStep(e, s.co.chunks[id], s.past, id, true, s.st.pos + 1)
  {
    PassedNow(e, s, id);
    hide Log, Passed, Release;
  }

  /** Streaming changes nothing else of a chunk but what it collects, and what it holds only at
      its high watermark. */
  ghost predicate SameShape(c: Coord, c': Coord, entry: Entry) {
    && c'.inflight == c.inflight && c'.nextId == c.nextId && c'.epoch == c.epoch && c'.chunks.Keys == c.chunks.Keys
    && (forall id | id in c.chunks ::
          var ch, ch' := c.chunks[id], c'.chunks[id];
          && ch'.table == ch.table && ch'.done == ch.done && ch'.restart == ch.restart
          && ch'.rowCount == ch.rowCount && ch'.last == ch.last
          && (ch'.pending == ch.pending || ch'.pending == [])
          && (ch'.delivered == ch.delivered || (id in c.inflight && entry == Mark(id, true))))
  }

  lemma StreamedShape(c: Coord, entry: Entry)
    ensures SameShape(c, Streamed(c, entry), entry)
  {
    hide Surviving;
  }

  lemma ShapeKeeps(e: Env, s: Sys, c': Coord)
    requires Protocol(e, s) && CanHandle(e, s) && SameShape(s.co, c', e.wal[s.st.pos])
    ensures Ids(e, c', s.past) && Channels(c', s.past, s.lane) && Records(e, c', s.past)
    ensures ReleasedOnce(c', s.past, s.released)
  {
    hide LaneOk, QueueOk, SavedOk, LaneProgress, Release, InStep, Owned, Log;
    forall id | id in s.past.origin && id in c'.chunks ensures RecordOk(e, c'.chunks[id], s.past, id) {
      assert RecordOk(e, s.co.chunks[id], s.past, id);
      if e.wal[s.st.pos] == Mark(id, true) { PassedNow(e, s, id); }
    }
  }

  /** A released chunk gave its rows up, so it is released for the first time. */
  lemma ReleasesOnce(e: Env, s: Sys)
    requires Protocol(e, s) && CanHandle(e, s)
    ensures ReleasedOnce(DoHandle(e, s).co, s.past, DoHandle(e, s).released)
  {
    hide LaneOk, QueueOk, SavedOk, LaneProgress, Release, Collecting, Channels, Records, Log;
    var entry := e.wal[s.st.pos];
    var rows, c' := RowsAt(s.past, s.co, entry), Streamed(s.co, entry);
    StreamedShape(s.co, entry);
    ShapeKeeps(e, s, c');
    if rows != [] {
      PassedNow(e, s, entry.id);
      assert s.co.chunks[entry.id].pending != [] && c'.chunks[entry.id].pending == [];
      assert entry.id !in s.released;
    }
  }

  lemma QueuePushes(e: Env, s: Sys)
    requires Protocol(e, s) && CanHandle(e, s)
    ensures QueueOk(e, s.written, s.co.inflight, s.past, DoHandle(e, s).st)
  {
    hide LaneOk, SavedOk, LaneProgress, Release, Collecting, Channels, Records, Log, ReleasedOnce, Streamed;
    var entry := e.wal[s.st.pos];
    var rows := RowsAt(s.past, s.co, entry);
    HandleCollects(e, s);
    if entry.Mark? && entry.id in s.past.origin { PassedNow(e, s, entry.id); }
    assert UnitOk(e, s.co.inflight, s.past, Unit(s.st.pos, rows));
    hide UnitOk, RowsAt;
  }

  lemma HandleKeeps(e: Env, s: Sys)
    requires Protocol(e, s) && CanHandle(e, s)
    ensures Protocol(e, DoHandle(e, s))
  {
    hide Ids, LaneOk, SavedOk, LaneProgress, Collecting, Channels, Records, Log, ReleasedOnce, QueueOk, Streamed, RowsAt;
    StreamedShape(s.co, e.wal[s.st.pos]);
    ShapeKeeps(e, s, DoHandle(e, s).co);
    HandleCollects(e, s);
    ReleasesOnce(e, s);
    QueuePushes(e, s);
  }

  lemma StepKeeps(e: Env, s: Sys, step: Step)
    requires Protocol(e, s) && Enabled(e, s, step)
    ensures Protocol(e, Next(e, s, step))
  {
    hide Protocol, CanWrite, CanBegin, CanRegister, CanEmitLow, CanSelect, CanEmitHigh, CanCredit, CanRetry, CanHandle, CanDeliver,
         CanSee, DoBegin, DoSee, DoRegister, DoEmitLow, DoSelect, DoEmitHigh, DoCredit, DoRetry, DoFail, DoMark, DoRequeue,
         DoStart, DoHandle, DoDeliver, DoDeliverFail, DoDrop, DoStop, DoCrash;
    match step
    case Write => WriteKeeps(e, s);
    case OtherLanes(c) => OtherLanesKeep(e, s, c);
    case Begin(load) => BeginKeeps(e, s, load);
    case SeeStream => SeeKeeps(e, s);
    case Register => RegisterKeeps(e, s);
    case EmitLow => EmitLowKeeps(e, s);
    case Select(sel, rows) => SelectKeeps(e, s, sel, rows);
    case EmitHigh => EmitHighKeeps(e, s);
    case HeadDone(saves) => CreditKeeps(e, s, saves);
    case HeadRestart => RetryKeeps(e, s);
    case LaneFail => FailKeeps(e, s);
    case MarkPending => RequeueKeeps(e, s);
    case Requeue => RequeueKeeps(e, s);
    case StreamStart(at) => StartKeeps(e, s, at);
    case Handle => HandleKeeps(e, s);
    case Deliver => DeliverKeeps(e, s);
    case DeliverFail(live, keys) => DeliverFailKeeps(e, s, live, keys);
    case Teardown => TeardownKeeps(e, s);
    case Drop => DropKeeps(e, s);
    case StreamStop => StopKeeps(e, s);
    case Crash => CrashKeeps(e, s);
  }
}
