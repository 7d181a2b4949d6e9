/**
  Every run of the watermark protocol: no lane waits on a forgotten chunk, rows are released at
  most once, at most one chunk collects at a time, and the credited chunks tile the key space.
*/
module ChunkRuns {
  import opened Prelude
  import opened Coordinator
  import opened SourceTable
  import opened Convergence
  import opened ChunkProtocol

  // ---------------------------------------------------------------- the watermarks' order in the log

  /** A chunk's low watermark follows the high one of every chunk before it in the lane. */
  ghost predicate Follows(past: Past, a: nat, b: nat) {
    b in past.lowAt ==> a in past.highAt && past.highAt[a] < past.lowAt[b]
  }

  ghost predicate InOrder(past: Past, window: seq<nat>, starting: Start) {
    && (forall i, j :: 0 <= i < j < |window| ==> Follows(past, window[i], window[j]))
    && (!starting.NotStarting? ==> forall i :: 0 <= i < |window| ==> Follows(past, window[i], starting.id))
  }

  /** While a session has no gap, the high watermark of a chunk in flight is not delivered yet. */
  ghost predicate Ahead(inflight: set<nat>, past: Past, up: bool, gap: bool, pos: nat, queued: nat) {
    up && !gap ==> forall id | id in inflight && id in past.highAt :: past.highAt[id] >= pos - queued
  }

  ghost predicate Ordered(e: Env, s: Sys) {
    InOrder(s.past, s.lane.window, s.lane.starting) &&
    Ahead(s.co.inflight, s.past, s.st.up, s.st.gap, s.st.pos, |s.st.queue|)
  }

  lemma EmitLowOrdered(e: Env, s: Sys)
    requires Protocol(e, s) && CanEmitLow(e, s) && Ordered(e, s)
    ensures Ordered(e, DoEmitLow(s))
  {
    hide Ids, Channels, Collecting, QueueOk, Records, ReleasedOnce, LaneProgress, SavedOk, Page, MarkPlaced;
    var n := s.lane.starting.id;
    forall i | 0 <= i < |s.lane.window| ensures Follows(DoEmitLow(s).past, s.lane.window[i], n) {
      assert Complete(s.past, s.lane.window[i]) && !Short(e, RowsOf(s.past, s.lane.window[i]));
      assert HighOk(e, s.written, s.past, s.lane.window[i]);
    }
  }

  lemma RegisterOrdered(e: Env, s: Sys)
    requires Protocol(e, s) && CanRegister(s) && Ordered(e, s)
    ensures Ordered(e, DoRegister(e, s))
  {
    hide Ids, LaneOk, Channels, Collecting, QueueOk, Records, ReleasedOnce, LaneProgress, SavedOk, Log;
    HasOrigin(e, s.written, s.co.nextId, s.past, s.co.nextId);
    FreshId(e, s);
  }

  lemma FreshId(e: Env, s: Sys)
    requires Protocol(e, s)
    ensures s.co.nextId !in s.past.origin
  {
    hide LaneOk, Channels, Collecting, QueueOk, Records, ReleasedOnce, LaneProgress, SavedOk, PickOk, LowOk, HighOk, MarkPlaced;
  }

  lemma SelectOrdered(e: Env, s: Sys, sel: nat, rows: seq<Row>)
    requires Protocol(e, s) && CanSelect(e, s, sel, rows) && Ordered(e, s)
    ensures Ordered(e, DoSelect(s, sel, rows))
  {
    hide Ids, LaneOk, Channels, Collecting, QueueOk, Records, ReleasedOnce, LaneProgress, SavedOk, Log, Page;
  }

  lemma EmitHighOrdered(e: Env, s: Sys)
    requires Protocol(e, s) && CanEmitHigh(e, s) && Ordered(e, s)
    ensures Ordered(e, DoEmitHigh(e, s))
  {
    hide Ids, Channels, Collecting, Records, ReleasedOnce, LaneProgress, SavedOk, Log, UnitOk, WindowOk;
  }

  /** Lane and session steps that only let chunks go. */
  lemma LettingGoOrdered(e: Env, s: Sys, s': Sys, gone: nat)
    requires Ordered(e, s) && s'.past == s.past && s'.co.inflight <= s.co.inflight && gone <= |s.lane.window|
    requires s'.lane.window == s.lane.window[gone..] && (s'.lane.starting == s.lane.starting || s'.lane.starting.NotStarting?)
    requires !s'.st.up || s'.st.gap || s'.co.inflight == {} || s'.st.(closing := s.st.closing) == s.st
    ensures Ordered(e, s')
  {}

  lemma HandleOrdered(e: Env, s: Sys)
    requires CanHandle(e, s) && Ordered(e, s)
    ensures Ordered(e, DoHandle(e, s))
  {
    hide InOrder;
    StreamedShape(s.co, e.wal[s.st.pos]);
    hide Streamed, RowsAt;
  }

  lemma DeliverOrdered(e: Env, s: Sys)
    requires Protocol(e, s) && CanDeliver(e, s) && Ordered(e, s)
    ensures Ordered(e, DoDeliver(e, s))
  {
    hide InOrder, LaneOk, Channels, Collecting, UnitOk, Records, ReleasedOnce, LaneProgress, SavedOk, ApplyUnit, Page, MarkPlaced;
    var s' := DoDeliver(e, s);
    if s.st.up && !s.st.gap {
      forall id | id in s'.co.inflight && id in s.past.highAt ensures s.past.highAt[id] >= s.st.pos - |s.st.queue| + 1 {
        assert HighOk(e, s.written, s.past, id);
        assert PickOk(e, s.written, s.past, id);
      }
    }
  }

  lemma OthersOrdered(e: Env, s: Sys, c: Coord)
    requires Protocol(e, s) && Rely(e, s.past, s.co, c) && Ordered(e, s)
    ensures Ordered(e, s.(co := c))
  {
    hide InOrder, LaneOk, Channels, Collecting, QueueOk, Records, ReleasedOnce, LaneProgress, SavedOk, Log;
    forall id | id in c.inflight && id in s.past.highAt ensures id in s.co.inflight {
      HasOrigin(e, s.written, s.co.nextId, s.past, id);
    }
  }

  lemma OrderKeeps(e: Env, s: Sys, step: Step)
    requires Protocol(e, s) && Enabled(e, s, step) && Ordered(e, s)
    ensures Ordered(e, Next(e, s, step))
  {
    hide Protocol, Ordered, DoRegister, DoEmitLow, DoSelect, DoEmitHigh, DoHandle, DoDeliver, CanRegister, CanEmitLow,
         CanSelect, CanEmitHigh, CanHandle, CanDeliver, Rely, Credited, ApplyPart;
    match step
    case OtherLanes(c) => OthersOrdered(e, s, c);
    case Register => RegisterOrdered(e, s);
    case EmitLow => EmitLowOrdered(e, s);
    case Select(sel, rows) => SelectOrdered(e, s, sel, rows);
    case EmitHigh => EmitHighOrdered(e, s);
    case Handle => HandleOrdered(e, s);
    case Deliver => DeliverOrdered(e, s);
    case Begin(load) =>
      if load && s.saved.done { LettingGoOrdered(e, s, Next(e, s, step), 0); } else { AllGone(e, s, Next(e, s, step)); }
    case HeadDone(saves) =>
      if Next(e, s, step).lane.running { LettingGoOrdered(e, s, Next(e, s, step), 1); } else { AllGone(e, s, Next(e, s, step)); }
    case HeadRestart => AllGone(e, s, Next(e, s, step));
    case LaneFail => AllGone(e, s, Next(e, s, step));
    case Crash => AllGone(e, s, Next(e, s, step));
    case _ => LettingGoOrdered(e, s, Next(e, s, step), 0);
  }

  lemma AllGone(e: Env, s: Sys, s': Sys)
    requires Ordered(e, s) && s'.past == s.past && s'.co.inflight <= s.co.inflight
    requires s'.lane.window == [] && s'.lane.starting.NotStarting?
    requires !s'.st.up || s'.st == s.st
    ensures Ordered(e, s')
  {}

  /** Every step only adds to the history. */
  lemma HistoryGrows(e: Env, s: Sys, step: Step)
    requires Protocol(e, s) && Enabled(e, s, step)
    ensures Grows(s.past, Next(e, s, step).past)
  {
    hide Ids, Log, WindowOk, Channels, Collecting, QueueOk, Records, ReleasedOnce, SavedOk, LaneProgress, Page, Rely,
         Streamed, StreamDelivered, StreamFailed, Credited;
    FreshId(e, s);
  }

  // ---------------------------------------------------------------- every run

  lemma InitOk(e: Env)
    requires e.size > 0
    ensures Protocol(e, INIT) && Ordered(e, INIT)
  {
    assert Owned(IDLE_LANE) == {};
    PendingOk(e, INIT.past);
  }

  lemma {:induction false} RunKeeps(e: Env, trace: seq<Step>)
    requires e.size > 0
    ensures var r := Exec(e, trace); r.Some? ==> Protocol(e, r.value) && Ordered(e, r.value)
  {
    hide Protocol, Ordered, Enabled, Next;
    if trace == [] {
      InitOk(e);
    } else {
      RunKeeps(e, trace[..|trace| - 1]);
      var before, step := Exec(e, trace[..|trace| - 1]), trace[|trace| - 1];
      if before.Some? && Enabled(e, before.value, step) {
        StepKeeps(e, before.value, step);
        OrderKeeps(e, before.value, step);
      }
    }
  }

  lemma Always(e: Env, s: Sys)
    requires e.size > 0 && Reachable(e, s)
    ensures Protocol(e, s) && Ordered(e, s)
  {
    hide Protocol, Ordered;
    var trace :| Exec(e, trace) == Some(s);
    RunKeeps(e, trace);
  }

  /** No lane waits forever on a forgotten chunk. */
  lemma NoForgottenChunk(e: Env, s: Sys)
    requires e.size > 0 && Reachable(e, s)
    ensures forall id | id in s.lane.window ::
              id in s.co.chunks && (id in s.co.inflight || s.co.chunks[id].done || s.co.chunks[id].restart < s.co.epoch)
    ensures forall id | Known(s.co, id) && s.co.chunks[id].table == e.table ::
              s.co.chunks[id].restart == s.co.epoch && !s.co.chunks[id].done
  {
    hide Reachable, Log, LaneOk, Collecting, QueueOk, Records, ReleasedOnce, LaneProgress, SavedOk, Ordered;
    Always(e, s);
    assert forall id | id in s.lane.window :: id in Owned(s.lane);
  }

  /** ... and while a session runs, the high watermark of a chunk in flight is still ahead of the
      stream, or queued for delivery together with the rows the chunk releases. */
  lemma InFlightIsAhead(e: Env, s: Sys, id: nat)
    requires e.size > 0 && Reachable(e, s) && s.st.up && !s.st.closing
    requires id in s.co.inflight && id in s.past.highAt
    ensures s.past.highAt[id] >= s.st.pos
            || exists i :: 0 <= i < |s.st.queue| && s.st.queue[i] == Unit(s.past.highAt[id], Release(e, s.past, id))
  {
    hide Reachable, Ids, LaneOk, Collecting, Records, ReleasedOnce, LaneProgress, SavedOk, Channels, Release, Log, InOrder;
    Always(e, s);
    var x := s.past.highAt[id];
    HighAt(e, s.written, s.co.nextId, s.past, id);
    if x < s.st.pos {
      var i := x - (s.st.pos - |s.st.queue|);
      assert UnitOk(e, s.co.inflight, s.past, s.st.queue[i]);
    }
  }

  lemma HighAt(e: Env, written: nat, nextId: nat, past: Past, id: nat)
    requires Log(e, written, nextId, past) && id in past.highAt
    ensures past.highAt[id] < |e.wal| && e.wal[past.highAt[id]] == Mark(id, true) && id in past.origin
  {
    hide Page, MarkPlaced;
    assert HighOk(e, written, past, id) && PickOk(e, written, past, id);
  }

  /** Both places that close a chunk's done channel find it open: the report of a delivered high
      watermark ... */
  lemma ReportClosesOnce(e: Env, s: Sys, id: nat)
    requires e.size > 0 && Reachable(e, s) && CanDeliver(e, s) && e.wal[s.st.queue[0].pos] == Mark(id, true)
    requires Known(s.co, id) && s.co.chunks[id].table == e.table
    ensures !s.co.chunks[id].done && DoDeliver(e, s).co.chunks[id].done && id !in DoDeliver(e, s).co.inflight
  {
    hide Reachable, Log, LaneOk, Collecting, QueueOk, Records, ReleasedOnce, LaneProgress, SavedOk, Ordered, Owned;
    Always(e, s);
  }

  /** ... and the select of an empty chunk. */
  lemma SelectClosesOnce(e: Env, s: Sys, sel: nat, rows: seq<Row>)
    requires e.size > 0 && Reachable(e, s) && CanSelect(e, s, sel, rows)
    ensures !s.co.chunks[s.lane.starting.id].done
    ensures rows == [] <==> DoSelect(s, sel, rows).co.chunks[s.lane.starting.id].done
  {
    hide Reachable, Log, WindowOk, Collecting, QueueOk, ReleasedOnce, LaneProgress, SavedOk, Ordered, Page, Release, Channels;
    Always(e, s);
    assert RecordOk(e, s.co.chunks[s.lane.starting.id], s.past, s.lane.starting.id);
  }

  /** A chunk's rows are released at most once over all sessions. */
  lemma ReleasedAtMostOnce(e: Env, s: Sys)
    requires e.size > 0 && Reachable(e, s)
    ensures forall i, j :: 0 <= i < j < |s.released| ==> s.released[i] != s.released[j]
    ensures forall i :: 0 <= i < |s.released| ==> s.released[i] in s.past.highAt
  {
    hide Reachable, Log, LaneOk, Collecting, QueueOk, Records, Channels, LaneProgress, SavedOk, Ordered;
    Always(e, s);
  }

  /** Replayed and foreign watermarks release nothing. */
  lemma ReplayReleasesNothing(e: Env, s: Sys)
    requires e.size > 0 && Reachable(e, s) && CanHandle(e, s)
    requires var entry := e.wal[s.st.pos]; entry.Mark? && (entry.id in s.released || entry.id !in s.co.inflight)
    ensures DoHandle(e, s).released == s.released
    ensures DoHandle(e, s).st.queue == s.st.queue + [Unit(s.st.pos, [])]
  {
    hide Reachable, Log, LaneOk, Collecting, QueueOk, Records, Channels, LaneProgress, SavedOk, Ordered, Streamed;
    Always(e, s);
    var entry := e.wal[s.st.pos];
    if entry.id in s.released { assert s.co.chunks[entry.id].pending == []; }
    assert RowsAt(s.past, s.co, entry) == [];
  }

  /** Of two chunks the later one starts collecting only after the earlier one stopped. */
  lemma NotBoth(e: Env, s: Sys, a: nat, b: nat)
    requires Ids(e, s.co, s.past) && Collecting(e, s.co, s.past, s.st.up, s.st.pos)
    ensures Follows(s.past, a, b) ==> !(Collects(s.co, a, e.table) && Collects(s.co, b, e.table))
  {
    hide Release;
  }

  lemma OneFollows(e: Env, s: Sys, a: nat, b: nat)
    requires InOrder(s.past, s.lane.window, s.lane.starting) && a in Owned(s.lane) && b in Owned(s.lane) && a != b
    ensures Follows(s.past, a, b) || Follows(s.past, b, a)
  {
    hide Follows;
  }

  /** At most one chunk of the table is collecting, even with two in flight. */
  lemma OneCollects(e: Env, s: Sys, a: nat, b: nat)
    requires e.size > 0 && Reachable(e, s)
    requires Collects(s.co, a, e.table) && Collects(s.co, b, e.table)
    ensures a == b
  {
    hide Reachable, LaneOk, QueueOk, Records, LaneProgress, SavedOk, ReleasedOnce, Log, Collecting, Ahead, InOrder, Owned, Follows;
    Always(e, s);
    if a != b {
      OneFollows(e, s, a, b);
      NotBoth(e, s, a, b);
      NotBoth(e, s, b, a);
    }
  }

  // ---------------------------------------------------------------- lanes side by side

  /** What one lane does to the coordinator is what the lanes of other tables may rely on. */
  lemma LanesRespectEachOther(e: Env, s: Sys, step: Step, e2: Env, past2: Past)
    requires e.size > 0 && Reachable(e, s) && Enabled(e, s, step)
    requires step.Register? || step.Select? || step.HeadDone? || step.HeadRestart? || step.LaneFail?
    requires Ids(e2, s.co, past2) && e2.table != e.table
    ensures Rely(e2, past2, s.co, Next(e, s, step).co)
  {
    hide Reachable, Ids, Channels, Rely, Page, Registered, Selected, Abandoned, Owned, Credited, LaneAfterCredit;
    Mine(e, s);
    match step
    case Register => RegisterRelied(e2, past2, s.co, e.table);
    case Select(_, rows) =>
      OursOnly(e, s, e2, past2, {s.lane.starting.id});
      SelectRelied(e2, past2, s.co, s.lane.starting.id, rows);
    case HeadDone(_) => AbandonRelied(e, s, e2, past2, set id | id in s.lane.window[1..]);
                        AbandonRelied(e, s, e2, past2, {});
    case HeadRestart => AbandonRelied(e, s, e2, past2, set id | id in s.lane.window);
    case LaneFail => AbandonRelied(e, s, e2, past2, Owned(s.lane));
  }

  lemma Mine(e: Env, s: Sys)
    requires e.size > 0 && Reachable(e, s)
    ensures Ids(e, s.co, s.past) && Channels(s.co, s.past, s.lane)
    ensures (set id | id in s.lane.window) <= Owned(s.lane)
    ensures !s.lane.starting.NotStarting? ==> s.lane.starting.id in Owned(s.lane)
  {
    hide Reachable, Ids, Log, LaneOk, Channels, Collecting, QueueOk, Records, ReleasedOnce, LaneProgress, SavedOk, Ordered;
    Always(e, s);
  }

  lemma OursOnly(e: Env, s: Sys, e2: Env, past2: Past, ids: set<nat>)
    requires Ids(e, s.co, s.past) && Channels(s.co, s.past, s.lane) && Ids(e2, s.co, past2) && e2.table != e.table
    requires ids <= Owned(s.lane)
    ensures forall id | id in ids :: id !in past2.origin && id in s.co.chunks && s.co.chunks[id].table == e.table
  {
    hide Owned;
  }

  lemma RegisterRelied(e2: Env, past2: Past, c: Coord, table: string)
    requires Ids(e2, c, past2) && table != e2.table
    ensures Rely(e2, past2, c, Registered(c, table))
  {}

  lemma SelectRelied(e2: Env, past2: Past, c: Coord, id: nat, rows: seq<Row>)
    requires Ids(e2, c, past2) && id in c.chunks && id !in past2.origin
    ensures Rely(e2, past2, c, Selected(c, id, rows))
  {}

  lemma AbandonRelied(e: Env, s: Sys, e2: Env, past2: Past, ids: set<nat>)
    requires Ids(e, s.co, s.past) && Channels(s.co, s.past, s.lane) && Ids(e2, s.co, past2) && e2.table != e.table
    requires ids <= Owned(s.lane)
    ensures Rely(e2, past2, s.co, Abandoned(s.co, ids))
  {
    hide Owned;
    OursOnly(e, s, e2, past2, ids);
    hide Channels;
  }

  /** A lane never waits in vain: its first chunk can be credited, or its restart channel can be taken,
      or the chunk is in flight and, while a session runs, its high watermark is still to come or waits
      to be delivered with its rows. */
  lemma WaitingIsAnswered(e: Env, s: Sys)
    requires e.size > 0 && Reachable(e, s) && s.lane.running && s.lane.starting.NotStarting? && s.lane.window != []
    requires s.lane.exhausted || |s.lane.window| == PIPELINE_DEPTH
    ensures var id := s.lane.window[0];
            || Enabled(e, s, HeadDone(true)) || Enabled(e, s, HeadRestart)
            || (id in s.co.inflight && (s.st.up && !s.st.closing && id in s.past.highAt ==>
                  s.past.highAt[id] >= s.st.pos || exists i :: 0 <= i < |s.st.queue| && s.st.queue[i] == Unit(s.past.highAt[id], Release(e, s.past, id))))
  {
    hide Reachable, Release;
    NoForgottenChunk(e, s);
    var id := s.lane.window[0];
    assert id in s.lane.window;
    if id in s.co.inflight && s.st.up && !s.st.closing && id in s.past.highAt { InFlightIsAhead(e, s, id); }
  }

  // ---------------------------------------------------------------- tiling

  /** The keys chunk `id` accounts for. */
  predicate Covers(e: Env, past: Past, id: nat, k: Key) { InRange(e, OriginOf(past, id), RowsOf(past, id), k) }

  ghost predicate Covered(e: Env, past: Past, trail: seq<nat>, k: Key) {
    exists i :: 0 <= i < |trail| && Covers(e, past, trail[i], k)
  }

  /** Chunk `id` ends after it begins. */
  ghost predicate Proper(e: Env, past: Past, id: nat) {
    forall r | r in RowsOf(past, id) :: After(OriginOf(past, id), r.key)
  }

  lemma ProperChunks(e: Env, written: nat, nextId: nat, past: Past)
    requires Log(e, written, nextId, past)
    ensures forall id: nat :: Proper(e, past, id)
  {
    hide MarkPlaced, HighOk, LowOk;
  }

  /** A later chunk begins at or after the end of an earlier one. */
  lemma {:induction false} LaterBegins(e: Env, past: Past, trail: seq<nat>, i: nat, j: nat)
    requires e.size > 0 && Tiles(e, past, trail) && i < j < |trail| && (forall id: nat :: Proper(e, past, id))
    ensures LastKey(RowsOf(past, trail[i])).Some? && OriginOf(past, trail[j]).Some?
    ensures LastKey(RowsOf(past, trail[i])).value <= OriginOf(past, trail[j]).value
  {
    hide Complete, OriginOf, RowsOf;
    assert OriginOf(past, trail[j]) == LastKey(RowsOf(past, trail[j - 1])) && RowsOf(past, trail[j - 1]) != [];
    if i == j - 1 {
    } else {
      LaterBegins(e, past, trail, i, j - 1);
      assert Proper(e, past, trail[j - 1]);
    }
  }

  lemma TilesDisjoint(e: Env, past: Past, trail: seq<nat>, i: nat, j: nat, k: Key)
    requires e.size > 0 && Tiles(e, past, trail) && i < |trail| && j < |trail| && (forall id: nat :: Proper(e, past, id))
    requires Covers(e, past, trail[i], k) && Covers(e, past, trail[j], k)
    ensures i == j
  {
    hide Proper, Complete, OriginOf, RowsOf, LastKey;
    if i < j { LaterBegins(e, past, trail, i, j); }
    if j < i { LaterBegins(e, past, trail, j, i); }
  }

  lemma {:induction false} TilesReach(e: Env, past: Past, trail: seq<nat>, k: Key)
    requires Tiles(e, past, trail) && trail != []
    requires Short(e, RowsOf(past, trail[|trail| - 1])) || UpTo(LastKey(RowsOf(past, trail[|trail| - 1])), k)
    ensures Covered(e, past, trail, k)
  {
    hide Complete, OriginOf, RowsOf, LastKey;
    var n := |trail| - 1;
    if After(OriginOf(past, trail[n]), k) {
      assert Covers(e, past, trail[n], k);
    } else {
      var front := trail[..n];
      assert OriginOf(past, trail[n]) == LastKey(RowsOf(past, trail[n - 1]));
      assert front[|front| - 1] == trail[n - 1];
      TilesReach(e, past, front, k);
      var i :| 0 <= i < |front| && Covers(e, past, front[i], k);
      assert Covers(e, past, trail[i], k);
    }
  }

  lemma TilesBound(e: Env, past: Past, trail: seq<nat>, i: nat, k: Key)
    requires e.size > 0 && Tiles(e, past, trail) && i < |trail| && (forall id: nat :: Proper(e, past, id))
    requires Covers(e, past, trail[i], k) && !Short(e, RowsOf(past, trail[|trail| - 1]))
    ensures UpTo(LastKey(RowsOf(past, trail[|trail| - 1])), k)
  {
    hide Complete, OriginOf, RowsOf;
    var n := |trail| - 1;
    if i < n {
      LaterBegins(e, past, trail, i, n);
      assert Proper(e, past, trail[n]);
    }
  }

  /** The chunks of `trail` cover the keys up to the cursor (every key, when `done`), each key by
      exactly one of them. */
  ghost predicate Partition(e: Env, past: Past, trail: seq<nat>, cursor: Option<Key>, done: bool) {
    && (forall k: Key :: Covered(e, past, trail, k) <==> done || UpTo(cursor, k))
    && (forall k: Key, i, j {:trigger Covers(e, past, trail[i], k), Covers(e, past, trail[j], k)} ::
          0 <= i < |trail| && 0 <= j < |trail| && Covers(e, past, trail[i], k) && Covers(e, past, trail[j], k) ==> i == j)
  }

  lemma TilesPartition(e: Env, past: Past, trail: seq<nat>)
    requires e.size > 0 && Tiles(e, past, trail) && trail != [] && (forall id: nat :: Proper(e, past, id))
    ensures var last := RowsOf(past, trail[|trail| - 1]); Partition(e, past, trail, LastKey(last), Short(e, last))
  {
    hide Tiles, Proper, RowsOf, Covers, LastKey, Short, UpTo;
    var last := RowsOf(past, trail[|trail| - 1]);
    forall k: Key
      ensures Covered(e, past, trail, k) <==> Short(e, last) || UpTo(LastKey(last), k)
    {
      if Short(e, last) || UpTo(LastKey(last), k) { TilesReach(e, past, trail, k); }
      if i :| 0 <= i < |trail| && Covers(e, past, trail[i], k) {
        if !Short(e, last) { TilesBound(e, past, trail, i, k); }
      }
    }
    forall k: Key, i, j | 0 <= i < |trail| && 0 <= j < |trail| && Covers(e, past, trail[i], k) && Covers(e, past, trail[j], k)
      ensures i == j
    {
      TilesDisjoint(e, past, trail, i, j, k);
    }
  }

  lemma DonePartition(e: Env, past: Past, trail: seq<nat>, cursor: Option<Key>)
    requires Partition(e, past, trail, cursor, true)
    ensures Partition(e, past, trail, None, true)
  {
    hide Covers, UpTo;
  }

  lemma EmptyPartition(e: Env, past: Past)
    ensures Partition(e, past, [], None, false)
  {
    hide Covers;
  }

  lemma SavedPartition(e: Env, past: Past, v: Saved)
    requires e.size > 0 && SavedOk(e, past, v) && (forall id: nat :: Proper(e, past, id))
    ensures Partition(e, past, v.trail, v.cursor, v.done) && v.rows == Total(e, past, v.trail)
  {
    hide Partition, Tiles, Total, Proper, RowsOf, LastKey;
    if v.trail == [] { EmptyPartition(e, past); } else {
      TilesPartition(e, past, v.trail);
      if v.done { DonePartition(e, past, v.trail, LastKey(RowsOf(past, v.trail[|v.trail| - 1]))); }
    }
  }

  /** Through restarts, failures, crashes and resumes: the persisted and the in-memory progress
      always name chunks that partition the key space up to the cursor (all of it once done), and
      count exactly the rows those chunks released. */
  lemma ChunksTile(e: Env, s: Sys)
    requires e.size > 0 && Reachable(e, s)
    ensures Partition(e, s.past, s.saved.trail, s.saved.cursor, s.saved.done)
            && s.saved.rows == Total(e, s.past, s.saved.trail)
    ensures Partition(e, s.past, s.cached.trail, s.cached.cursor, s.cached.done)
            && s.cached.rows == Total(e, s.past, s.cached.trail)
    ensures s.lane.running ==> Partition(e, s.past, s.lane.trail, s.lane.cursor, false)
                               && s.lane.copied == Total(e, s.past, s.lane.trail)
  {
    hide Reachable, LaneOk, QueueOk, Records, SavedOk, ReleasedOnce, Log, Collecting, Ordered, Ids, Channels, Partition, Total, Proper, Tiles;
    Always(e, s);
    ProperChunks(e, s.written, s.co.nextId, s.past);
    SavedPartition(e, s.past, s.saved);
    SavedPartition(e, s.past, s.cached);
    if s.lane.running {
      LanePartition(e, s.past, s.lane);
    }
  }

  lemma LanePartition(e: Env, past: Past, lane: Lane)
    requires e.size > 0 && LaneProgress(e, past, lane) && lane.running && (forall id: nat :: Proper(e, past, id))
    ensures Partition(e, past, lane.trail, lane.cursor, false) && lane.copied == Total(e, past, lane.trail)
  {
    hide Partition, Proper;
    SavedPartition(e, past, Saved(lane.cursor, false, lane.copied, lane.trail));
  }
}
