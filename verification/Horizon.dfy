/**
  How tight the horizon is: delivered position and horizon alone decide whether a finished table is in
  the sink as it is in the source.
*/
module Horizon {
  import opened Prelude
  import opened Coordinator
  import opened SourceTable
  import opened Convergence
  import opened ChunkProtocol
  import opened ChunkRuns
  import opened Mirroring
  import opened Sync

  // ---------------------------------------------------------------- finished chunks lie behind the horizon

  ghost predicate Behind(past: Past, id: nat, horizon: nat) {
    id in past.picked &&
    if past.picked[id].rows == [] then past.picked[id].sel <= horizon
    else id in past.highAt && past.highAt[id] < horizon
  }

  ghost predicate AllBehind(c: Coord, past: Past, horizon: nat) {
    forall id | id in past.origin && id in c.chunks && c.chunks[id].done :: Behind(past, id, horizon)
  }

  lemma BehindFrom(s: Sys, s': Sys, extra: set<nat>)
    requires AllBehind(s.co, s.past, s.st.horizon) && Grows(s.past, s'.past) && s.st.horizon <= s'.st.horizon
    requires DoneFrom(s.co, s'.co, s.past, s'.past, extra)
    requires forall id | id in extra :: Behind(s'.past, id, s'.st.horizon)
    ensures AllBehind(s'.co, s'.past, s'.st.horizon)
  {
    hide RowsOf, OriginOf;
    forall id | id in s'.past.origin && id in s'.co.chunks && s'.co.chunks[id].done ensures Behind(s'.past, id, s'.st.horizon) {
      if id !in extra { assert Behind(s.past, id, s.st.horizon); }
    }
  }

  lemma SelectBehind(e: Env, s: Sys, sel: nat, rows: seq<Row>)
    requires Protocol(e, s) && AllBehind(s.co, s.past, s.st.horizon) && CanSelect(e, s, sel, rows)
    ensures var s' := DoSelect(s, sel, rows); AllBehind(s'.co, s'.past, s'.st.horizon)
  {
    hide WindowOk, Channels, Collecting, Records, QueueOk, ReleasedOnce, SavedOk, LaneProgress, Log, Page, AllBehind, Release;
    StartRecord(e, s);
    BehindFrom(s, DoSelect(s, sel, rows), if rows == [] then {s.lane.starting.id} else {});
  }

  lemma DeliverBehind(e: Env, s: Sys)
    requires Protocol(e, s) && AllBehind(s.co, s.past, s.st.horizon) && CanDeliver(e, s)
    ensures var s' := DoDeliver(e, s); AllBehind(s'.co, s'.past, s'.st.horizon)
  {
    hide LaneOk, Channels, Collecting, Records, UnitOk, ReleasedOnce, SavedOk, LaneProgress, Log, AllBehind, ApplyUnit, Ids;
    var entry := e.wal[s.st.queue[0].pos];
    var ours := entry.Mark? && entry.high && Known(s.co, entry.id) && entry.id in s.past.origin;
    if ours {
      OurHigh(e, s.written, s.co.nextId, s.past, s.st.queue[0].pos);
      WindowStands(e, s.written, s.co.nextId, s.past, entry.id);
    }
    BehindFrom(s, DoDeliver(e, s), if ours then {entry.id} else {});
  }

  lemma OthersBehind(e: Env, s: Sys, c: Coord)
    requires Protocol(e, s) && AllBehind(s.co, s.past, s.st.horizon) && Rely(e, s.past, s.co, c)
    ensures AllBehind(c, s.past, s.st.horizon)
  {
    hide LaneOk, Channels, Collecting, Records, QueueOk, ReleasedOnce, SavedOk, LaneProgress, Log, AllBehind, RowsOf, OriginOf;
    BehindFrom(s, s.(co := c), {});
  }

  lemma HandleBehind(e: Env, s: Sys)
    requires AllBehind(s.co, s.past, s.st.horizon) && CanHandle(e, s)
    ensures var s' := DoHandle(e, s); AllBehind(s'.co, s'.past, s'.st.horizon)
  {
    hide AllBehind, Streamed, RowsAt, RowsOf, OriginOf;
    StreamedShape(s.co, e.wal[s.st.pos]);
    BehindFrom(s, DoHandle(e, s), {});
  }

  lemma RegisterBehind(e: Env, s: Sys)
    requires Protocol(e, s) && AllBehind(s.co, s.past, s.st.horizon) && CanRegister(s)
    ensures var s' := DoRegister(e, s); AllBehind(s'.co, s'.past, s'.st.horizon)
  {
    hide Protocol, AllBehind;
    FreshId(e, s);
    BehindFrom(s, DoRegister(e, s), {});
  }

  lemma BehindKeeps(e: Env, s: Sys, step: Step)
    requires Protocol(e, s) && AllBehind(s.co, s.past, s.st.horizon) && Enabled(e, s, step)
    ensures var s' := Next(e, s, step); AllBehind(s'.co, s'.past, s'.st.horizon)
  {
    hide Protocol, AllBehind, Grows, DoRegister, DoSelect, DoHandle, DoDeliver, CanRegister, CanSelect, CanHandle, Rely,
         ApplyPart, ApplyUnit, Credited;
    HistoryGrows(e, s, step);
    match step
    case OtherLanes(c) => OthersBehind(e, s, c);
    case Register => RegisterBehind(e, s);
    case Select(sel, rows) => SelectBehind(e, s, sel, rows);
    case Handle => HandleBehind(e, s);
    case Deliver => DeliverBehind(e, s);
    case _ => BehindFrom(s, Next(e, s, step), {});
  }

  lemma {:induction false} RunBehind(e: Env, trace: seq<Step>)
    requires e.size > 0
    ensures var r := Exec(e, trace); r.Some? ==> AllBehind(r.value.co, r.value.past, r.value.st.horizon)
  {
    if trace == [] {
    } else {
      hide AllBehind, Protocol, Enabled, Next, Ordered;
      RunBehind(e, trace[..|trace| - 1]);
      var before, step := Exec(e, trace[..|trace| - 1]), trace[|trace| - 1];
      if before.Some? && Enabled(e, before.value, step) {
        RunKeeps(e, trace[..|trace| - 1]);
        BehindKeeps(e, before.value, step);
      }
    }
  }

  lemma AlwaysBehind(e: Env, s: Sys)
    requires e.size > 0 && Reachable(e, s)
    ensures AllBehind(s.co, s.past, s.st.horizon)
  {
    hide AllBehind;
    var trace :| Exec(e, trace) == Some(s);
    RunBehind(e, trace);
  }

  // ---------------------------------------------------------------- positions that always agree

  /** Every finished table delivered up to `p`, with everything seen so far before `h`, is in the sink
      as it is in the source at `p`. */
  ghost predicate AlwaysAgree(p: nat, h: nat) {
    forall e: Env, s: Sys
      | e.size > 0 && Tame(e, s.past) && Reachable(e, s) && (s.saved.done || s.cached.done) && s.st.reach == p && s.st.horizon == h ::
        Agrees(e, s)
  }

  ghost predicate Agrees(e: Env, s: Sys) {
    s.st.reach <= |e.wal| && forall k: Key :: SinkAt(s.st.sink, k) == ValueAt(e, k, s.st.reach)
  }

  /** A table finished with only the first log entry seen has that entry as its watermark. */
  lemma FirstIsMark(e: Env, s: Sys, v: Saved)
    requires Log(e, s.written, s.co.nextId, s.past) && AllBehind(s.co, s.past, s.st.horizon) && s.st.horizon == 1
    requires SavedOk(e, s.past, v) && v.done && TrailDone(s.co, s.past, v.trail)
    ensures |e.wal| > 0 && e.wal[0].Mark?
  {
    hide Tiles, Total, MarkPlaced, Page;
    var id := v.trail[0];
    assert id in v.trail;
    assert Behind(s.past, id, 1);
    assert PickOk(e, s.written, s.past, id) && LowOk(e, s.written, s.past, id);
    assert id in s.past.highAt ==> HighOk(e, s.written, s.past, id);
  }

  lemma FirstAgrees(e: Env, s: Sys)
    requires e.size > 0 && Tame(e, s.past) && Reachable(e, s) && (s.saved.done || s.cached.done)
    requires s.st.reach == 0 && s.st.horizon == 1
    ensures Agrees(e, s)
  {
    hide Reachable, Tame, LaneOk, Channels, Collecting, Records, QueueOk, ReleasedOnce, LaneProgress, Log, Ids, SavedOk,
         SinkOk, DoneOk, TrailDone, Ordered, AllBehind, ValueAt, SinkAt;
    Always(e, s);
    AlwaysSynced(e, s);
    AlwaysBehind(e, s);
    FirstIsMark(e, s, if s.saved.done then s.saved else s.cached);
    forall k: Key ensures SinkAt(s.st.sink, k) == ValueAt(e, k, s.st.reach) { Converges(e, s, k); }
  }

  // ---------------------------------------------------------------- and positions that need not

  const ROW: Doc := map["a" := "1"]

  lemma Writes(e: Env, s: Sys, n: nat) returns (s': Sys)
    requires Reachable(e, s) && s.written <= n <= |e.wal| && forall x: nat | s.written <= x < n :: !e.wal[x].Mark?
    ensures Reachable(e, s') && s' == s.(written := n)
  {
    hide Reachable, Exec;
    s' := s;
    while s'.written < n
      invariant s.written <= s'.written <= n && Reachable(e, s') && s' == s.(written := s'.written)
    {
      s' := OneMore(e, s', Write);
    }
  }

  ghost predicate Streaming(s: Sys) {
    && s.st.up && !s.st.closing && !s.st.broken && !s.st.gap && s.st.queue == [] && s.st.pos == s.st.reach == s.st.horizon
  }

  /** Streaming and delivering an entry that means nothing to anybody. */
  lemma StreamOne(e: Env, s: Sys) returns (s': Sys)
    requires Reachable(e, s) && Streaming(s) && s.st.pos < s.written <= |e.wal| && e.wal[s.st.pos].Foreign?
    ensures Reachable(e, s') && Streaming(s')
    ensures var n := s.st.pos + 1; s' == s.(st := s.st.(pos := n, reach := n, horizon := n))
  {
    hide Reachable, Exec;
    s' := OneMore(e, s, Handle);
    assert s'.st.queue == [Unit(s.st.pos, [])];
    s' := OneMore(e, s', Deliver);
  }

  lemma Streams(e: Env, s: Sys, n: nat) returns (s': Sys)
    requires Reachable(e, s) && Streaming(s) && s.st.pos <= n <= s.written <= |e.wal|
    requires forall x: nat | s.st.pos <= x < n :: e.wal[x].Foreign?
    ensures Reachable(e, s') && s' == s.(st := s.st.(pos := n, reach := n, horizon := n))
  {
    hide Reachable, Exec;
    s' := s;
    while s'.st.pos < n
      invariant s.st.pos <= s'.st.pos <= n && Reachable(e, s') && Streaming(s')
      invariant s' == s.(st := s.st.(pos := s'.st.pos, reach := s'.st.pos, horizon := s'.st.pos))
    {
      s' := StreamOne(e, s');
    }
  }

  /** The lane's chunk has its low watermark out and waits to be selected. */
  ghost predicate Waits(s: Sys, low: nat) {
    s.lane == Lowered(low).lane && 0 in s.co.chunks && !s.co.chunks[0].done && s.past == Lowered(low).past
  }

  /** Selecting nothing finishes the table. */
  lemma SelectsNothing(e: Env, s: Sys, low: nat) returns (s': Sys)
    requires e.size > 0 && Reachable(e, s) && Waits(s, low) && low < s.written <= |e.wal| && s.st.horizon <= s.written
    requires Page(e, None, s.written, [])
    ensures Reachable(e, s') && s'.saved.done && s'.st.reach == s.st.reach && s'.st.horizon == s.written && s'.st.sink == s.st.sink
    ensures s'.past.highAt == map[]
  {
    hide Reachable, Exec, Page;
    s' := OneMore(e, s, Select(s.written, []));
    s' := OneMore(e, s', HeadDone(true));
  }

  /** A log with the low watermark first and the delete of its only row at `p`. */
  function LateLog(p: nat, h: nat): Env {
    Env(seq(h, i => if i == 0 then Mark(0, false) else if i == p then Changed("t", Del(1)) else Foreign), map[1 := ROW], "t", 2)
  }

  /** A log with the delete first and the low watermark after it. */
  function EarlyLog(h: nat): Env {
    Env(seq(h, i => if i == 0 then Changed("t", Del(1)) else if i == 1 then Mark(0, false) else Foreign), map[1 := ROW], "t", 2)
  }

  lemma {:induction false} DeletedAt(e: Env, p: nat, k: Key, x: nat)
    requires x <= |e.wal| && p < |e.wal| && e.base == map[1 := ROW] && e.table == "t"
    requires forall y: nat | y < |e.wal| :: e.wal[y].Changed? <==> y == p
    requires e.wal[p] == Changed("t", Del(1))
    ensures ValueAt(e, k, x) == if k == 1 && x <= p then Some(ROW) else None
    decreases x
  {
    if x == 0 {
    } else {
      DeletedAt(e, p, k, x - 1);
    }
  }

  lemma NothingLeft(e: Env, p: nat)
    requires e.size > 0 && p < |e.wal| && e.base == map[1 := ROW] && e.table == "t"
    requires forall y: nat | y < |e.wal| :: e.wal[y].Changed? <==> y == p
    requires e.wal[p] == Changed("t", Del(1))
    ensures Page(e, None, |e.wal|, []) && ValueAt(e, 1, p) == Some(ROW) && forall past: Past | past.highAt == map[] :: Tame(e, past)
  {
    hide ValueAt;
    DeletedAt(e, p, 1, p);
    forall k: Key ensures ValueAt(e, k, |e.wal|) == None { DeletedAt(e, p, k, |e.wal|); }
  }

  /** The low watermark is written, streamed and delivered. */
  lemma LateStart(e: Env) returns (s: Sys)
    requires e.table == "t" && |e.wal| > 0 && e.wal[0] == Mark(0, false)
    ensures Reachable(e, s) && Streaming(s) && Waits(s, 0) && s.written == 1 && s.st.pos == 1 && s.st.sink == map[]
  {
    hide Reachable, Exec;
    GetsReady(e);
    FirstLow(e, 0);
    s := OneMore(e, Lowered(0), Handle);
    assert s.st.queue == [Unit(0, [])];
    s := OneMore(e, s, Deliver);
  }

  /** The row is deleted, and then the low watermark is written. */
  lemma EarlyStart(e: Env) returns (s: Sys)
    requires e.table == "t" && |e.wal| > 1 && e.wal[0].Changed? && e.wal[1] == Mark(0, false)
    ensures Reachable(e, s) && Waits(s, 1) && s.written == 2 && s.st.reach == 0 && s.st.horizon == 0 && s.st.sink == map[]
  {
    hide Reachable, Exec;
    GetsReady(e);
    s := OneMore(e, READY, Write);
    FirstLow(e, 1);
    s := Lowered(1);
  }

  /** For any delivered position short of the horizon: a finished table with a row that the source
      still has there and the sink does not. */
  lemma ShortOfHorizon(p: nat, h: nat) returns (e: Env, s: Sys)
    requires p < h && (p > 0 || h > 1)
    ensures e.size > 0 && Tame(e, s.past) && Reachable(e, s) && s.saved.done && s.st.reach == p && s.st.horizon == h <= |e.wal|
    ensures SinkAt(s.st.sink, 1) == None && ValueAt(e, 1, p).Some?
  {
    hide Reachable, Exec, Page, Tame, ValueAt;
    if p > 0 {
      e := LateLog(p, h);
      NothingLeft(e, p);
      s := LateStart(e);
      assert s.st.pos == 1 && s.written == 1;
      s := Writes(e, s, p);
      s := StreamsTo(e, s, p);
      s := Writes(e, s, h);
      s := SelectsNothing(e, s, 0);
    } else {
      e := EarlyLog(h);
      NothingLeft(e, 0);
      s := EarlyStart(e);
      s := Writes(e, s, h);
      s := SelectsNothing(e, s, 1);
    }
  }

  lemma StreamsTo(e: Env, s: Sys, n: nat) returns (s': Sys)
    requires Reachable(e, s) && Streaming(s) && s.st.pos <= n <= s.written <= |e.wal|
    requires forall x: nat | s.st.pos <= x < n :: e.wal[x].Foreign?
    ensures Reachable(e, s') && s'.lane == s.lane && s'.co == s.co && s'.past == s.past && s'.written == s.written
    ensures s'.st.reach == n && s'.st.horizon == n && s'.st.sink == s.st.sink
  {
    hide Reachable, Exec;
    s' := Streams(e, s, n);
  }

  /** Whatever the log and the run, a finished table delivered up to `p` with the horizon at `h` is in
      the sink as it is in the source at `p`, exactly when delivery has reached the horizon (or all
      that lies between is the first entry of the log, which is then the chunk's own watermark). */
  lemma AlwaysAgreeIff(p: nat, h: nat)
    ensures AlwaysAgree(p, h) <==> p >= h || (p == 0 && h == 1)
  {
    hide Reachable, Tame, ValueAt, SinkAt;
    if p >= h || (p == 0 && h == 1) {
      forall e: Env, s: Sys
        | e.size > 0 && Tame(e, s.past) && Reachable(e, s) && (s.saved.done || s.cached.done) && s.st.reach == p && s.st.horizon == h
        ensures Agrees(e, s)
      {
        if p >= h { ConvergesAtHorizon(e, s); } else { FirstAgrees(e, s); }
      }
    } else {
      var e, s := ShortOfHorizon(p, h);
      assert !Agrees(e, s);
    }
  }
}
