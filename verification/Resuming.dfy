/**
  Where a table's backfill goes on after a crash, a restart or a failure: at its progress, so that
  nothing the persisted progress counts is copied again.
*/
module Resuming {
  import opened Prelude
  import opened Coordinator
  import opened SourceTable
  import opened Convergence
  import opened ChunkProtocol
  import opened ChunkRuns

  // ---------------------------------------------------------------- where a lane begins

  /** A lane begins at the cursor of the persisted progress, or of the cached one when the load fails,
      and goes on from its row count and its chunks; without a cursor it begins at the beginning. */
  lemma BeginsAtProgress(e: Env, s: Sys, load: bool)
    requires e.size > 0 && Reachable(e, s) && Enabled(e, s, Begin(load)) && !(load && s.saved.done)
    ensures var v, s' := if load then s.saved else s.cached, Next(e, s, Begin(load));
            && s'.lane.running && s'.lane.cursor == s'.lane.next == v.cursor && !s'.lane.exhausted && s'.lane.window == []
            && s'.lane.copied == v.rows && s'.lane.trail == v.trail && s'.cached == v && s'.saved == s.saved
  {
    hide Reachable, Ids, Log, LaneOk, Channels, Collecting, QueueOk, Records, ReleasedOnce, LaneProgress, Ordered, Tiles;
    Always(e, s);
    AlwaysQueued(e, s);
    NoCursorNoTrail(e, s.past, if load then s.saved else s.cached);
  }

  lemma NoCursorNoTrail(e: Env, past: Past, v: Saved)
    requires e.size > 0 && SavedOk(e, past, v) && !v.done
    ensures v.cursor.None? ==> v.trail == [] && v.rows == 0
  {
    hide Tiles;
  }

  /** A table that waits for a lane is not running, and what is known of it is not done. */
  ghost predicate QueuedOk(s: Sys) { s.queued ==> !s.lane.running && !s.cached.done }

  lemma QueuedKeeps(e: Env, s: Sys, step: Step)
    requires QueuedOk(s) && Enabled(e, s, step)
    ensures QueuedOk(Next(e, s, step))
  {
    hide CanSelect, Rely, Streamed, StreamDelivered, StreamFailed, RowsAt, Acknowledged;
  }

  lemma {:induction false} RunQueued(e: Env, trace: seq<Step>)
    ensures var r := Exec(e, trace); r.Some? ==> QueuedOk(r.value)
  {
    if trace == [] {
    } else {
      hide QueuedOk, Enabled, Next;
      RunQueued(e, trace[..|trace| - 1]);
      var before, step := Exec(e, trace[..|trace| - 1]), trace[|trace| - 1];
      if before.Some? && Enabled(e, before.value, step) { QueuedKeeps(e, before.value, step); }
    }
  }

  lemma AlwaysQueued(e: Env, s: Sys)
    requires Reachable(e, s)
    ensures QueuedOk(s)
  {
    hide QueuedOk;
    var trace :| Exec(e, trace) == Some(s);
    RunQueued(e, trace);
  }

  // ---------------------------------------------------------------- the first chunk after that

  /** Whatever happens between, short of the lane's end: the first chunk it registers starts at the
      progress it began with. */
  lemma FirstChunkFollows(e: Env, s: Sys, load: bool, steps: seq<Step>, s1: Sys)
    requires e.size > 0 && Reachable(e, s) && Enabled(e, s, Begin(load)) && !(load && s.saved.done)
    requires ExecFrom(e, Next(e, s, Begin(load)), steps) == Some(s1) && Enabled(e, s1, Register)
    requires forall i | 0 <= i < |steps| :: !steps[i].Register? && !steps[i].LaneFail? && !steps[i].Crash?
    ensures var s2 := Next(e, s1, Register);
            s1.co.nextId in s2.past.origin && s2.past.origin[s1.co.nextId] == if load then s.saved.cursor else s.cached.cursor
  {
    hide Reachable, Exec, ExecFrom;
    BeginsAtProgress(e, s, load);
    Untried(e, Next(e, s, Begin(load)), steps);
  }

  /** Until it registers a chunk, all a lane does is to see the stream up. */
  lemma {:induction false} Untried(e: Env, s: Sys, steps: seq<Step>)
    requires s.lane.running && s.lane.window == [] && s.lane.starting.NotStarting?
    requires forall i | 0 <= i < |steps| :: !steps[i].Register? && !steps[i].LaneFail? && !steps[i].Crash?
    ensures var r := ExecFrom(e, s, steps); r.Some? ==> r.value.lane == s.lane.(cleared := r.value.lane.cleared)
  {
    if steps == [] {
    } else {
      Untried(e, s, steps[..|steps| - 1]);
      var before, step := ExecFrom(e, s, steps[..|steps| - 1]), steps[|steps| - 1];
      hide ExecFrom, CanSelect, Rely, Streamed, StreamDelivered, StreamFailed, RowsAt, Acknowledged;
      if before.Some? && Enabled(e, before.value, step) {}
    }
  }

  // ---------------------------------------------------------------- queued again

  /** After a crash a table that is not persisted as done waits for a lane, which begins at the persisted
      progress whether or not it can load that again. */
  lemma CrashGoesOn(e: Env, s: Sys, load: bool)
    requires e.size > 0 && Reachable(e, s)
    ensures var s1 := Next(e, s, Crash);
            && s1.saved == s.saved && !s1.lane.running && (Enabled(e, s1, Begin(load)) <==> !s.saved.done)
            && (!s.saved.done ==> Next(e, s1, Begin(load)).lane.cursor == s.saved.cursor && Next(e, s1, Begin(load)).lane.copied == s.saved.rows)
  {
    hide Reachable;
    var s1 := OneMore(e, s, Crash);
    if !s.saved.done { BeginsAtProgress(e, s1, load); }
  }

  /** A request starts an idle table over from the beginning, whatever its progress was. */
  lemma RequestStartsOver(e: Env, s: Sys, load: bool)
    requires e.size > 0 && Reachable(e, s) && !s.lane.running && !s.queued
    ensures var s1 := Next(e, s, MarkPending);
            && Enabled(e, s1, Requeue)
            && var s2 := Next(e, s1, Requeue);
            && Enabled(e, s2, Begin(load))
            && var lane := Next(e, s2, Begin(load)).lane;
            && lane.running && lane.cursor == None && lane.next == None && lane.copied == 0 && lane.trail == []
  {
    hide Reachable;
    var s1 := OneMore(e, s, MarkPending);
    var s2 := OneMore(e, s1, Requeue);
    BeginsAtProgress(e, s2, load);
  }

  // ---------------------------------------------------------------- the stream a lane sees

  /** A lane sees the stream up exactly while a session runs. */
  lemma {:induction false} RunStreaming(e: Env, trace: seq<Step>)
    ensures var r := Exec(e, trace); r.Some? ==> r.value.co.streaming == r.value.st.up
  {
    if trace == [] {
    } else {
      RunStreaming(e, trace[..|trace| - 1]);
      var before, step := Exec(e, trace[..|trace| - 1]), trace[|trace| - 1];
      if before.Some? && Enabled(e, before.value, step) { SameStreaming(e, before.value, step); }
    }
  }

  lemma SameStreaming(e: Env, s: Sys, step: Step)
    requires Enabled(e, s, step) && s.co.streaming == s.st.up
    ensures var s' := Next(e, s, step); s'.co.streaming == s'.st.up
  {
    hide CanSelect, RowsAt, ApplyUnit, ApplyPart, Credited, LaneAfterCredit, Surviving;
  }

  lemma {:induction false} BrokenDeliversNothing(e: Env, s: Sys, steps: seq<Step>)
    requires s.st.broken && forall i | 0 <= i < |steps| :: !steps[i].StreamStart?
    ensures var r := ExecFrom(e, s, steps); r.Some? ==> r.value.st.broken && r.value.st.sink == s.st.sink && r.value.st.reach == s.st.reach
  {
    if steps == [] {
    } else {
      BrokenDeliversNothing(e, s, steps[..|steps| - 1]);
      var before, step := ExecFrom(e, s, steps[..|steps| - 1]), steps[|steps| - 1];
      if before.Some? && Enabled(e, before.value, step) { FailedStays(e, before.value, step); }
    }
  }

  lemma FailedStays(e: Env, s: Sys, step: Step)
    requires Enabled(e, s, step) && s.st.broken && !step.StreamStart?
    ensures var s' := Next(e, s, step); s'.st.broken && s'.st.sink == s.st.sink && s'.st.reach == s.st.reach
  {
    hide CanSelect, Rely, Streamed, RowsAt, Credited, LaneAfterCredit;
  }

  /** After a failed delivery nothing reaches the sink until another session begins. */
  lemma FailedDeliversNothing(e: Env, s: Sys, live: bool, keys: set<Key>, steps: seq<Step>)
    requires Enabled(e, s, DeliverFail(live, keys)) && forall i | 0 <= i < |steps| :: !steps[i].StreamStart?
    ensures var s1 := Next(e, s, DeliverFail(live, keys)); var r := ExecFrom(e, s1, steps);
            r.Some? ==> r.value.st.sink == s1.st.sink && r.value.st.reach == s.st.reach
  {
    BrokenDeliversNothing(e, Next(e, s, DeliverFail(live, keys)), steps);
  }

  // ---------------------------------------------------------------- progress only grows

  /** What is persisted is the beginning of what is known, which is what a running lane has credited. */
  ghost predicate Tracks(s: Sys) {
    s.saved.trail <= s.cached.trail && (s.lane.running ==> s.lane.trail == s.cached.trail)
  }

  /** So it is after every crash and every successful load ... */
  lemma TracksAgain(e: Env, s: Sys, step: Step)
    requires e.size > 0 && Reachable(e, s) && Enabled(e, s, step) && (step == Crash || step == Begin(true))
    ensures Tracks(Next(e, s, step))
  {
    hide Reachable;
    if step == Begin(true) && !s.saved.done {
      BeginsAtProgress(e, s, true);
    } else if step == Begin(true) {
      AlwaysQueued(e, s);
    }
  }

  /** ... and it stays so, unless the table is queued again although it could not be marked pending. */
  lemma TracksKeeps(e: Env, s: Sys, step: Step)
    requires e.size > 0 && Reachable(e, s) && Enabled(e, s, step) && Tracks(s) && (step.Requeue? ==> s.saved.trail == [])
    ensures Tracks(Next(e, s, step))
    ensures !step.MarkPending? ==> s.saved.trail <= Next(e, s, step).saved.trail
  {
    hide Reachable, CanSelect, Rely, Streamed, StreamDelivered, StreamFailed, RowsAt, Acknowledged;
    match step
    case Begin(load) => BeginTracks(e, s, load);
    case _ =>
  }

  lemma BeginTracks(e: Env, s: Sys, load: bool)
    requires e.size > 0 && Reachable(e, s) && Enabled(e, s, Begin(load)) && Tracks(s)
    ensures Tracks(Next(e, s, Begin(load))) && Next(e, s, Begin(load)).saved == s.saved
  {
    hide Reachable;
    AlwaysQueued(e, s);
    if !(load && s.saved.done) { BeginsAtProgress(e, s, load); }
  }

  // ---------------------------------------------------------------- and so does the cursor

  predicate Beyond(c: Option<Key>, d: Option<Key>) { c.Some? ==> d.Some? && c.value <= d.value }

  /** Nothing the lane does next, now or after a resume, starts before `c`. */
  ghost predicate GoesOn(s: Sys, c: Option<Key>) {
    && (s.lane.running ==> Beyond(c, s.lane.cursor) && (s.lane.exhausted || Beyond(c, s.lane.next)))
    && (s.saved.done || Beyond(c, s.saved.cursor)) && (s.cached.done || Beyond(c, s.cached.cursor))
  }

  /** A table that is finished, persistently, and waits for nothing. */
  ghost predicate Ended(s: Sys) { s.saved.done && !s.lane.running && !s.queued }

  lemma TrailCursors(e: Env, past: Past, t: seq<nat>, u: seq<nat>)
    requires e.size > 0 && Tiles(e, past, u) && t <= u && t != [] && (forall id: nat :: Proper(e, past, id))
    requires !Short(e, RowsOf(past, u[|u| - 1]))
    ensures Beyond(LastKey(RowsOf(past, t[|t| - 1])), LastKey(RowsOf(past, u[|u| - 1])))
  {
    hide Complete, OriginOf, RowsOf;
    if |t| < |u| {
      LaterBegins(e, past, u, |t| - 1, |u| - 1);
      assert Proper(e, past, u[|u| - 1]);
    }
  }

  /** A longer list of credited chunks ends further on. */
  lemma ProgressBeyond(e: Env, past: Past, v: Saved, trail: seq<nat>, cursor: Option<Key>, rows: nat)
    requires e.size > 0 && SavedOk(e, past, v) && !v.done && ProgressOk(e, past, trail, cursor, rows) && v.trail <= trail
    requires forall id: nat :: Proper(e, past, id)
    ensures Beyond(v.cursor, cursor)
  {
    hide Tiles, Total, Proper;
    if v.trail != [] { TrailCursors(e, past, v.trail, trail); }
  }

  lemma WindowBeyond(e: Env, past: Past, lane: Lane)
    requires e.size > 0 && LaneOk(e, past, lane) && lane.running && !lane.exhausted && (forall id: nat :: Proper(e, past, id))
    ensures Beyond(lane.cursor, lane.next)
  {
    if lane.window != [] {
      assert Proper(e, past, lane.window[0]) && Proper(e, past, lane.window[|lane.window| - 1]);
      hide Proper;
    }
  }

  lemma GoesOnHere(e: Env, s: Sys)
    requires e.size > 0 && Reachable(e, s) && Tracks(s) && !s.saved.done
    ensures GoesOn(s, s.saved.cursor)
  {
    hide Reachable, Ids, Log, LaneOk, Channels, Collecting, QueueOk, Records, ReleasedOnce, Ordered, Tiles, Total, Proper, SavedOk, ProgressOk;
    Always(e, s);
    ProperChunks(e, s.written, s.co.nextId, s.past);
    if s.lane.running {
      ProgressBeyond(e, s.past, s.saved, s.lane.trail, s.lane.cursor, s.lane.copied);
      if !s.lane.exhausted { WindowBeyond(e, s.past, s.lane); }
    }
    if !s.cached.done {
      assert ProgressOk(e, s.past, s.cached.trail, s.cached.cursor, s.cached.rows) by { NotDoneOk(e, s.past, s.cached); }
      ProgressBeyond(e, s.past, s.saved, s.cached.trail, s.cached.cursor, s.cached.rows);
    }
  }

  lemma NotDoneOk(e: Env, past: Past, v: Saved)
    requires SavedOk(e, past, v) && !v.done
    ensures ProgressOk(e, past, v.trail, v.cursor, v.rows)
  {}

  lemma EndedHere(e: Env, s: Sys)
    requires e.size > 0 && Reachable(e, s) && Tracks(s) && s.saved.done
    ensures Ended(s)
  {
    hide Reachable, Ids, Log, LaneOk, Channels, Collecting, QueueOk, Records, ReleasedOnce, Ordered, Total, Complete, OriginOf, RowsOf, Short;
    Always(e, s);
    AlwaysQueued(e, s);
    var n := |s.saved.trail| - 1;
    assert s.cached.trail[n] == s.saved.trail[n];
  }

  /** Marked pending or queued again: the two ways to start a table over. */
  predicate StartsOver(step: Step) { step.MarkPending? || step.Requeue? }

  lemma EndedKeeps(e: Env, s: Sys, step: Step)
    requires Ended(s) && Enabled(e, s, step) && !StartsOver(step) && LaneOk(e, s.past, s.lane)
    ensures Ended(Next(e, s, step)) && Next(e, s, step).past == s.past
  {
    hide Page, Rely, Streamed, StreamDelivered, StreamFailed, RowsAt, Acknowledged, WindowOk;
  }

  lemma GoesOnKeeps(e: Env, s: Sys, step: Step, c: Option<Key>)
    requires e.size > 0 && Reachable(e, s) && Enabled(e, s, step) && !StartsOver(step) && GoesOn(s, c)
    ensures GoesOn(Next(e, s, step), c)
  {
    hide Reachable, CanSelect, Rely, Streamed, StreamDelivered, StreamFailed, RowsAt, Acknowledged, Credited, LaneAfterCredit, DoCredit, CanCredit;
    match step
    case Begin(load) => if !(load && s.saved.done) { AlwaysQueued(e, s); BeginsAtProgress(e, s, load); }
    case EmitHigh => HighGoesOn(e, s, c);
    case HeadDone(saves) => CreditGoesOn(e, s, saves, c);
    case _ =>
  }

  lemma HighGoesOn(e: Env, s: Sys, c: Option<Key>)
    requires e.size > 0 && Reachable(e, s) && CanEmitHigh(e, s) && GoesOn(s, c)
    ensures GoesOn(DoEmitHigh(e, s), c)
  {
    hide Reachable, Ids, WindowOk, Channels, Collecting, QueueOk, Records, ReleasedOnce, Ordered, LaneProgress, SavedOk, Log, Proper;
    Always(e, s);
    ProperChunks(e, s.written, s.co.nextId, s.past);
    var id := s.lane.starting.id;
    assert forall r | r in RowsOf(s.past, id) :: After(OriginOf(s.past, id), r.key) by { assert Proper(e, s.past, id); ProperRows(e, s.past, id); }
  }

  lemma ProperRows(e: Env, past: Past, id: nat)
    requires Proper(e, past, id)
    ensures forall r | r in RowsOf(past, id) :: After(OriginOf(past, id), r.key)
  {}

  lemma CreditGoesOn(e: Env, s: Sys, saves: bool, c: Option<Key>)
    requires e.size > 0 && Reachable(e, s) && CanCredit(s) && GoesOn(s, c)
    ensures GoesOn(DoCredit(e, s, saves), c)
  {
    hide Reachable, Ids, Channels, Collecting, QueueOk, ReleasedOnce, Ordered, LaneProgress, SavedOk, Log, Proper, Release;
    Always(e, s);
    ProperChunks(e, s.written, s.co.nextId, s.past);
    HeadRecord(e, s);
    var id := s.lane.window[0];
    assert forall r | r in RowsOf(s.past, id) :: After(OriginOf(s.past, id), r.key) by { ProperRows(e, s.past, id); }
  }

  // ---------------------------------------------------------------- the law

  /** In a stretch of a run, whatever crashes, failures and restarts it holds, that neither marks the
      table pending nor queues it again: the persisted chunks stay and only more are added, the lane
      goes on from them, and no chunk it starts selects a key they account for; once done, it starts
      none. */
  lemma NothingCopiedAgain(e: Env, s: Sys, steps: seq<Step>, s1: Sys)
    requires e.size > 0 && Reachable(e, s) && Tracks(s) && ExecFrom(e, s, steps) == Some(s1)
    requires forall i | 0 <= i < |steps| :: !StartsOver(steps[i])
    ensures s.saved.trail <= s1.saved.trail <= s1.cached.trail && (s1.lane.running ==> s1.saved.trail <= s1.lane.trail)
    ensures forall id, r | id in s1.past.picked && id !in s.past.origin && r in s1.past.picked[id].rows ::
              !s.saved.done && After(s.saved.cursor, r.key)
  {
    hide Reachable, ExecFrom, Tracks, GoesOn, Ended, StartsOver;
    GrowsOn(e, s, steps);
    assert s1.saved.trail <= s1.cached.trail && (s1.lane.running ==> s1.saved.trail <= s1.lane.trail) by { TracksMeans(s1); }
    if s.saved.done { EndedHere(e, s); } else { GoesOnHere(e, s); }
    BeginsBeyond(e, s, steps, s.saved.cursor);
    PicksBeyond(e, s1);
  }

  lemma TracksMeans(s: Sys)
    requires Tracks(s)
    ensures s.saved.trail <= s.cached.trail && (s.lane.running ==> s.lane.trail == s.cached.trail)
  {}

  lemma {:induction false} GrowsOn(e: Env, s: Sys, steps: seq<Step>)
    requires e.size > 0 && Reachable(e, s) && Tracks(s) && forall i | 0 <= i < |steps| :: !StartsOver(steps[i])
    ensures var r := ExecFrom(e, s, steps);
            r.Some? ==> Reachable(e, r.value) && Tracks(r.value) && s.saved.trail <= r.value.saved.trail
  {
    if steps == [] {
    } else {
      hide Reachable, Tracks, Enabled, Next;
      GrowsOn(e, s, steps[..|steps| - 1]);
      var before, step := ExecFrom(e, s, steps[..|steps| - 1]), steps[|steps| - 1];
      if before.Some? && Enabled(e, before.value, step) {
        TracksKeeps(e, before.value, step);
        var s' := OneMore(e, before.value, step);
      }
    }
  }

  /** Chunks registered on the way begin beyond where the stretch began. */
  lemma {:induction false} BeginsBeyond(e: Env, s: Sys, steps: seq<Step>, c: Option<Key>)
    requires e.size > 0 && Reachable(e, s) && (Ended(s) || GoesOn(s, c)) && forall i | 0 <= i < |steps| :: !StartsOver(steps[i])
    ensures var r := ExecFrom(e, s, steps);
            r.Some? ==>
              && Reachable(e, r.value) && (Ended(s) ==> Ended(r.value) && r.value.past == s.past)
              && (!Ended(s) ==> GoesOn(r.value, c) && NewBeyond(s.past, r.value.past, c))
  {
    if steps == [] {
    } else {
      hide Reachable, Ended, GoesOn, Enabled, Next, StartsOver, NewBeyond;
      BeginsBeyond(e, s, steps[..|steps| - 1], c);
      var before, step := ExecFrom(e, s, steps[..|steps| - 1]), steps[|steps| - 1];
      if before.Some? && Enabled(e, before.value, step) {
        var s' := OneMore(e, before.value, step);
        if Ended(s) {
          assert LaneOk(e, before.value.past, before.value.lane) by { StaysOk(e, before.value); }
          EndedKeeps(e, before.value, step);
        } else {
          GoesOnKeeps(e, before.value, step, c);
          OneBeyond(e, s.past, before.value, step, c);
        }
      }
    }
  }

  lemma StaysOk(e: Env, s: Sys)
    requires e.size > 0 && Reachable(e, s)
    ensures LaneOk(e, s.past, s.lane)
  {
    hide Reachable, Ids, LaneOk, Channels, Collecting, QueueOk, Records, ReleasedOnce, Ordered, LaneProgress, SavedOk, Log;
    Always(e, s);
  }

  ghost predicate NewBeyond(past: Past, past': Past, c: Option<Key>) {
    forall id | id in past'.origin && id !in past.origin :: Beyond(c, past'.origin[id])
  }

  lemma OneBeyond(e: Env, past: Past, s: Sys, step: Step, c: Option<Key>)
    requires NewBeyond(past, s.past, c) && GoesOn(s, c) && Enabled(e, s, step)
    ensures NewBeyond(past, Next(e, s, step).past, c)
  {
    hide CanSelect, Rely, Streamed, StreamDelivered, StreamFailed, RowsAt, Acknowledged;
  }

  lemma PicksBeyond(e: Env, s: Sys)
    requires e.size > 0 && Reachable(e, s)
    ensures forall id, r | id in s.past.picked && r in s.past.picked[id].rows ::
              id in s.past.origin && After(s.past.origin[id], r.key)
  {
    hide Reachable, Ids, LaneOk, Channels, Collecting, QueueOk, Records, ReleasedOnce, Ordered, LaneProgress, SavedOk, MarkPlaced, LowOk, HighOk;
    Always(e, s);
    forall id | id in s.past.picked ensures PickOk(e, s.written, s.past, id) {}
  }
}
