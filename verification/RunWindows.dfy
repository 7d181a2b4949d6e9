/**
  A chunk's window where it stands in a run: what the condition on its entries says about the sink.
*/
module RunWindows {
  import opened Prelude
  import opened Coordinator
  import opened SourceTable
  import opened Convergence
  import opened ChunkProtocol
  import opened ChunkRuns
  import opened Windows

  // ---------------------------------------------------------------- a stretch of the log by itself

  function Updated(table: map<Key, Doc>, ch: Change): map<Key, Doc> {
    match ch
    case Put(key, doc) => table[key := doc]
    case Patch(key, doc) => table[key := Patched(SinkAt(table, key), doc)]
    case Del(key) => table - {key}
    case Truncate => map[]
    case Rekey(o, n, doc) => (table - {o})[n := doc]
    case DelUnkeyed(key) => table - {key}
  }

  /** The source table after the first `x` log entries. */
  function TableAt(e: Env, x: nat): map<Key, Doc>
    requires x <= |e.wal|
  {
    if x == 0 then e.base
    else if IsOurs(e, x - 1) then Updated(TableAt(e, x - 1), e.wal[x - 1].change)
    else TableAt(e, x - 1)
  }

  lemma {:induction false} TableHolds(e: Env, k: Key, x: nat)
    requires x <= |e.wal|
    ensures SinkAt(TableAt(e, x), k) == ValueAt(e, k, x)
    decreases x
  {
    if x == 0 {
    } else {
      TableHolds(e, k, x - 1);
    }
  }

  /** The entries `lo` to `hi` on the table as it stood before them. */
  function Cut(e: Env, lo: nat, hi: nat): Env
    requires lo <= hi < |e.wal|
  {
    Env(e.wal[lo..hi + 1], TableAt(e, lo), e.table, e.size)
  }

  lemma {:induction false} CutValue(e: Env, lo: nat, hi: nat, k: Key, x: nat)
    requires lo <= hi < |e.wal| && x <= hi + 1 - lo
    ensures ValueAt(Cut(e, lo, hi), k, x) == ValueAt(e, k, lo + x)
    decreases x
  {
    if x == 0 {
      TableHolds(e, k, lo);
    } else {
      CutValue(e, lo, hi, k, x - 1);
    }
  }

  lemma {:induction false} CutSeen(e: Env, lo: nat, hi: nat, x: nat)
    requires lo <= hi < |e.wal| && 1 <= x <= hi + 1 - lo
    ensures SeenIn(Cut(e, lo, hi), 1, x) == SeenIn(e, lo + 1, lo + x)
    decreases x
  {
    if x == 1 {
    } else {
      CutSeen(e, lo, hi, x - 1);
    }
  }

  lemma CutPage(e: Env, lo: nat, hi: nat, from: Option<Key>, sel: nat, rows: seq<Row>)
    requires lo <= sel <= hi < |e.wal| && Page(e, from, sel, rows)
    ensures Page(Cut(e, lo, hi), from, sel - lo, rows)
  {
    hide ValueAt;
    var c := Cut(e, lo, hi);
    forall k: Key ensures ValueAt(c, k, sel - lo) == ValueAt(e, k, sel) { CutValue(e, lo, hi, k, sel - lo); }
    forall k: Key ensures InRange(c, from, rows, k) == InRange(e, from, rows, k) {}
  }

  /** A mirror after the entries from `lo` up to `x`. */
  function MirrorFrom(e: Env, mirror: map<Key, Doc>, lo: nat, x: nat): map<Key, Doc>
    requires x <= |e.wal|
    decreases x
  {
    if x <= lo then mirror
    else if IsOurs(e, x - 1) then ApplyChange(MirrorFrom(e, mirror, lo, x - 1), e.wal[x - 1].change)
    else MirrorFrom(e, mirror, lo, x - 1)
  }

  lemma {:induction false} CutMirror(e: Env, mirror: map<Key, Doc>, lo: nat, hi: nat, x: nat)
    requires lo <= hi < |e.wal| && x <= hi + 1 - lo
    ensures MirrorAt(Cut(e, lo, hi), mirror, x) == MirrorFrom(e, mirror, lo, lo + x)
    decreases x
  {
    if x == 0 {
    } else {
      CutMirror(e, mirror, lo, hi, x - 1);
    }
  }

  // ---------------------------------------------------------------- the window of a chunk

  /** The log between a chunk's watermarks. */
  function Window(e: Env, past: Past, id: nat): (w: seq<Entry>)
    requires Placed(e, past, id)
    ensures IsWindow(w)
  {
    e.wal[past.lowAt[id]..past.highAt[id] + 1]
  }

  predicate Placed(e: Env, past: Past, id: nat) {
    && id in past.origin && id in past.lowAt && id in past.picked && id in past.highAt
    && past.lowAt[id] < past.picked[id].sel <= past.highAt[id] < |e.wal|
    && e.wal[past.lowAt[id]] == Mark(id, false) && e.wal[past.highAt[id]] == Mark(id, true)
  }

  lemma PlacedIfHigh(e: Env, written: nat, nextId: nat, past: Past, id: nat)
    requires Log(e, written, nextId, past) && id in past.highAt
    ensures Placed(e, past, id)
    ensures Page(e, past.origin[id], past.picked[id].sel, past.picked[id].rows)
  {
    hide Page, MarkPlaced;
    assert HighOk(e, written, past, id) && PickOk(e, written, past, id) && LowOk(e, written, past, id);
  }

  /** Of each row nothing, or what the source holds at `x`. */
  ghost predicate FaithfulAt(e: Env, mirror: map<Key, Doc>, x: nat)
    requires x <= |e.wal|
  {
    forall k: Key :: SinkAt(mirror, k).None? || SinkAt(mirror, k) == ValueAt(e, k, x)
  }

  /** What the chunk releases makes up, for a key its window tells all about, for whatever the mirror
      lacked. */
  lemma ToldIsReleased(e: Env, past: Past, id: nat, mirror: map<Key, Doc>, k: Key)
    requires Placed(e, past, id) && Told(Window(e, past, id), e.table, k)
    requires Page(e, past.origin[id], past.picked[id].sel, past.picked[id].rows)
    requires FaithfulAt(e, mirror, past.lowAt[id]) && InRange(e, past.origin[id], past.picked[id].rows, k)
    ensures var lo, hi := past.lowAt[id], past.highAt[id];
            SinkAt(ApplyRows(MirrorFrom(e, mirror, lo, hi), Release(e, past, id)), k) == ValueAt(e, k, hi)
  {
    hide ValueAt, SeenIn, MirrorAt, MirrorFrom, Surviving, ApplyRows, Told, Page;
    var lo, hi, sel, rows := past.lowAt[id], past.highAt[id], past.picked[id].sel, past.picked[id].rows;
    var c := Cut(e, lo, hi);
    CutPage(e, lo, hi, past.origin[id], sel, rows);
    CutSeen(e, lo, hi, hi - lo);
    CutMirror(e, mirror, lo, hi, hi - lo);
    CutValue(e, lo, hi, k, hi - lo);
    assert Faithful(c, mirror) by {
      forall j: Key ensures SinkAt(mirror, j).None? || SinkAt(mirror, j) == ValueAt(c, j, 0) { CutValue(e, lo, hi, j, 0); }
    }
    ToldIsMirrored(c, mirror, past.origin[id], sel - lo, rows, k);
  }

  // ---------------------------------------------------------------- windows do not overlap

  predicate Halfway(starting: Start) { starting.LowOut? || starting.Chosen? }

  /** No other low watermark of the table stands between a chunk's two, or after the low one of a
      chunk that still lacks its high one. */
  ghost predicate Spaced(past: Past, starting: Start) {
    && (forall a, b | a in past.highAt && b in past.lowAt :: Between(past, a, b))
    && (Halfway(starting) ==> starting.id in past.lowAt && forall b | b in past.lowAt :: past.lowAt[b] <= past.lowAt[starting.id])
  }

  predicate Between(past: Past, a: nat, b: nat)
    requires a in past.highAt && b in past.lowAt
  {
    a in past.lowAt && (past.lowAt[b] <= past.lowAt[a] || past.highAt[a] < past.lowAt[b])
  }

  lemma LowSpaced(e: Env, s: Sys)
    requires Protocol(e, s) && CanEmitLow(e, s) && Spaced(s.past, s.lane.starting)
    ensures var s' := DoEmitLow(s); Spaced(s'.past, s'.lane.starting)
  {
    hide Ids, Channels, Collecting, QueueOk, Records, ReleasedOnce, SavedOk, LaneProgress, WindowOk, Page, MarkPlaced;
    var n, past' := s.lane.starting.id, DoEmitLow(s).past;
    forall b | b in s.past.lowAt ensures s.past.lowAt[b] < s.written { assert LowOk(e, s.written, s.past, b); }
    forall a | a in s.past.highAt ensures s.past.highAt[a] < s.written && a in s.past.lowAt {
      assert HighOk(e, s.written, s.past, a) && PickOk(e, s.written, s.past, a);
    }
    forall a, b | a in past'.highAt && b in past'.lowAt ensures Between(past', a, b) {
      if b != n { assert Between(s.past, a, b); }
    }
  }

  lemma HighSpaced(e: Env, s: Sys)
    requires CanEmitHigh(e, s) && Spaced(s.past, s.lane.starting)
    ensures var s' := DoEmitHigh(e, s); Spaced(s'.past, s'.lane.starting)
  {
    var n, past' := s.lane.starting.id, DoEmitHigh(e, s).past;
    forall a, b | a in past'.highAt && b in past'.lowAt ensures Between(past', a, b) {
      if a != n { assert Between(s.past, a, b); }
    }
  }

  /** A history with the same watermarks is as spaced, for the chunk that is still being started. */
  lemma SameSpaced(past: Past, past': Past, starting: Start, starting': Start)
    requires Spaced(past, starting) && past'.lowAt == past.lowAt && past'.highAt == past.highAt
    requires Halfway(starting') ==> Halfway(starting) && starting'.id == starting.id
    ensures Spaced(past', starting')
  {
    forall a, b | a in past'.highAt && b in past'.lowAt ensures Between(past', a, b) { assert Between(past, a, b); }
  }

  lemma SpacedKeeps(e: Env, s: Sys, step: Step)
    requires Protocol(e, s) && Enabled(e, s, step) && Spaced(s.past, s.lane.starting)
    ensures var s' := Next(e, s, step); Spaced(s'.past, s'.lane.starting)
  {
    hide Protocol, Spaced, CanSelect, CanCredit, Rely, Streamed, StreamDelivered, StreamFailed, Credited, RowsAt;
    match step
    case EmitLow => LowSpaced(e, s);
    case EmitHigh => HighSpaced(e, s);
    case Select(sel, rows) => assert CanSelect(e, s, sel, rows); StillStarting(e, s, sel, rows);
    case _ => var s' := Next(e, s, step); SameSpaced(s.past, s'.past, s.lane.starting, s'.lane.starting);
  }

  lemma StillStarting(e: Env, s: Sys, sel: nat, rows: seq<Row>)
    requires CanSelect(e, s, sel, rows) && Spaced(s.past, s.lane.starting)
    ensures var s' := DoSelect(s, sel, rows); Spaced(s'.past, s'.lane.starting)
  {
    hide Spaced, Page;
    var s' := DoSelect(s, sel, rows);
    SameSpaced(s.past, s'.past, s.lane.starting, s'.lane.starting);
  }

  lemma {:induction false} RunSpaced(e: Env, trace: seq<Step>)
    requires e.size > 0
    ensures var r := Exec(e, trace); r.Some? ==> Spaced(r.value.past, r.value.lane.starting)
  {
    if trace == [] {
    } else {
      hide Protocol, Ordered, Spaced, Enabled, Next;
      RunSpaced(e, trace[..|trace| - 1]);
      RunKeeps(e, trace[..|trace| - 1]);
      var before, step := Exec(e, trace[..|trace| - 1]), trace[|trace| - 1];
      if before.Some? && Enabled(e, before.value, step) { SpacedKeeps(e, before.value, step); }
    }
  }

  /** No high watermark of the table stands within a chunk's window but its own. */
  lemma Alone(e: Env, s: Sys, id: nat, a: nat)
    requires e.size > 0 && Reachable(e, s) && id in s.past.highAt && id in s.past.lowAt && a in s.past.highAt
    ensures s.past.highAt[a] <= s.past.lowAt[id] || s.past.highAt[id] <= s.past.highAt[a]
  {
    hide Exec, Ids, LaneOk, Channels, Collecting, QueueOk, Records, ReleasedOnce, LaneProgress, SavedOk, Ordered, Log;
    Always(e, s);
    var trace :| Exec(e, trace) == Some(s);
    RunSpaced(e, trace);
    PlacedIfHigh(e, s.written, s.co.nextId, s.past, id);
    PlacedIfHigh(e, s.written, s.co.nextId, s.past, a);
    assert Between(s.past, a, id) && Between(s.past, id, a);
  }

  // ---------------------------------------------------------------- delivering a window

  /** Anything but a delivery that fails and the end of the session. */
  predicate Smooth(step: Step) { !step.DeliverFail? && !step.Drop? && !step.StreamStop? && !step.Crash? }

  /** Since the sink held `mirror`, exactly the entries from `lo` on were delivered, in order. */
  ghost predicate OnTrack(e: Env, s: Sys, mirror: map<Key, Doc>, lo: nat) {
    s.st.up && !s.st.gap && lo <= s.st.reach <= |e.wal| && s.st.sink == MirrorFrom(e, mirror, lo, s.st.reach)
  }

  /** No high watermark of the table stands at `x`, as far as `past` knows. */
  predicate NoHighAt(past: Past, x: nat) { forall a | a in past.highAt :: past.highAt[a] != x }

  /** The unit at the head of the queue is the entry delivery has reached, and it brings rows only at a
      high watermark of the table. */
  lemma HeadUnit(e: Env, s: Sys)
    requires Protocol(e, s) && CanDeliver(e, s) && !s.st.gap
    ensures var u := s.st.queue[0];
            u.pos == s.st.reach < |e.wal| && (u.rows != [] ==> !NoHighAt(s.past, u.pos) && !IsOurs(e, u.pos))
  {
    hide Ids, LaneOk, Channels, Collecting, Records, ReleasedOnce, LaneProgress, SavedOk, Release, LowOk, PickOk, HighOk;
    var u := s.st.queue[0];
    assert UnitOk(e, s.co.inflight, s.past, u);
    if u.rows != [] { HighHere(e, s.written, s.co.nextId, s.past, u.pos); }
  }

  lemma HighHere(e: Env, written: nat, nextId: nat, past: Past, x: nat)
    requires Log(e, written, nextId, past) && x < written && e.wal[x].Mark? && e.wal[x].high && e.wal[x].id in past.highAt
    ensures past.highAt[e.wal[x].id] == x
  {
    hide LowOk, PickOk, HighOk;
    HasOrigin(e, written, nextId, past, e.wal[x].id);
    assert MarkPlaced(e, past, x);
  }

  lemma DeliverOnTrack(e: Env, s: Sys, mirror: map<Key, Doc>, lo: nat)
    requires Protocol(e, s) && CanDeliver(e, s) && OnTrack(e, s, mirror, lo) && NoHighAt(s.past, s.st.reach)
    ensures var s' := DoDeliver(e, s); OnTrack(e, s', mirror, lo) && s'.st.reach == s.st.reach + 1
  {
    hide Protocol, ApplyChange, Acknowledged;
    HeadUnit(e, s);
  }

  lemma SmoothOnTrack(e: Env, s: Sys, step: Step, mirror: map<Key, Doc>, lo: nat)
    requires Protocol(e, s) && Enabled(e, s, step) && Smooth(step) && OnTrack(e, s, mirror, lo)
    requires step.Deliver? ==> NoHighAt(s.past, s.st.reach)
    ensures var s' := Next(e, s, step); OnTrack(e, s', mirror, lo) && s.st.reach <= s'.st.reach
    ensures !step.Deliver? ==> Next(e, s, step).st.reach == s.st.reach
  {
    hide Protocol, MirrorFrom, CanSelect, CanCredit, Rely, Streamed, DoDeliver, Credited, RowsAt;
    if step.Deliver? { DeliverOnTrack(e, s, mirror, lo); }
  }

  lemma SmoothUp(e: Env, s: Sys, step: Step)
    requires Protocol(e, s) && Enabled(e, s, step) && Smooth(step) && s.st.up
    ensures var s' := Next(e, s, step); s'.st.up && s.st.reach <= s'.st.reach && s'.st.gap == s.st.gap
    ensures step.Deliver? && !s.st.gap ==> s.st.reach < Next(e, s, step).st.reach
  {
    hide Protocol, CanSelect, CanCredit, Rely, Streamed, Credited, RowsAt, ApplyUnit, Acknowledged;
    if step.Deliver? && !s.st.gap { HeadUnit(e, s); }
  }

  lemma {:induction false} StaysUp(e: Env, s: Sys, steps: seq<Step>)
    requires e.size > 0 && Reachable(e, s) && s.st.up && forall i | 0 <= i < |steps| :: Smooth(steps[i])
    ensures var r := ExecFrom(e, s, steps); r.Some? ==> Reachable(e, r.value) && r.value.st.up && r.value.st.gap == s.st.gap
  {
    if steps == [] {
    } else {
      hide Reachable, Protocol, Ordered, Enabled, Next, Smooth;
      var before, step := ExecFrom(e, s, steps[..|steps| - 1]), steps[|steps| - 1];
      StaysUp(e, s, steps[..|steps| - 1]);
      if before.Some? && Enabled(e, before.value, step) {
        Always(e, before.value);
        SmoothUp(e, before.value, step);
        var s' := OneMore(e, before.value, step);
      }
    }
  }

  /** A stretch of a run that delivers entries among which the table has no high watermark. */
  lemma {:induction false} StaysOnTrack(e: Env, s: Sys, steps: seq<Step>, past: Past, lo: nat, hi: nat)
    requires e.size > 0 && Reachable(e, s) && OnTrack(e, s, s.st.sink, lo) && forall i | 0 <= i < |steps| :: Smooth(steps[i])
    requires forall x: nat | lo <= x < hi :: NoHighAt(past, x)
    ensures var r := ExecFrom(e, s, steps);
            r.Some? && Grows(r.value.past, past) && r.value.st.reach <= hi ==> OnTrack(e, r.value, s.st.sink, lo)
  {
    if steps == [] {
    } else {
      hide Reachable, Protocol, Ordered, Enabled, Next, Smooth, OnTrack, Grows, NoHighAt;
      var sofar := steps[..|steps| - 1];
      var before, step := ExecFrom(e, s, sofar), steps[|steps| - 1];
      StaysOnTrack(e, s, sofar, past, lo, hi);
      assert s.st.up by { UpIfOnTrack(e, s, s.st.sink, lo); }
      StaysUp(e, s, sofar);
      if before.Some? && Enabled(e, before.value, step) {
        var b, s' := before.value, Next(e, before.value, step);
        if Grows(s'.past, past) && s'.st.reach <= hi {
          Always(e, b);
          HistoryGrows(e, b, step);
          GrowsTrans(b.past, s'.past, past);
          SmoothUp(e, b, step);
          UpIfOnTrack(e, b, s.st.sink, lo);
          UpIfOnTrack(e, s, s.st.sink, lo);
          if step.Deliver? { EarlierNoHigh(b.past, past, b.st.reach); }
          SmoothOnTrack(e, b, step, s.st.sink, lo);
        }
      }
    }
  }

  lemma UpIfOnTrack(e: Env, s: Sys, mirror: map<Key, Doc>, lo: nat)
    requires OnTrack(e, s, mirror, lo)
    ensures s.st.up && !s.st.gap && lo <= s.st.reach
  {}

  lemma GrowsTrans(a: Past, b: Past, c: Past)
    requires Grows(a, b) && Grows(b, c)
    ensures Grows(a, c)
  {}

  lemma EarlierNoHigh(past: Past, past': Past, x: nat)
    requires Grows(past, past') && NoHighAt(past', x)
    ensures NoHighAt(past, x)
  {}

  /** In a run: when delivery stands at a chunk's low watermark, with of each row nothing or what the
      source holds there in the sink, and goes on without failing to the high one with the chunk still
      in flight, then every key of the chunk's range that its window tells all about is in the sink as
      it is in the source there. No change elsewhere in the log matters. */
  lemma ToldWindowConverges(e: Env, s: Sys, steps: seq<Step>, s1: Sys, id: nat, k: Key)
    requires e.size > 0 && Reachable(e, s) && ExecFrom(e, s, steps) == Some(s1) && forall i | 0 <= i < |steps| :: Smooth(steps[i])
    requires Placed(e, s1.past, id) && Told(Window(e, s1.past, id), e.table, k)
    requires InRange(e, s1.past.origin[id], s1.past.picked[id].rows, k)
    requires s.st.up && !s.st.gap && s.st.reach == s1.past.lowAt[id] <= |e.wal| && FaithfulAt(e, s.st.sink, s.st.reach)
    requires s1.st.reach == s1.past.highAt[id] && CanDeliver(e, s1) && id in s1.co.inflight
    ensures SinkAt(DoDeliver(e, s1).st.sink, k) == ValueAt(e, k, s1.past.highAt[id] + 1)
  {
    hide Reachable, Told, FaithfulAt, Smooth, MirrorFrom, ExecFrom, InRange, SinkAt, CanDeliver, Release, ApplyRows;
    var lo, hi := s1.past.lowAt[id], s1.past.highAt[id];
    StaysUp(e, s, steps);
    forall x: nat | lo <= x < hi ensures NoHighAt(s1.past, x) { OnlyItsOwn(e, s1, id, x); }
    assert MirrorFrom(e, s.st.sink, lo, lo) == s.st.sink by { MirrorStart(e, s.st.sink, lo); }
    StaysOnTrack(e, s, steps, s1.past, lo, hi);
    LastUnit(e, s1, id);
    ToldIsReleased(e, s1.past, id, s.st.sink, k);
  }

  lemma MirrorStart(e: Env, mirror: map<Key, Doc>, lo: nat)
    requires lo <= |e.wal|
    ensures MirrorFrom(e, mirror, lo, lo) == mirror
  {}

  lemma OnlyItsOwn(e: Env, s: Sys, id: nat, x: nat)
    requires e.size > 0 && Reachable(e, s) && Placed(e, s.past, id) && s.past.lowAt[id] <= x < s.past.highAt[id]
    ensures NoHighAt(s.past, x)
  {
    hide Reachable, Ids, LaneOk, Channels, Collecting, QueueOk, Records, ReleasedOnce, LaneProgress, SavedOk, Ordered, Log;
    Always(e, s);
    forall a | a in s.past.highAt ensures s.past.highAt[a] != x {
      Alone(e, s, id, a);
      PlacedIfHigh(e, s.written, s.co.nextId, s.past, a);
    }
  }

  /** The unit at the high watermark of a chunk in flight holds what the chunk releases. */
  lemma LastUnit(e: Env, s: Sys, id: nat)
    requires e.size > 0 && Reachable(e, s) && CanDeliver(e, s) && !s.st.gap && Placed(e, s.past, id)
    requires s.st.reach == s.past.highAt[id] && id in s.co.inflight
    ensures s.st.queue[0] == Unit(s.past.highAt[id], Release(e, s.past, id))
    ensures DoDeliver(e, s).st.sink == ApplyRows(s.st.sink, Release(e, s.past, id))
    ensures forall k: Key :: ValueAt(e, k, s.past.highAt[id] + 1) == ValueAt(e, k, s.past.highAt[id])
    ensures Page(e, s.past.origin[id], s.past.picked[id].sel, s.past.picked[id].rows)
  {
    hide Reachable, Ids, LaneOk, Channels, Collecting, Records, ReleasedOnce, LaneProgress, SavedOk, Ordered, Release, Acknowledged, Page, Log;
    Always(e, s);
    HeadUnit(e, s);
    PlacedIfHigh(e, s.written, s.co.nextId, s.past, id);
    assert UnitOk(e, s.co.inflight, s.past, s.st.queue[0]);
  }
}
