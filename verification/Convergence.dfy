/**
  One table's backfill running against the live stream: the lane that copies it, the stream
  session that replays the log, the delivery queue in front of the sink, the sink itself, and the
  persisted progress. Lanes of other tables, other nodes and the database's writers are the
  environment. A run may stop and restart the stream, drop queued units during teardown, fail
  deliveries half way, crash the process and resume from the persisted state, any number of times.
*/
module Convergence {
  import opened Prelude
  import opened Coordinator
  import opened SourceTable

  // ---------------------------------------------------------------- state

  const PIPELINE_DEPTH := 2

  /** How far startChunk has come with the chunk it is starting. */
  datatype Start = NotStarting | Fresh(id: nat) | LowOut(id: nat) | Chosen(id: nat)

  /** backfillTable's variables. `cleared` says that startChunk has seen the stream up, which may be
      down again by the time it registers the chunk; `trail` is history: the chunks credited so far,
      in order. */
  datatype Lane = Lane(
    running: bool, cursor: Option<Key>, next: Option<Key>, exhausted: bool,
    window: seq<nat>, cleared: bool, starting: Start, copied: nat, trail: seq<nat>)

  /** TableState, with the chunks it accounts for as history. */
  datatype Saved = Saved(cursor: Option<Key>, done: bool, rows: nat, trail: seq<nat>)

  const PENDING := Saved(None, false, 0, [])

  datatype Pick = Pick(sel: nat, rows: seq<Row>)

  /** History of this table's chunks: where each one starts, where its watermarks stand in the
      log, and what was selected as of which position. */
  datatype Past = Past(
    origin: map<nat, Option<Key>>, lowAt: map<nat, nat>, picked: map<nat, Pick>, highAt: map<nat, nat>)

  /** What the stream hands over for the log entry at `pos`: the live event itself, or rows. */
  datatype Unit = Unit(pos: nat, rows: seq<Row>)

  /** `pos` is the next entry to stream, `reach` how far delivery is complete without a gap,
      `horizon` how far into the log anything delivered or assumed reaches. */
  datatype Stream = Stream(
    up: bool, closing: bool, broken: bool, pos: nat, queue: seq<Unit>, gap: bool,
    reach: nat, horizon: nat, sink: map<Key, Doc>)

  /** `queued` says that the table waits for a lane; `released` is history too: the chunks whose rows
      the stream took, in order. */
  datatype Sys = Sys(
    co: Coord, written: nat, st: Stream, lane: Lane, queued: bool, saved: Saved, cached: Saved, past: Past, released: seq<nat>)

  const IDLE_LANE := Lane(false, None, None, false, [], false, NotStarting, 0, [])

  /** A freshly created slot and an empty sink. */
  const INIT := Sys(Coord(map[], {}, false, 0, 0), 0, Stream(false, false, false, 0, [], false, 0, 0, map[]),
                    IDLE_LANE, false, PENDING, PENDING, Past(map[], map[], map[], map[]), [])

  datatype Step =
    | Write                                  // a change, a foreign message, another lane's watermark
    | OtherLanes(co: Coord)
    | Begin(load: bool) | SeeStream | Register | EmitLow | Select(sel: nat, rows: seq<Row>) | EmitHigh
    | HeadDone(saves: bool) | HeadRestart | LaneFail | MarkPending | Requeue
    | StreamStart(at: nat) | Handle | Deliver | DeliverFail(live: bool, keys: set<Key>)
    | Teardown | Drop | StreamStop | Crash

  // ---------------------------------------------------------------- the sink

  function SinkAt(sink: map<Key, Doc>, k: Key): Option<Doc> {
    if k in sink then Some(sink[k]) else None
  }

  function ApplyChange(sink: map<Key, Doc>, ch: Change): map<Key, Doc> {
    match ch
    case Put(key, doc) => sink[key := doc]
    case Patch(key, doc) => sink[key := Patched(SinkAt(sink, key), doc)]
    case Del(key) => sink - {key}
    case Truncate => map[]
    case Rekey(_, n, doc) => sink[n := doc]
    case DelUnkeyed(_) => sink
  }

  function ApplyRows(sink: map<Key, Doc>, rows: seq<Row>): map<Key, Doc>
    decreases |rows|
  {
    if rows == [] then sink else ApplyRows(sink[rows[0].key := rows[0].doc], rows[1..])
  }

  function Part(rows: seq<Row>, keys: set<Key>): seq<Row> {
    if rows == [] then []
    else (if rows[0].key in keys then [rows[0]] else []) + Part(rows[1..], keys)
  }

  predicate IsOurs(e: Env, x: nat) {
    x < |e.wal| && e.wal[x].Changed? && e.wal[x].table == e.table
  }

  function ApplyUnit(e: Env, sink: map<Key, Doc>, u: Unit): map<Key, Doc> {
    if IsOurs(e, u.pos) then ApplyChange(sink, e.wal[u.pos].change) else ApplyRows(sink, u.rows)
  }

  /** A failed handler call may have applied the change, or some of the rows. */
  function ApplyPart(e: Env, sink: map<Key, Doc>, u: Unit, live: bool, keys: set<Key>): map<Key, Doc> {
    if IsOurs(e, u.pos) then (if live then ApplyChange(sink, e.wal[u.pos].change) else sink)
    else ApplyRows(sink, Part(u.rows, keys))
  }

  // ---------------------------------------------------------------- steps

  function Starting(lane: Lane): set<nat> {
    if lane.starting.NotStarting? then {} else {lane.starting.id}
  }

  /** The chunks the lane still answers for. */
  function Owned(lane: Lane): set<nat> { (set id | id in lane.window) + Starting(lane) }

  predicate Waiting(lane: Lane) {
    lane.running && lane.starting.NotStarting? && lane.window != [] && (lane.exhausted || |lane.window| == PIPELINE_DEPTH)
  }

  /** What lanes of other tables may do to the coordinator between our steps. */
  ghost predicate Rely(e: Env, past: Past, c: Coord, c': Coord) {
    && c'.epoch == c.epoch && c'.streaming == c.streaming && c.nextId <= c'.nextId
    && c'.inflight <= c'.chunks.Keys
    && (forall id | id in c'.chunks :: id < c'.nextId)
    && (forall id | id in c'.chunks && id !in past.origin :: c'.chunks[id].table != e.table)
    && (forall id | id in past.origin :: id in c.chunks ==>
          id in c'.chunks && c'.chunks[id] == c.chunks[id] && (id in c'.inflight <==> id in c.inflight))
  }

  /** Resuming a table: keep the count from before only when there is a cursor to resume from. */
  function Resumed(v: Saved): Lane {
    Lane(true, v.cursor, v.cursor, false, [], false, NotStarting,
         if v.cursor.Some? then v.rows else 0, if v.cursor.Some? then v.trail else [])
  }

  function LaneAfterSelect(lane: Lane, id: nat, rows: seq<Row>): Lane {
    if rows == [] then
      lane.(starting := NotStarting, window := lane.window + [id], next := None, exhausted := true)
    else lane.(starting := Chosen(id))
  }

  function LaneAfterHigh(e: Env, lane: Lane, id: nat, rows: seq<Row>): Lane {
    lane.(starting := NotStarting, window := lane.window + [id], next := LastKey(rows), exhausted := Short(e, rows))
  }

  /** Progress after crediting the head chunk `ch`. */
  function Credited(e: Env, lane: Lane, ch: Chunk): Saved
    requires lane.window != []
  {
    var trail := lane.trail + [lane.window[0]];
    if ch.rowCount < e.size then Saved(None, true, lane.copied + ch.delivered, trail)
    else Saved(ch.last, false, lane.copied + ch.delivered, trail)
  }

  function LaneAfterCredit(e: Env, lane: Lane, ch: Chunk): Lane
    requires lane.window != []
  {
    if ch.rowCount < e.size then IDLE_LANE
    else lane.(window := lane.window[1..], cursor := ch.last, copied := lane.copied + ch.delivered,
               trail := lane.trail + [lane.window[0]])
  }

  /** The rows for our sink that the stream takes from the coordinator at a log entry. */
  function RowsAt(past: Past, c: Coord, entry: Entry): seq<Row> {
    if entry.Mark? && entry.id in past.origin then ReleasedAt(c, entry.id, entry.high) else []
  }

  function Streamed(c: Coord, entry: Entry): Coord {
    match entry
    case Changed(t, ch) => Observed(c, t, ObservedKey(ch))
    case Mark(id, high) => Marked(c, id, high)
    case Foreign => c
  }

  function Acknowledged(c: Coord, entry: Entry): Coord {
    if entry.Mark? then Reported(c, entry.id, entry.high) else c
  }

  function Pushed(st: Stream, rows: seq<Row>): Stream {
    st.(pos := st.pos + 1, queue := st.queue + [Unit(st.pos, rows)])
  }

  function StreamDelivered(e: Env, st: Stream): Stream
    requires st.queue != []
  {
    var u := st.queue[0];
    st.(queue := st.queue[1..], sink := ApplyUnit(e, st.sink, u),
        reach := if st.gap then st.reach else u.pos + 1, horizon := Max(st.horizon, u.pos + 1))
  }

  function StreamFailed(e: Env, st: Stream, live: bool, keys: set<Key>): Stream
    requires st.queue != []
  {
    var u := st.queue[0];
    st.(queue := st.queue[1..], sink := ApplyPart(e, st.sink, u, live, keys), horizon := Max(st.horizon, u.pos + 1),
        closing := true, broken := true, gap := true)
  }

  // the lane: one action each of backfillTable and startChunk

  function Loaded(s: Sys, load: bool): Saved { if load then s.saved else s.cached }

  /** A lane takes the table. A persisted row that says done ends it at once; a failed load is not
      checked. */
  function DoBegin(s: Sys, load: bool): Sys {
    if load && s.saved.done then s.(queued := false, cached := s.saved)
    else s.(queued := false, lane := Resumed(Loaded(s, load)), cached := Loaded(s, load))
  }

  function DoSee(s: Sys): Sys { s.(lane := s.lane.(cleared := true)) }

  function DoRegister(e: Env, s: Sys): Sys {
    s.(co := Registered(s.co, e.table), lane := s.lane.(cleared := false, starting := Fresh(s.co.nextId)),
       past := s.past.(origin := s.past.origin[s.co.nextId := s.lane.next]))
  }

  function DoEmitLow(s: Sys): Sys
    requires s.lane.starting.Fresh?
  {
    var id := s.lane.starting.id;
    s.(written := s.written + 1, lane := s.lane.(starting := LowOut(id)),
       past := s.past.(lowAt := s.past.lowAt[id := s.written]))
  }

  function DoSelect(s: Sys, sel: nat, rows: seq<Row>): Sys
    requires s.lane.starting.LowOut? && s.lane.starting.id in s.co.chunks
  {
    var id := s.lane.starting.id;
    s.(co := Selected(s.co, id, rows), lane := LaneAfterSelect(s.lane, id, rows),
       past := s.past.(picked := s.past.picked[id := Pick(sel, rows)]),
       st := s.st.(horizon := if rows == [] then Max(s.st.horizon, sel) else s.st.horizon))
  }

  function DoEmitHigh(e: Env, s: Sys): Sys
    requires s.lane.starting.Chosen? && s.lane.starting.id in s.past.picked
  {
    var id := s.lane.starting.id;
    s.(written := s.written + 1, lane := LaneAfterHigh(e, s.lane, id, s.past.picked[id].rows),
       past := s.past.(highAt := s.past.highAt[id := s.written]))
  }

  function DoCredit(e: Env, s: Sys, saves: bool): Sys
    requires CanCredit(s)
  {
    var ch := s.co.chunks[s.lane.window[0]];
    var v := Credited(e, s.lane, ch);
    s.(lane := LaneAfterCredit(e, s.lane, ch), cached := v, saved := if saves then v else s.saved,
       co := Abandoned(s.co, if ch.rowCount < e.size then set id | id in s.lane.window[1..] else {}))
  }

  function DoRetry(s: Sys): Sys {
    s.(co := Abandoned(s.co, set id | id in s.lane.window),
       lane := s.lane.(window := [], next := s.lane.cursor, exhausted := false))
  }

  function DoFail(s: Sys): Sys { s.(co := Abandoned(s.co, Owned(s.lane)), lane := IDLE_LANE) }

  /** A request marks the table pending in the database before it takes the lock to queue it, so
      another run of the table may be going on. */
  function DoMark(s: Sys): Sys { s.(saved := PENDING) }

  function DoRequeue(s: Sys): Sys { s.(queued := true, cached := PENDING) }

  // the stream session and the delivery goroutine

  function DoStart(s: Sys, at: nat): Sys {
    s.(co := Started(s.co), st := s.st.(up := true, closing := false, broken := false, pos := at, queue := [],
                                        gap := false, reach := at))
  }

  function DoHandle(e: Env, s: Sys): Sys
    requires CanHandle(e, s)
  {
    var entry := e.wal[s.st.pos];
    var rows := RowsAt(s.past, s.co, entry);
    s.(co := Streamed(s.co, entry), st := Pushed(s.st, rows),
       released := s.released + if rows == [] then [] else [entry.id])
  }

  function DoDeliver(e: Env, s: Sys): Sys
    requires CanDeliver(e, s)
  {
    s.(st := StreamDelivered(e, s.st), co := Acknowledged(s.co, e.wal[s.st.queue[0].pos]))
  }

  function DoDeliverFail(e: Env, s: Sys, live: bool, keys: set<Key>): Sys
    requires CanDeliver(e, s)
  {
    s.(st := StreamFailed(e, s.st, live, keys))
  }

  function DoDrop(s: Sys): Sys
    requires s.st.queue != []
  {
    s.(st := s.st.(queue := s.st.queue[1..], gap := true))
  }

  function DoStop(s: Sys): Sys { s.(co := Stopped(s.co), st := s.st.(up := false, queue := [])) }

  /** The process dies; a new one loads the persisted state and queues the table unless that is done. */
  function DoCrash(s: Sys): Sys {
    s.(co := s.co.(inflight := {}, epoch := s.co.epoch + 1, streaming := false), lane := IDLE_LANE, cached := s.saved,
       queued := !s.saved.done,
       st := s.st.(up := false, queue := []))
  }

  /** Anyone may write: a change, a foreign message, or another lane's watermark. */
  predicate CanWrite(e: Env, s: Sys) {
    s.written < |e.wal| &&
    (e.wal[s.written].Mark? ==> e.wal[s.written].id < s.co.nextId && e.wal[s.written].id !in s.past.origin)
  }

  predicate CanBegin(s: Sys) { !s.lane.running && s.queued }

  /** startChunk begins by waiting until the stream is up ... */
  predicate CanSee(s: Sys) {
    && s.lane.running && s.lane.starting.NotStarting? && !s.lane.exhausted && |s.lane.window| < PIPELINE_DEPTH
    && s.co.streaming
  }

  /** ... and registers the chunk under a lock it takes after that. */
  predicate CanRegister(s: Sys) {
    && s.lane.running && s.lane.starting.NotStarting? && !s.lane.exhausted && |s.lane.window| < PIPELINE_DEPTH
    && s.lane.cleared
  }

  predicate CanEmitLow(e: Env, s: Sys) {
    s.lane.starting.Fresh? && s.written < |e.wal| && e.wal[s.written] == Mark(s.lane.starting.id, false)
  }

  /** The select sees a prefix of commit order that ends between the two watermarks. */
  ghost predicate CanSelect(e: Env, s: Sys, sel: nat, rows: seq<Row>) {
    && s.lane.starting.LowOut? && s.lane.starting.id in s.past.lowAt && s.lane.starting.id in s.co.chunks
    && s.past.lowAt[s.lane.starting.id] < sel <= s.written <= |e.wal| && Page(e, s.lane.next, sel, rows)
  }

  predicate CanEmitHigh(e: Env, s: Sys) {
    && s.lane.starting.Chosen? && s.lane.starting.id in s.past.picked
    && s.written < |e.wal| && e.wal[s.written] == Mark(s.lane.starting.id, true)
  }

  predicate CanCredit(s: Sys) {
    Waiting(s.lane) && s.lane.window[0] in s.co.chunks && s.co.chunks[s.lane.window[0]].done
  }

  predicate CanRetry(s: Sys) {
    Waiting(s.lane) && s.lane.window[0] in s.co.chunks && s.co.chunks[s.lane.window[0]].restart < s.co.epoch
  }

  predicate CanHandle(e: Env, s: Sys) { s.st.up && !s.st.closing && s.st.pos < s.written <= |e.wal| }

  predicate CanDeliver(e: Env, s: Sys) {
    s.st.up && !s.st.broken && s.st.queue != [] && s.st.queue[0].pos < |e.wal|
  }

  ghost predicate Enabled(e: Env, s: Sys, step: Step) {
    match step
    case Write => CanWrite(e, s)
    case OtherLanes(c) => Rely(e, s.past, s.co, c)
    case Begin(_) => CanBegin(s)
    case SeeStream => CanSee(s)
    case Register => CanRegister(s)
    case EmitLow => CanEmitLow(e, s)
    case Select(sel, rows) => CanSelect(e, s, sel, rows)
    case EmitHigh => CanEmitHigh(e, s)
    case HeadDone(_) => CanCredit(s)
    case HeadRestart => CanRetry(s)
    case LaneFail => s.lane.running
    case MarkPending => true
    case Requeue => !s.lane.running && !s.queued
    case StreamStart(at) => !s.st.up && at <= s.st.reach
    case Handle => CanHandle(e, s)
    case Deliver => CanDeliver(e, s)
    case DeliverFail(_, _) => CanDeliver(e, s)
    case Teardown => s.st.up
    case Drop => s.st.up && s.st.closing && s.st.queue != []
    case StreamStop => s.st.up && s.st.closing
    case Crash => true
  }

  function Next(e: Env, s: Sys, step: Step): Sys
    requires Enabled(e, s, step)
  {
    match step
    case Write => s.(written := s.written + 1)
    case OtherLanes(c) => s.(co := c)
    case Begin(load) => DoBegin(s, load)
    case SeeStream => DoSee(s)
    case Register => DoRegister(e, s)
    case EmitLow => DoEmitLow(s)
    case Select(sel, rows) => DoSelect(s, sel, rows)
    case EmitHigh => DoEmitHigh(e, s)
    case HeadDone(saves) => DoCredit(e, s, saves)
    case HeadRestart => DoRetry(s)
    case LaneFail => DoFail(s)
    case MarkPending => DoMark(s)
    case Requeue => DoRequeue(s)
    case StreamStart(at) => DoStart(s, at)
    case Handle => DoHandle(e, s)
    case Deliver => DoDeliver(e, s)
    case DeliverFail(live, keys) => DoDeliverFail(e, s, live, keys)
    case Teardown => s.(st := s.st.(closing := true))
    case Drop => DoDrop(s)
    case StreamStop => DoStop(s)
    case Crash => DoCrash(s)
  }

  // ---------------------------------------------------------------- runs

  ghost function Exec(e: Env, trace: seq<Step>): Option<Sys> {
    if trace == [] then Some(INIT)
    else
      var before, step := Exec(e, trace[..|trace| - 1]), trace[|trace| - 1];
      if before.Some? && Enabled(e, before.value, step) then Some(Next(e, before.value, step)) else None
  }

  ghost predicate Reachable(e: Env, s: Sys) { exists trace :: Exec(e, trace) == Some(s) }

  lemma OneMore(e: Env, s: Sys, step: Step) returns (s': Sys)
    requires Reachable(e, s) && Enabled(e, s, step)
    ensures s' == Next(e, s, step) && Reachable(e, s')
  {
    hide Enabled, Next;
    var trace :| Exec(e, trace) == Some(s);
    s' := Next(e, s, step);
    assert (trace + [step])[..|trace|] == trace;
    assert Exec(e, trace + [step]) == Some(s');
  }

  /** The run goes on from `s`. */
  ghost function ExecFrom(e: Env, s: Sys, steps: seq<Step>): Option<Sys> {
    if steps == [] then Some(s)
    else
      var before, step := ExecFrom(e, s, steps[..|steps| - 1]), steps[|steps| - 1];
      if before.Some? && Enabled(e, before.value, step) then Some(Next(e, before.value, step)) else None
  }

  // ---------------------------------------------------------------- how runs begin

  /** The first session is up and a lane has seen so. */
  const READY := INIT.(co := INIT.co.(streaming := true), st := INIT.st.(up := true), lane := IDLE_LANE.(running := true, cleared := true))

  lemma GetsReady(e: Env)
    ensures Reachable(e, READY)
  {
    assert Exec(e, []) == Some(INIT);
    hide Reachable, Exec;
    var s := OneMore(e, INIT, StreamStart(0));
    s := OneMore(e, s, Requeue);
    s := OneMore(e, s, Begin(true));
    s := OneMore(e, s, SeeStream);
  }

  const FIRST_CHUNK := Registered(READY.co, "t").chunks[0]

  /** The first chunk's low watermark is out, at `low`. */
  function Lowered(low: nat): Sys {
    READY.(co := Coord(map[0 := FIRST_CHUNK], {0}, true, 0, 1), written := low + 1,
           lane := IDLE_LANE.(running := true, starting := LowOut(0)), past := Past(map[0 := None], map[0 := low], map[], map[]))
  }

  lemma FirstLow(e: Env, low: nat)
    requires e.table == "t" && low < |e.wal| && e.wal[low] == Mark(0, false) && Reachable(e, READY.(written := low))
    ensures Reachable(e, Lowered(low))
  {
    hide Reachable, Exec;
    var s := OneMore(e, READY.(written := low), Register);
    assert s.co == Lowered(low).co;
    s := OneMore(e, s, EmitLow);
    assert s == Lowered(low);
  }
}
