/**
  The WAL reader's stream loop and its delivery goroutine, as two interleaved processes.

  Positions count row changes and watermark messages in the order the server sends them: position
  `n` covers exactly the first `n` of them the server will ever send for the slot. A row change is
  identified by its position, a backfilled row by the watermark it was released at and its index
  there.
*/
module Reader {
  import opened Prelude

  // ---------------------------------------------------------------- state

  /** What the handler side sees, in order: live row changes, backfilled rows, and the call that
      reports a watermark delivered (which remembers how many rows were released at it). Changes and
      watermarks stand at a position of their own. */
  datatype Item =
    | Live(pos: nat)
    | Row(chunk: nat, index: nat)
    | Mark(chunk: nat, rows: nat, pos: nat)

  const QUEUE_DEPTH := 2

  /** `maxBatch` caps a unit, `chunkRows` the rows the backfill releases at one watermark. */
  datatype Config = Config(maxBatch: nat, chunkRows: nat)

  /** One ordered unit of work for the delivery goroutine, as a slice of the decoded order: the
      events `from..to`, an ack to confirm (0: none), and whether the watermark item standing at
      `to` is to be reported. */
  datatype Delivery = Delivery(from: nat, to: nat, ack: nat, mark: bool)

  /** Decoded server messages. A keepalive's or commit's `end` is the position it may confirm. */
  datatype Message =
    | Begin
    | Changes(count: nat)
    | Commit(end: nat)
    | Keepalive(end: nat)
    | Watermark
    | Other

  /** What the reader goroutine still has to do for the message it decoded. */
  datatype Todo =
    | Nothing
    | Appending         // the remaining row events join the open batch one by one
    | Flushing          // close the open batch before a watermark
    | Releasing         // HandleWatermark: rows to deliver at this position
    | Sending           // hand the released rows over piece by piece
    | Noting(lsn: nat)  // raise the pending ack

  /** Where the delivery goroutine is. */
  datatype Worker =
    | Idle
    | Delivering(d: Delivery)  // handler running
    | Handled(d: Delivery)     // handler returned nil
    | Reported(d: Delivery)    // watermark reported
    | Confirmed(d: Delivery)   // position confirmed, counter not yet lowered
    | Failed(d: Delivery)      // handler returned an error; the goroutine has exited

  /** `out` is the decoded order: the row events, with each watermark's rows and then its report
      inserted where the watermark stands. The open batch is the slice of length `open` at `next`.
      `upto`, `handled` and `noted` are history: `upto[i]` is the position reached before item `i`,
      `handled` lists what the delivery goroutine completed, and `noted` is the highest position the
      decoder offered to confirm. */
  datatype Session = Session(
    start: nat,                   // slot position streaming began at
    received: nat,                // changes and watermarks received up to here
    serverInTxn: bool,
    todo: Todo,
    out: seq<Item>,
    next: nat,                    // start of the open batch: everything before was handed over
    open: nat,                    // length of the open batch
    pendingAck: nat,
    blocked: Option<Delivery>,    // the unit enqueue is waiting to hand over
    closing: bool,                // the loop has left; the deferred drain is running
    queue: seq<Delivery>,
    outstanding: nat,
    client: nat,                  // clientLSN
    worker: Worker,
    marks: nat,                   // watermarks handled in this session
    upto: seq<nat>,
    handled: seq<Item>,
    noted: nat)

  /** `told` is the highest position ever sent to the server, `slot` the highest one sent since the
      last session began, or where it began; `last` is how far that session had delivered without a
      gap when its loop left, and `delivered` the changes the handler accepted and
      the watermarks reported in any session. The decoder's transaction flag outlives sessions. */
  datatype State = State(told: nat, slot: nat, last: nat, delivered: set<nat>, inTxn: bool, session: Option<Session>)

  const INIT := State(0, 0, 0, {}, false, None)

  datatype Step =
    | Connect(start: nat)
    | Receive(msg: Message)
    | Perform(rows: nat)   // the next thing to do; `rows` is what HandleWatermark releases
    | Linger
    | Push
    | ConfirmIdle
    | Tell
    | Take | Succeed | Fail | Report | Confirm | Finish
    | Teardown | Drain | Disconnect

  // ---------------------------------------------------------------- steps

  /** The decoder's acknowledgement: a commit's end, or a keepalive's end outside a transaction. */
  function AckOf(inTxn: bool, msg: Message): nat {
    match msg
    case Commit(end) => end
    case Keepalive(end) => if inTxn then 0 else end
    case _ => 0
  }

  function InTxnAfter(inTxn: bool, msg: Message): bool {
    match msg
    case Begin => true
    case Commit(_) => false
    case _ => inTxn
  }

  /** What the server promises: a position it offers covers only changes it already sent, except
      in keepalives inside a transaction. */
  predicate ServerMaySend(s: Session, msg: Message) {
    match msg
    case Begin => !s.serverInTxn
    case Changes(n) => s.serverInTxn && n >= 1
    case Commit(end) => s.serverInTxn && end <= s.received
    case Keepalive(end) => s.serverInTxn || end <= s.received
    case _ => true
  }

  function LiveItems(from: nat, count: nat): (r: seq<Item>)
    ensures |r| == count && forall i :: 0 <= i < count ==> r[i] == Live(from + i)
  {
    seq(count, i requires 0 <= i < count => Live(from + i))
  }

  function Counting(from: nat, count: nat): (r: seq<nat>)
    ensures |r| == count && forall i :: 0 <= i < count ==> r[i] == from + i
  {
    seq(count, i requires 0 <= i < count => from + i)
  }

  /** The rows released at a watermark and the report that follows them. */
  function Released(chunk: nat, rows: nat, pos: nat): (r: seq<Item>)
    ensures |r| == rows + 1 && r[rows] == Mark(chunk, rows, pos)
    ensures forall i :: 0 <= i < rows ==> r[i] == Row(chunk, i)
  {
    seq(rows, i requires 0 <= i < rows => Row(chunk, i)) + [Mark(chunk, rows, pos)]
  }

  function ReceiveMessage(s: Session, msg: Message, ack: nat): Session {
    match msg
    case Begin => s.(serverInTxn := true)
    case Changes(n) =>
      s.(received := s.received + n, todo := Appending,
         out := s.out + LiveItems(s.received, n), upto := s.upto + Counting(s.received + 1, n))
    case Commit(_) => s.(serverInTxn := false, todo := Noting(ack))
    case Keepalive(_) => s.(todo := Noting(ack))
    case Watermark => s.(todo := Flushing)
    case Other => s
  }

  /** enqueue's first half: count the unit, then wait for room in the queue. */
  function Enqueue(s: Session, d: Delivery): Session {
    s.(blocked := Some(d), outstanding := s.outstanding + 1)
  }

  function FlushBatch(s: Session): Session {
    if s.open == 0 then s
    else Enqueue(s.(next := s.next + s.open, open := 0, pendingAck := 0),
                 Delivery(s.next, s.next + s.open, s.pendingAck, false))
  }

  /** The next piece of the released rows, which end with the watermark at the end of `out`. */
  function SendPiece(cfg: Config, s: Session): Session
    requires s.next < |s.out|
  {
    var end := |s.out| - 1;
    var last := end <= s.next + cfg.maxBatch;
    var to := if last then end else s.next + cfg.maxBatch;
    Enqueue(s.(next := if last then end + 1 else to, todo := if last then Nothing else Sending),
            Delivery(s.next, to, 0, last))
  }

  function PerformTodo(cfg: Config, s: Session, rows: nat): Session {
    match s.todo
    case Nothing => s
    case Appending =>
      var s' := s.(open := s.open + 1, todo := if s.next + s.open + 1 < |s.out| then Appending else Nothing);
      if s'.open >= cfg.maxBatch then FlushBatch(s') else s'
    case Flushing => FlushBatch(s.(todo := Releasing))
    case Releasing =>
      s.(marks := s.marks + 1, received := s.received + 1, todo := Sending,
         out := s.out + Released(s.marks, rows, s.received), upto := s.upto + (seq(rows, _ => s.received) + [s.received + 1]))
    case Sending => if s.next < |s.out| then SendPiece(cfg, s) else s
    case Noting(lsn) =>
      s.(todo := Nothing, pendingAck := if lsn > 0 && lsn > s.pendingAck then lsn else s.pendingAck,
         noted := Raised(s.noted, lsn))
  }

  /** The confirm closure: positions only move forward. */
  function Raised(client: nat, lsn: nat): nat {
    if lsn > client then lsn else client
  }

  function Slice(out: seq<Item>, from: nat, to: nat): seq<Item> {
    if from <= to <= |out| then out[from..to] else []
  }

  function Events(s: Session, d: Delivery): seq<Item> { Slice(s.out, d.from, d.to) }

  function MarkItems(s: Session, d: Delivery): seq<Item> {
    if d.mark then Slice(s.out, d.to, d.to + 1) else []
  }

  function Places(items: seq<Item>): set<nat> {
    set x | x in items && !x.Row? :: x.pos
  }

  predicate LoopFree(s: Session) { !s.closing && s.blocked.None? && s.todo.Nothing? }

  predicate Enabled(cfg: Config, st: State, step: Step) {
    if step.Connect? then st.session.None? && step.start <= st.told
    else st.session.Some? && EnabledIn(cfg, st.session.value, step)
  }

  predicate EnabledIn(cfg: Config, s: Session, step: Step) {
    match step
    // the reader goroutine
    case Receive(msg) => LoopFree(s) && ServerMaySend(s, msg)
    case Perform(rows) => !s.closing && s.blocked.None? && !s.todo.Nothing? && rows <= cfg.chunkRows
    case Linger => LoopFree(s) && s.open > 0
    case Push => !s.closing && s.blocked.Some? && |s.queue| < QUEUE_DEPTH
    case ConfirmIdle => LoopFree(s) && s.pendingAck > 0 && s.open == 0 && s.outstanding == 0
    case Tell => !s.closing
    // the delivery goroutine
    case Take => s.worker.Idle? && s.queue != []
    case Succeed => s.worker.Delivering?
    case Fail => s.worker.Delivering? && s.worker.d.from < s.worker.d.to
    case Report => s.worker.Handled?
    case Confirm => s.worker.Reported?
    case Finish => s.worker.Confirmed?
    // leaving the loop
    case Teardown => !s.closing
    case Drain => s.closing && s.queue != []
    case Disconnect => s.closing && s.queue == [] && (s.worker.Idle? || s.worker.Failed?)
    case _ => false
  }

  function SessionStep(cfg: Config, s: Session, step: Step): Session
    requires EnabledIn(cfg, s, step)
  {
    match step
    case Perform(rows) => PerformTodo(cfg, s, rows)
    case Linger => FlushBatch(s)
    case Push => s.(queue := s.queue + [s.blocked.value], blocked := None)
    case ConfirmIdle => s.(client := Raised(s.client, s.pendingAck), pendingAck := 0)
    case Take => s.(worker := Delivering(s.queue[0]), queue := s.queue[1..])
    case Succeed => s.(worker := Handled(s.worker.d), handled := s.handled + Events(s, s.worker.d))
    case Fail => s.(worker := Failed(s.worker.d))
    case Report => s.(worker := Reported(s.worker.d), handled := s.handled + MarkItems(s, s.worker.d))
    case Confirm => s.(client := if s.worker.d.ack > 0 then Raised(s.client, s.worker.d.ack) else s.client,
                       worker := Confirmed(s.worker.d))
    case Finish => s.(worker := Idle, outstanding := if s.outstanding > 0 then s.outstanding - 1 else 0)
    case Teardown => s.(closing := true, blocked := None, todo := Nothing, open := 0, pendingAck := 0)
    case Drain => s.(queue := s.queue[1..])
    case _ => s
  }

  /** The position up to which the session has delivered everything. */
  function Reached(s: Session): nat { if |s.handled| < |s.upto| then s.upto[|s.handled|] else s.start }

  /** One step of the whole system. */
  function Apply(cfg: Config, st: State, step: Step): State
    requires Enabled(cfg, st, step)
  {
    match step
    case Connect(start) =>
      st.(slot := start, session := Some(Session(start, start, false, Nothing, [], 0, 0, 0, None, false, [], 0, start, Idle, 0,
                                  [start], [], 0)))
    case Disconnect => st.(session := None)
    case Receive(msg) =>
      st.(inTxn := InTxnAfter(st.inTxn, msg),
          session := Some(ReceiveMessage(st.session.value, msg, AckOf(st.inTxn, msg))))
    case Tell => st.(told := Raised(st.told, st.session.value.client), slot := Raised(st.slot, st.session.value.client))
    case Teardown => st.(last := Reached(st.session.value), session := Some(SessionStep(cfg, st.session.value, step)))
    case Succeed =>
      st.(delivered := st.delivered + Places(Events(st.session.value, st.session.value.worker.d)),
          session := Some(SessionStep(cfg, st.session.value, step)))
    case Report =>
      st.(delivered := st.delivered + Places(MarkItems(st.session.value, st.session.value.worker.d)),
          session := Some(SessionStep(cfg, st.session.value, step)))
    case _ => st.(session := Some(SessionStep(cfg, st.session.value, step)))
  }

  /** Runs from a fresh slot; None when some step was not possible. */
  function Exec(cfg: Config, trace: seq<Step>): Option<State> {
    if trace == [] then Some(INIT)
    else
      var before := Exec(cfg, trace[..|trace| - 1]);
      var step := trace[|trace| - 1];
      if before.Some? && Enabled(cfg, before.value, step) then Some(Apply(cfg, before.value, step)) else None
  }

  ghost predicate Reachable(cfg: Config, st: State) {
    exists trace :: Exec(cfg, trace) == Some(st)
  }

  lemma ReachStep(cfg: Config, st: State, step: Step)
    requires Reachable(cfg, st) && Enabled(cfg, st, step)
    ensures Reachable(cfg, Apply(cfg, st, step))
  {
    var trace :| Exec(cfg, trace) == Some(st);
    assert (trace + [step])[..|trace|] == trace;
    assert Exec(cfg, trace + [step]) == Some(Apply(cfg, st, step));
  }

  // ---------------------------------------------------------------- invariant

  /** The units whose events the handler has not accepted yet, in delivery order: the one it is
      working on (or failed on), the queue, and the one being enqueued. */
  function Line(s: Session): seq<Delivery> {
    (if s.worker.Delivering? || s.worker.Failed? then [s.worker.d] else [])
    + s.queue
    + (if s.blocked.Some? then [s.blocked.value] else [])
  }

  function End(d: Delivery): nat { if d.mark then d.to + 1 else d.to }

  /** Where the line begins: after what is completed and the report still owed. */
  function LineStart(s: Session): nat {
    |s.handled| + if s.worker.Handled? && s.worker.d.mark then 1 else 0
  }

  /** The units stand back to back in the decoded order, from `from` to `to`. */
  ghost predicate Chain(from: nat, ds: seq<Delivery>, to: nat) {
    && (if ds == [] then from == to else ds[0].from == from && End(ds[|ds| - 1]) == to)
    && (forall i, j {:trigger ds[i], ds[j]} :: 0 <= i < |ds| && 0 <= j < |ds| && j == i + 1 ==> ds[j].from == End(ds[i]))
  }

  /** A change or a watermark stands at the position reached so far and moves it on by one. */
  predicate Advances(item: Item, before: nat, after: nat) {
    if item.Row? then after == before else item.pos == before && after == before + 1
  }

  /** Item `i` of the decoded order is reached at position `upto[i]`; changes and watermarks come one by one. */
  predicate Positions(out: seq<Item>, upto: seq<nat>, start: nat, received: nat) {
    && |upto| == |out| + 1 && upto[0] == start && upto[|out|] == received
    && (forall i {:trigger out[i]} :: 0 <= i < |out| ==> Advances(out[i], upto[i], upto[i + 1]))
  }

  /** A watermark item follows exactly the rows released at it. */
  ghost predicate Grouped(out: seq<Item>) {
    forall i: nat {:trigger RowsPrecede(out, i)} :: i < |out| ==> RowsPrecede(out, i)
  }

  ghost predicate RowsPrecede(out: seq<Item>, i: nat)
    requires i < |out|
  {
    out[i].Mark? ==> out[i].rows <= i && forall k: nat :: k < out[i].rows ==> out[i - out[i].rows + k] == Row(out[i].chunk, k)
  }

  /** Position `lsn` covers no change and no watermark beyond the first `i` items. */
  predicate Covered(upto: seq<nat>, lsn: nat, i: nat) {
    i < |upto| && lsn <= upto[i]
  }

  predicate UnitOk(limit: nat, out: seq<Item>, upto: seq<nat>, d: Delivery) {
    && d.from <= d.to && End(d) <= |out|
    && d.to - d.from <= limit
    && Covered(upto, d.ack, End(d))
    && (d.mark ==> out[d.to].Mark?)
  }

  ghost predicate UnitsOk(limit: nat, out: seq<Item>, upto: seq<nat>, ds: seq<Delivery>) {
    forall i :: 0 <= i < |ds| ==> UnitOk(limit, out, upto, ds[i])
  }

  /** What the reader goroutine has still to hand over. */
  predicate RestOk(cfg: Config, s: Session) {
    && s.next + s.open <= |s.out|
    && s.open < cfg.maxBatch
    && match s.todo
       case Appending => s.next + s.open < |s.out|
       case Releasing => s.next == |s.out| && s.open == 0
       case Sending => s.next < |s.out| && s.open == 0 && s.out[|s.out| - 1].Mark?
       case _ => s.next + s.open == |s.out|
  }

  predicate AcksSafe(s: Session) {
    && Covered(s.upto, s.client, |s.handled|)
    && ((s.worker.Handled? || s.worker.Reported?) ==> Covered(s.upto, s.worker.d.ack, LineStart(s)))
    && Covered(s.upto, s.pendingAck, s.next + s.open)
    && (s.todo.Noting? ==> s.todo.lsn <= s.received)
  }

  /** outstanding counts the units queued, in progress or failed, or being enqueued. */
  predicate Counted(s: Session) {
    s.outstanding == |s.queue| + (if s.worker.Idle? then 0 else 1) + (if s.blocked.Some? then 1 else 0)
  }

  /** Before teardown: nothing is lost, repeated or reordered between decoding and the handler.
      What is handled is a prefix of the decoded order, and the line of units follows it. */
  ghost predicate Ordered(limit: nat, out: seq<Item>, upto: seq<nat>, start: nat, received: nat,
                          handled: seq<Item>, from: nat, line: seq<Delivery>, next: nat)
  {
    && Positions(out, upto, start, received)
    && |handled| <= from <= |out| && handled == out[..|handled|]
    && Chain(from, line, next)
    && UnitsOk(limit, out, upto, line)
  }

  ghost predicate InOrder(cfg: Config, s: Session) {
    Ordered(cfg.maxBatch, s.out, s.upto, s.start, s.received, s.handled, LineStart(s), Line(s), s.next)
  }

  ghost predicate Open(cfg: Config, s: Session) {
    && InOrder(cfg, s)
    && Grouped(s.out)
    && (s.worker.Handled? && s.worker.d.mark ==>
          s.worker.d.to == |s.handled| < |s.out| && s.out[|s.handled|].Mark?)
    && RestOk(cfg, s)
    && AcksSafe(s)
    && Counted(s)
  }

  ghost predicate Inv(cfg: Config, st: State) {
    && (forall p: nat | p < st.told :: p in st.delivered)
    && (st.session.Some? ==>
          var s := st.session.value;
          && s.start <= st.told
          && (s.serverInTxn ==> st.inTxn)
          && |s.queue| <= QUEUE_DEPTH
          && (!s.closing ==> Open(cfg, s) && forall x | x in s.handled && !x.Row? :: x.pos in st.delivered))
  }

  // ---------------------------------------------------------------- preservation, step by step

  lemma {:induction false} UptoMonotone(out: seq<Item>, upto: seq<nat>, start: nat, received: nat, i: nat, j: nat)
    requires Positions(out, upto, start, received) && i <= j < |upto|
    ensures upto[i] <= upto[j]
  {
    if i == j {
    } else {
      UptoMonotone(out, upto, start, received, i, j - 1);
      assert Advances(out[j - 1], upto[j - 1], upto[j]);
    }
  }

  /** Decoding more changes nothing about the units already cut. */
  lemma Decoded(limit: nat, out: seq<Item>, upto: seq<nat>, start: nat, received: nat, handled: seq<Item>,
                from: nat, line: seq<Delivery>, next: nat, more: seq<Item>, steps: seq<nat>, received': nat)
    requires Ordered(limit, out, upto, start, received, handled, from, line, next)
    requires Positions(more, [received] + steps, received, received')
    ensures Ordered(limit, out + more, upto + steps, start, received', handled, from, line, next)
    ensures forall lsn: nat, i: nat :: Covered(upto, lsn, i) ==> Covered(upto + steps, lsn, i)
  {
    hide Chain;
    assert Positions(out + more, upto + steps, start, received') by {
      hide UnitsOk;
      forall i | 0 <= i < |out + more| ensures Advances((out + more)[i], (upto + steps)[i], (upto + steps)[i + 1]) {
        if i < |out| {
          assert Advances(out[i], upto[i], upto[i + 1]);
        } else {
          var j := i - |out|;
          assert Advances(more[j], ([received] + steps)[j], ([received] + steps)[j + 1]);
        }
      }
    }
    assert (out + more)[..|handled|] == out[..|handled|];
  }

  /** A new unit that starts where the line ends joins it. */
  lemma UnitJoins(limit: nat, out: seq<Item>, upto: seq<nat>, start: nat, received: nat, handled: seq<Item>,
                  from: nat, line: seq<Delivery>, next: nat, d: Delivery)
    requires Ordered(limit, out, upto, start, received, handled, from, line, next)
    requires UnitOk(limit, out, upto, d) && d.from == next
    ensures Ordered(limit, out, upto, start, received, handled, from, line + [d], End(d))
  {}

  lemma LineGrows(s: Session, s': Session, d: Delivery)
    requires s.blocked.None? && s'.blocked == Some(d) && s'.worker == s.worker && s'.queue == s.queue
    ensures Line(s') == Line(s) + [d]
  {}

  lemma LineSame(s: Session, s': Session)
    requires s'.blocked == s.blocked && s'.worker == s.worker && s'.queue == s.queue
    ensures Line(s') == Line(s)
  {}

  lemma ChangesKeep(cfg: Config, s: Session, n: nat)
    requires Open(cfg, s) && LoopFree(s) && n >= 1
    ensures Open(cfg, ReceiveMessage(s, Changes(n), 0))
  {
    hide Line, Ordered;
    var s' := ReceiveMessage(s, Changes(n), 0);
    var more, steps := LiveItems(s.received, n), Counting(s.received + 1, n);
    LineSame(s, s');
    Decoded(cfg.maxBatch, s.out, s.upto, s.start, s.received, s.handled, LineStart(s), Line(s), s.next,
            more, steps, s.received + n);
    assert Grouped(more);
    GroupedGrow(s.out, more);
  }

  lemma ReceiveKeeps(cfg: Config, s: Session, msg: Message, inTxn: bool)
    requires Open(cfg, s) && LoopFree(s) && ServerMaySend(s, msg) && (s.serverInTxn ==> inTxn)
    ensures var s' := ReceiveMessage(s, msg, AckOf(inTxn, msg));
            Open(cfg, s') && (s'.serverInTxn ==> InTxnAfter(inTxn, msg))
  {
    hide Line, Ordered, Grouped;
    var s' := ReceiveMessage(s, msg, AckOf(inTxn, msg));
    if msg.Changes? { ChangesKeep(cfg, s, msg.count); } else { LineSame(s, s'); }
  }

  /** Closing the open batch moves it, and the ack that may ride on it, into one unit. */
  lemma FlushKeeps(cfg: Config, s: Session, todo: Todo)
    requires Open(cfg, s) && s.open > 0 && s.blocked.None?
    requires todo == s.todo || (s.todo.Flushing? && todo.Releasing?)
    ensures Open(cfg, FlushBatch(s.(todo := todo)))
  {
    hide Line, Ordered, Grouped;
    var s' := FlushBatch(s.(todo := todo));
    LineGrows(s, s', s'.blocked.value);
    UnitJoins(cfg.maxBatch, s.out, s.upto, s.start, s.received, s.handled, LineStart(s), Line(s), s.next,
              s'.blocked.value);
  }

  /** One more event in the batch; a full batch is closed at once. */
  lemma AppendKeeps(cfg: Config, s: Session)
    requires cfg.maxBatch >= 1 && Open(cfg, s) && s.blocked.None? && s.todo.Appending?
    ensures Open(cfg, PerformTodo(cfg, s, 0))
  {
    hide Line, Ordered, Grouped;
    var s' := PerformTodo(cfg, s, 0);
    PendingMoves(cfg, s, s.next + s.open + 1);
    if s.open + 1 >= cfg.maxBatch {
      LineGrows(s, s', s'.blocked.value);
      UnitJoins(cfg.maxBatch, s.out, s.upto, s.start, s.received, s.handled, LineStart(s), Line(s), s.next,
                s'.blocked.value);
    } else {
      LineSame(s, s');
    }
  }

  lemma PendingMoves(cfg: Config, s: Session, i: nat)
    requires InOrder(cfg, s) && Covered(s.upto, s.pendingAck, s.next + s.open) && s.next + s.open <= i <= |s.out|
    ensures Covered(s.upto, s.pendingAck, i) && |s.upto| == |s.out| + 1 && Covered(s.upto, 0, i)
  {
    UptoMonotone(s.out, s.upto, s.start, s.received, s.next + s.open, i);
  }

  lemma SendKeeps(cfg: Config, s: Session)
    requires cfg.maxBatch >= 1 && Open(cfg, s) && s.blocked.None? && s.todo.Sending?
    ensures Open(cfg, SendPiece(cfg, s))
  {
    hide Line, Ordered, Grouped;
    var s' := SendPiece(cfg, s);
    PendingMoves(cfg, s, s'.next);
    LineGrows(s, s', s'.blocked.value);
    UnitJoins(cfg.maxBatch, s.out, s.upto, s.start, s.received, s.handled, LineStart(s), Line(s), s.next,
              s'.blocked.value);
  }

  lemma ReleaseKeeps(cfg: Config, s: Session, rows: nat)
    requires Open(cfg, s) && s.blocked.None? && s.todo.Releasing?
    ensures Open(cfg, PerformTodo(cfg, s, rows))
  {
    hide Line, Ordered;
    var s' := PerformTodo(cfg, s, rows);
    var more, steps := Released(s.marks, rows, s.received), seq(rows, _ => s.received) + [s.received + 1];
    LineSame(s, s');
    Decoded(cfg.maxBatch, s.out, s.upto, s.start, s.received, s.handled, LineStart(s), Line(s), s.next,
            more, steps, s.received + 1);
    assert Grouped(more);
    GroupedGrow(s.out, more);
  }

  lemma GroupedGrow(out: seq<Item>, more: seq<Item>)
    requires Grouped(out) && Grouped(more)
    ensures Grouped(out + more)
  {
    var all := out + more;
    forall i: nat | i < |all| ensures RowsPrecede(all, i) {
      if i < |out| {
        assert RowsPrecede(out, i);
      } else {
        assert RowsPrecede(more, i - |out|) && all[i] == more[i - |out|];
      }
    }
  }

  lemma PerformKeeps(cfg: Config, s: Session, rows: nat)
    requires cfg.maxBatch >= 1 && Open(cfg, s) && EnabledIn(cfg, s, Perform(rows))
    ensures Open(cfg, PerformTodo(cfg, s, rows))
  {
    hide Line, Ordered, Grouped;
    match s.todo
    case Nothing =>
    case Appending => AppendKeeps(cfg, s);
    case Flushing => if s.open > 0 { FlushKeeps(cfg, s, Releasing); } else { LineSame(s, s.(todo := Releasing)); }
    case Releasing => ReleaseKeeps(cfg, s, rows);
    case Sending => SendKeeps(cfg, s);
    case Noting(lsn) => LineSame(s, PerformTodo(cfg, s, rows)); AllReached(cfg, s);
  }

  lemma AllReached(cfg: Config, s: Session)
    requires InOrder(cfg, s)
    ensures Covered(s.upto, s.received, |s.out|)
  {}

  /** Handing a unit on, taking it, failing it, confirming it: the line stays as it is. */
  lemma SameLine(cfg: Config, s: Session, step: Step)
    requires EnabledIn(cfg, s, step)
    requires step.Push? || step.Take? || step.Fail? || step.Report? || step.Confirm? || step.Finish?
    ensures Line(SessionStep(cfg, s, step)) == Line(s)
  {}

  lemma HandOverKeeps(cfg: Config, s: Session, step: Step)
    requires Open(cfg, s) && EnabledIn(cfg, s, step) && (step.Take? || step.Fail? || step.Confirm? || step.Finish?)
    ensures Open(cfg, SessionStep(cfg, s, step))
  {
    hide Line, Ordered, Grouped;
    SameLine(cfg, s, step);
    assert InOrder(cfg, SessionStep(cfg, s, step));
  }

  lemma PushKeeps(cfg: Config, s: Session)
    requires Open(cfg, s) && EnabledIn(cfg, s, Push)
    ensures Open(cfg, SessionStep(cfg, s, Push))
  {
    hide Line, Ordered, Grouped;
    SameLine(cfg, s, Push);
  }

  /** With nothing outstanding the line is empty, so everything decoded has been handled. */
  lemma ConfirmIdleKeeps(cfg: Config, s: Session)
    requires Open(cfg, s) && EnabledIn(cfg, s, ConfirmIdle)
    ensures Open(cfg, SessionStep(cfg, s, ConfirmIdle))
  {
    var s' := SessionStep(cfg, s, ConfirmIdle);
    assert Line(s) == [] && LineStart(s) == |s.handled| == s.next;
    assert Line(s') == Line(s) && LineStart(s') == LineStart(s);
    UptoMonotone(s.out, s.upto, s.start, s.received, s.next, s.next + s.open);
  }

  /** The handler accepted the unit at the head of the line. */
  lemma SucceedKeeps(cfg: Config, s: Session)
    requires Open(cfg, s) && s.worker.Delivering?
    ensures Open(cfg, SessionStep(cfg, s, Succeed))
  {
    hide Line, Grouped, Ordered, Slice;
    SucceedOrder(cfg, s);
  }

  lemma SucceedOrder(cfg: Config, s: Session)
    requires InOrder(cfg, s) && s.worker.Delivering?
    ensures var s', d := SessionStep(cfg, s, Succeed), s.worker.d;
            && InOrder(cfg, s') && |s'.handled| == d.to && UnitOk(cfg.maxBatch, s.out, s.upto, d)
            && forall lsn: nat :: Covered(s.upto, lsn, |s.handled|) ==> Covered(s.upto, lsn, d.to)
  {
    hide Line, Ordered;
    var s', d := SessionStep(cfg, s, Succeed), s.worker.d;
    LineHead(cfg, s);
    HeadDone(cfg.maxBatch, s.out, s.upto, s.start, s.received, s.handled, d, Line(s'), s.next);
  }

  /** Completing the head of the line moves the completed prefix up to its end. */
  lemma HeadDone(limit: nat, out: seq<Item>, upto: seq<nat>, start: nat, received: nat, handled: seq<Item>,
                 d: Delivery, rest: seq<Delivery>, next: nat)
    requires Ordered(limit, out, upto, start, received, handled, |handled|, [d] + rest, next)
    ensures Ordered(limit, out, upto, start, received, handled + Slice(out, d.from, d.to), End(d), rest, next)
    ensures |handled + Slice(out, d.from, d.to)| == d.to && UnitOk(limit, out, upto, d)
    ensures forall lsn: nat :: Covered(upto, lsn, |handled|) ==> Covered(upto, lsn, d.to)
  {
    LineRest(limit, out, upto, d, rest, |handled|, next);
    hide Chain, UnitsOk;
    UptoMonotone(out, upto, start, received, |handled|, d.to);
    hide Positions;
    PrefixGrows(out, handled, d.to);
  }

  lemma LineHead(cfg: Config, s: Session)
    requires s.worker.Delivering?
    ensures Line(s) == [s.worker.d] + Line(SessionStep(cfg, s, Succeed))
  {}

  lemma PrefixGrows(out: seq<Item>, handled: seq<Item>, to: nat)
    requires |handled| <= to <= |out| && handled == out[..|handled|]
    ensures handled + Slice(out, |handled|, to) == out[..to]
  {}

  lemma LineRest(limit: nat, out: seq<Item>, upto: seq<nat>, d: Delivery, rest: seq<Delivery>, from: nat, to: nat)
    requires Chain(from, [d] + rest, to) && UnitsOk(limit, out, upto, [d] + rest)
    ensures d.from == from && UnitOk(limit, out, upto, d)
    ensures Chain(End(d), rest, to) && UnitsOk(limit, out, upto, rest)
  {
    var line := [d] + rest;
    assert line[0] == d;
    forall i | 0 <= i < |rest| ensures rest[i] == line[i + 1] {}
  }

  lemma ReportKeeps(cfg: Config, s: Session)
    requires Open(cfg, s) && s.worker.Handled?
    ensures Open(cfg, SessionStep(cfg, s, Report))
  {
    hide Line, Grouped, Slice, Ordered;
    SameLine(cfg, s, Report);
    if s.worker.d.mark {
      ReportDone(cfg.maxBatch, s.out, s.upto, s.start, s.received, s.handled, Line(s), s.next);
    }
    assert !s.worker.d.mark ==> SessionStep(cfg, s, Report).handled == s.handled;
    assert InOrder(cfg, SessionStep(cfg, s, Report));
  }

  lemma ReportDone(limit: nat, out: seq<Item>, upto: seq<nat>, start: nat, received: nat, handled: seq<Item>,
                   line: seq<Delivery>, next: nat)
    requires Ordered(limit, out, upto, start, received, handled, |handled| + 1, line, next)
    ensures Ordered(limit, out, upto, start, received, handled + Slice(out, |handled|, |handled| + 1), |handled| + 1, line, next)
    ensures |Slice(out, |handled|, |handled| + 1)| == 1
    ensures forall lsn: nat :: Covered(upto, lsn, |handled|) ==> Covered(upto, lsn, |handled| + 1)
  {
    hide Chain, UnitsOk;
    UptoMonotone(out, upto, start, received, |handled|, |handled| + 1);
    hide Positions;
    PrefixGrows(out, handled, |handled| + 1);
  }

  /** A change or watermark at `p` is among the items. */
  ghost predicate Holds(items: seq<Item>, p: nat) { exists x :: x in items && !x.Row? && x.pos == p }

  /** The items before index `i` hold every change and watermark from the session's start up to
      `upto[i]`. */
  lemma {:induction false} HoldsAll(s: Session, i: nat, p: nat)
    requires Positions(s.out, s.upto, s.start, s.received) && i <= |s.out| && s.start <= p < s.upto[i]
    ensures Holds(s.out[..i], p)
  {
    var last := s.out[i - 1];
    if !last.Row? && last.pos == p {
      assert s.out[..i][i - 1] == last;
    } else {
      HoldsAll(s, i - 1, p);
      assert s.out[..i - 1] <= s.out[..i];
    }
  }

  lemma TellKeeps(cfg: Config, st: State)
    requires Inv(cfg, st) && Enabled(cfg, st, Tell)
    ensures Inv(cfg, Apply(cfg, st, Tell))
  {
    var s := st.session.value;
    forall p: nat | p < s.client ensures p in st.delivered {
      if p >= s.start { HoldsAll(s, |s.handled|, p); }
    }
  }

  lemma SessionStepKeeps(cfg: Config, s: Session, step: Step)
    requires cfg.maxBatch >= 1 && Open(cfg, s) && EnabledIn(cfg, s, step)
    requires !s.closing && !step.Receive? && !step.Teardown?
    ensures Open(cfg, SessionStep(cfg, s, step))
  {
    hide Open;
    match step
    case Perform(rows) => PerformKeeps(cfg, s, rows);
    case Linger => FlushKeeps(cfg, s, s.todo);
    case Succeed => SucceedKeeps(cfg, s);
    case Report => ReportKeeps(cfg, s);
    case Push => PushKeeps(cfg, s);
    case Take => HandOverKeeps(cfg, s, step);
    case Fail => HandOverKeeps(cfg, s, step);
    case Confirm => HandOverKeeps(cfg, s, step);
    case Finish => HandOverKeeps(cfg, s, step);
    case ConfirmIdle => ConfirmIdleKeeps(cfg, s);
    case Tell =>
  }

  lemma HandledDelivered(cfg: Config, st: State, step: Step)
    requires Enabled(cfg, st, step) && st.session.Some? && !step.Disconnect? && Open(cfg, st.session.value)
    requires forall x | x in st.session.value.handled && !x.Row? :: x.pos in st.delivered
    ensures var st' := Apply(cfg, st, step);
            st'.session.Some? && forall x | x in st'.session.value.handled && !x.Row? :: x.pos in st'.delivered
  {
    hide Ordered, Grouped, Line;
    if step.Succeed? || step.Report? {
      var s, s' := st.session.value, Apply(cfg, st, step).session.value;
      var more := if step.Succeed? then Events(s, s.worker.d) else MarkItems(s, s.worker.d);
      assert s'.handled == s.handled + more;
      forall x | x in s'.handled && !x.Row? ensures x.pos in st.delivered + Places(more) {
        if x in more { assert x.pos in Places(more); } else { assert x in s.handled; }
      }
    }
  }

  lemma StepKeeps(cfg: Config, st: State, step: Step)
    requires cfg.maxBatch >= 1 && Inv(cfg, st) && Enabled(cfg, st, step)
    ensures Inv(cfg, Apply(cfg, st, step))
  {
    hide Open;
    if step.Connect? {
      ConnectKeeps(cfg, st, step.start);
    } else if step.Tell? {
      TellKeeps(cfg, st);
    } else if !step.Disconnect? && !step.Teardown? {
      var s := st.session.value;
      if !s.closing {
        HandledDelivered(cfg, st, step);
        if step.Receive? { ReceiveKeeps(cfg, s, step.msg, st.inTxn); } else { SessionStepKeeps(cfg, s, step); }
      }
    }
  }

  lemma ConnectKeeps(cfg: Config, st: State, start: nat)
    requires cfg.maxBatch >= 1 && Inv(cfg, st) && Enabled(cfg, st, Connect(start))
    ensures Inv(cfg, Apply(cfg, st, Connect(start)))
  {
    var s := Apply(cfg, st, Connect(start)).session.value;
    assert Line(s) == [];
  }

  lemma {:induction false} RunKeeps(cfg: Config, trace: seq<Step>)
    requires cfg.maxBatch >= 1
    ensures var r := Exec(cfg, trace); r.Some? ==> Inv(cfg, r.value)
  {
    if trace == [] {
    } else {
      RunKeeps(cfg, trace[..|trace| - 1]);
      var before := Exec(cfg, trace[..|trace| - 1]);
      var step := trace[|trace| - 1];
      if before.Some? && Enabled(cfg, before.value, step) { StepKeeps(cfg, before.value, step); }
    }
  }

  // ---------------------------------------------------------------- theorems

  /** At-least-once: whatever the interleaving, handler failures, teardowns and reconnects, every
      change before a position the server was ever told was accepted by the handler, and every
      watermark before it was reported. */
  lemma AtLeastOnce(cfg: Config, st: State)
    requires cfg.maxBatch >= 1 && Reachable(cfg, st)
    ensures forall p: nat | p < st.told :: p in st.delivered
  {
    var trace :| Exec(cfg, trace) == Some(st);
    RunKeeps(cfg, trace);
  }

  /** What a session may tell the server: a position before which it handled every change and reported
      every watermark since its start, in order and without a gap. */
  lemma ToldIsHandled(cfg: Config, st: State)
    requires cfg.maxBatch >= 1 && Reachable(cfg, st) && st.session.Some? && Enabled(cfg, st, Tell)
    ensures var s := st.session.value;
            && |s.handled| < |s.upto| && s.client <= s.upto[|s.handled|] && s.handled <= s.out
            && forall p: nat | s.start <= p < s.client :: Holds(s.handled, p)
  {
    var s := st.session.value;
    assert Open(cfg, s) by {
      var trace :| Exec(cfg, trace) == Some(st);
      RunKeeps(cfg, trace);
    }
    hide Reachable;
    forall p: nat | s.start <= p < s.client ensures Holds(s.handled, p) { HoldsAll(s, |s.handled|, p); }
  }

  /** How far delivery is complete without a gap, in this session or else in the last one. */
  function Reach(st: State): nat {
    if st.session.Some? && !st.session.value.closing then Reached(st.session.value) else st.last
  }

  lemma ReachedGrows(cfg: Config, s: Session, s': Session)
    requires Open(cfg, s) && Open(cfg, s') && |s.handled| <= |s'.handled| && s.upto <= s'.upto
    ensures Reached(s) <= Reached(s')
  {
    hide Line, Grouped, Chain, UnitsOk;
    UptoMonotone(s'.out, s'.upto, s'.start, s'.received, |s.handled|, |s'.handled|);
  }

  /** No step before teardown takes back what is handled or where it stands. */
  lemma Extends(cfg: Config, st: State, step: Step)
    requires Enabled(cfg, st, step) && st.session.Some? && !step.Disconnect?
    ensures var s, st' := st.session.value, Apply(cfg, st, step);
            && st'.session.Some? && |s.handled| <= |st'.session.value.handled| && s.upto <= st'.session.value.upto
            && (st'.session.value.closing <==> s.closing || step.Teardown?)
  {}

  /** The slot stands within what is delivered without a gap. */
  ghost predicate SlotOk(st: State) { st.slot <= Reach(st) && forall p: nat | p < Reach(st) :: p in st.delivered }

  lemma OpenReached(cfg: Config, st: State)
    requires Inv(cfg, st) && st.session.Some? && !st.session.value.closing
    ensures forall p: nat | p < Reached(st.session.value) :: p in st.delivered
  {
    hide Line, Grouped;
    var s := st.session.value;
    forall p: nat | p < Reached(s) ensures p in st.delivered {
      if p >= s.start { HoldsAll(s, |s.handled|, p); }
    }
  }

  lemma ClientWithin(cfg: Config, s: Session)
    requires Open(cfg, s)
    ensures s.client <= Reached(s)
  {
    hide Line, Grouped, Ordered;
  }

  lemma ConnectReached(cfg: Config, st: State, start: nat)
    requires Enabled(cfg, st, Connect(start))
    ensures var st' := Apply(cfg, st, Connect(start)); st'.session.Some? && !st'.session.value.closing && Reached(st'.session.value) == start == st'.slot
  {}

  lemma SlotKeeps(cfg: Config, st: State, step: Step)
    requires cfg.maxBatch >= 1 && Inv(cfg, st) && Enabled(cfg, st, step) && SlotOk(st)
    ensures SlotOk(Apply(cfg, st, step))
  {
    hide Open, Reached, Events, MarkItems, ReceiveMessage, PerformTodo, FlushBatch, LiveItems, Counting, Places;
    StepKeeps(cfg, st, step);
    var st' := Apply(cfg, st, step);
    if step.Connect? { ConnectReached(cfg, st, step.start); }
    if st.session.Some? && !step.Disconnect? { Extends(cfg, st, step); }
    if st'.session.Some? && !st'.session.value.closing {
      OpenReached(cfg, st');
      if st.session.Some? {
        ReachedGrows(cfg, st.session.value, st'.session.value);
        ClientWithin(cfg, st.session.value);
      }
    }
  }

  lemma {:induction false} RunSlot(cfg: Config, trace: seq<Step>)
    requires cfg.maxBatch >= 1
    ensures var r := Exec(cfg, trace); r.Some? ==> SlotOk(r.value)
  {
    if trace == [] {
    } else {
      hide SlotOk, Inv, Enabled;
      RunSlot(cfg, trace[..|trace| - 1]);
      RunKeeps(cfg, trace[..|trace| - 1]);
      var before := Exec(cfg, trace[..|trace| - 1]);
      var step := trace[|trace| - 1];
      if before.Some? && Enabled(cfg, before.value, step) { SlotKeeps(cfg, before.value, step); }
    }
  }

  /** A session that starts where the slot stands, or earlier because the server lost what it was told
      last, starts no later than the one before it had delivered without a gap: what the backfill's
      step system asks of its StreamStart. */
  lemma ResumesWithinReach(cfg: Config, st: State, start: nat)
    requires cfg.maxBatch >= 1 && Reachable(cfg, st) && Enabled(cfg, st, Connect(start)) && start <= st.slot
    ensures start <= Reach(st) && (forall p: nat | p < Reach(st) :: p in st.delivered)
    ensures Reach(Apply(cfg, st, Connect(start))) == start
  {
    var trace :| Exec(cfg, trace) == Some(st);
    RunSlot(cfg, trace);
  }

  /** In order, until teardown: what the handler completed is a prefix of the decoded events with
      every watermark's rows inserted at it, the watermark reported right after its last row; the
      live events are the slot's changes from the session's start, one by one. */
  lemma DeliveredInOrder(cfg: Config, st: State)
    requires cfg.maxBatch >= 1 && Reachable(cfg, st) && st.session.Some? && !st.session.value.closing
    ensures var s := st.session.value;
            && s.handled <= s.out
            && Positions(s.out, s.upto, s.start, s.received)
            && Grouped(s.out)
            && MarksComplete(s.handled)
  {
    var s := st.session.value;
    assert Open(cfg, s) by {
      var trace :| Exec(cfg, trace) == Some(st);
      RunKeeps(cfg, trace);
    }
    hide Chain, UnitsOk;
    forall t | 0 <= t < |s.handled| && s.handled[t].Mark? ensures MarkComplete(s.handled, t) {
      var m := s.handled[t];
      assert m == s.out[t] && RowsPrecede(s.out, t);
      forall k | 0 <= k < m.rows ensures Row(m.chunk, k) in s.handled[..t] {
        assert s.handled[..t][t - m.rows + k] == Row(m.chunk, k);
      }
    }
  }

  /** A watermark report at index `t` comes after every row released at the watermark. */
  predicate MarkComplete(handled: seq<Item>, t: nat)
    requires t < |handled| && handled[t].Mark?
  {
    forall k {:trigger Row(handled[t].chunk, k)} :: 0 <= k < handled[t].rows ==> Row(handled[t].chunk, k) in handled[..t]
  }

  predicate MarksComplete(handled: seq<Item>) {
    forall t :: 0 <= t < |handled| && handled[t].Mark? ==> MarkComplete(handled, t)
  }

  /** Units are never larger than the batch limit. */
  lemma UnitsWithinLimit(cfg: Config, st: State, d: Delivery)
    requires cfg.maxBatch >= 1 && Reachable(cfg, st) && st.session.Some? && !st.session.value.closing
    requires d in Line(st.session.value)
    ensures d.from <= d.to && d.to - d.from <= cfg.maxBatch
  {
    var trace :| Exec(cfg, trace) == Some(st);
    RunKeeps(cfg, trace);
  }

  /** While the loop runs, `outstanding` counts the units queued, in progress, failed or being
      enqueued; so the loop's own confirm finds the delivery goroutine idle. */
  lemma ConfirmSitesExclusive(cfg: Config, st: State)
    requires cfg.maxBatch >= 1 && Reachable(cfg, st) && st.session.Some? && !st.session.value.closing
    ensures Counted(st.session.value)
    ensures EnabledIn(cfg, st.session.value, ConfirmIdle) ==>
              st.session.value.worker.Idle? && Line(st.session.value) == []
  {
    var trace :| Exec(cfg, trace) == Some(st);
    RunKeeps(cfg, trace);
  }

  /** The confirmed position never moves back within a session. */
  lemma ClientMonotone(cfg: Config, st: State, step: Step)
    requires Enabled(cfg, st, step) && st.session.Some? && !step.Disconnect?
    ensures Apply(cfg, st, step).session.Some?
    ensures Apply(cfg, st, step).session.value.client >= st.session.value.client
  {}

  /** Once the handler has failed, nothing is confirmed any more and the goroutine stays down. */
  lemma FailedConfirmsNothing(cfg: Config, st: State, step: Step)
    requires cfg.maxBatch >= 1 && Reachable(cfg, st) && Enabled(cfg, st, step) && !step.Disconnect?
    requires st.session.Some? && st.session.value.worker.Failed?
    ensures var s' := Apply(cfg, st, step).session;
            s'.Some? && s'.value.worker == st.session.value.worker && s'.value.client == st.session.value.client
  {
    if !st.session.value.closing { ConfirmSitesExclusive(cfg, st); }
  }

  // ---------------------------------------------------------------- positions are not lost either

  /** Position `a` is confirmed, pending, or rides on a unit that is on its way. */
  ghost predicate Carries(s: Session, a: nat) {
    || a <= s.client || a == s.pendingAck
    || (s.blocked.Some? && s.blocked.value.ack == a)
    || (exists i :: 0 <= i < |s.queue| && s.queue[i].ack == a)
    || (!s.worker.Idle? && !s.worker.Confirmed? && s.worker.d.ack == a)
  }

  ghost predicate AckKept(s: Session) { !s.closing ==> s.pendingAck <= s.noted && Carries(s, s.noted) }

  lemma AckKeeps(cfg: Config, s: Session, step: Step)
    requires AckKept(s) && EnabledIn(cfg, s, step)
    ensures AckKept(SessionStep(cfg, s, step))
  {
    hide PerformTodo, FlushBatch, Events, MarkItems;
    match step
    case Push => PushCarries(s, s.noted);
    case Take => if !s.closing { TakeCarries(s, s.noted); }
    case Perform(rows) => PerformCarries(cfg, s, rows);
    case Linger => FlushCarries(s);
    case _ =>
  }

  lemma FlushCarries(s: Session)
    requires AckKept(s) && s.blocked.None?
    ensures AckKept(FlushBatch(s))
  {}

  lemma PerformCarries(cfg: Config, s: Session, rows: nat)
    requires AckKept(s) && s.blocked.None? && !s.closing
    ensures AckKept(PerformTodo(cfg, s, rows))
  {
    hide Released;
    match s.todo
    case Flushing => FlushCarries(s.(todo := Releasing));
    case _ =>
  }

  lemma PushCarries(s: Session, a: nat)
    requires Carries(s, a) && s.blocked.Some?
    ensures Carries(s.(queue := s.queue + [s.blocked.value], blocked := None), a)
  {
    var q := s.queue + [s.blocked.value];
    assert q[|s.queue|] == s.blocked.value && forall i :: 0 <= i < |s.queue| ==> q[i] == s.queue[i];
  }

  lemma TakeCarries(s: Session, a: nat)
    requires Carries(s, a) && s.worker.Idle? && s.queue != []
    ensures Carries(s.(worker := Delivering(s.queue[0]), queue := s.queue[1..]), a)
  {
    if i :| 0 <= i < |s.queue| && s.queue[i].ack == a {
      if i > 0 { assert s.queue[1..][i - 1] == s.queue[i]; }
    }
  }

  lemma {:induction false} AckRun(cfg: Config, trace: seq<Step>)
    ensures var r := Exec(cfg, trace); r.Some? && r.value.session.Some? ==> AckKept(r.value.session.value)
  {
    if trace == [] {
    } else {
      hide AckKept, SessionStep, EnabledIn;
      AckRun(cfg, trace[..|trace| - 1]);
      var before, step := Exec(cfg, trace[..|trace| - 1]), trace[|trace| - 1];
      if before.Some? && Enabled(cfg, before.value, step) { AckStep(cfg, before.value, step); }
    }
  }

  lemma AckStep(cfg: Config, st: State, step: Step)
    requires Enabled(cfg, st, step) && (st.session.Some? ==> AckKept(st.session.value))
    ensures var r := Apply(cfg, st, step); r.session.Some? ==> AckKept(r.session.value)
  {
    if st.session.Some? && !step.Receive? && !step.Tell? && !step.Disconnect? {
      hide SessionStep, AckKept;
      AckKeeps(cfg, st.session.value, step);
    }
  }

  // what the server offered, from the messages alone

  /** The last transaction begun is not committed yet. */
  predicate TxnOpen(trace: seq<Step>) {
    if trace == [] then false
    else match trace[|trace| - 1]
      case Receive(Begin) => true
      case Receive(Commit(_)) => false
      case _ => TxnOpen(trace[..|trace| - 1])
  }

  /** The highest position the server offered in this session: the end of a commit, or of a keepalive
      outside a transaction. */
  function Offered(trace: seq<Step>): nat {
    if trace == [] then 0
    else
      var before := trace[..|trace| - 1];
      match trace[|trace| - 1]
      case Connect(_) => 0
      case Receive(Commit(end)) => Raised(Offered(before), end)
      case Receive(Keepalive(end)) => if TxnOpen(before) then Offered(before) else Raised(Offered(before), end)
      case _ => Offered(before)
  }

  /** What the reader goroutine has noted or is about to note. */
  function Noted(s: Session): nat { if s.todo.Noting? then Raised(s.noted, s.todo.lsn) else s.noted }

  lemma NotedIn(cfg: Config, s: Session, step: Step)
    requires EnabledIn(cfg, s, step) && !s.closing && !SessionStep(cfg, s, step).closing
    ensures Noted(SessionStep(cfg, s, step)) == Noted(s)
  {
    hide LiveItems, Counting, Released, Events, MarkItems;
  }

  lemma NotedStep(cfg: Config, st: State, step: Step, trace: seq<Step>)
    requires Enabled(cfg, st, step) && st.inTxn == TxnOpen(trace)
    requires st.session.Some? && !st.session.value.closing ==> Noted(st.session.value) == Offered(trace)
    ensures var st', after := Apply(cfg, st, step), trace + [step];
            && st'.inTxn == TxnOpen(after)
            && (st'.session.Some? && !st'.session.value.closing ==> Noted(st'.session.value) == Offered(after))
  {
    assert (trace + [step])[..|trace|] == trace;
    hide LiveItems, Counting, Places, Reached;
    if st.session.Some? && !step.Receive? && !step.Tell? && !step.Disconnect? {
      if !st.session.value.closing && !SessionStep(cfg, st.session.value, step).closing { NotedIn(cfg, st.session.value, step); }
      assert st.session.value.closing ==> SessionStep(cfg, st.session.value, step).closing;
      hide SessionStep, Noted;
    }
  }

  /** In every run, what the reader notes is what the server offered. */
  lemma {:induction false} NotedIsOffered(cfg: Config, trace: seq<Step>)
    ensures var r := Exec(cfg, trace);
            r.Some? ==>
              && r.value.inTxn == TxnOpen(trace)
              && (r.value.session.Some? && !r.value.session.value.closing ==> Noted(r.value.session.value) == Offered(trace))
  {
    if trace == [] {
    } else {
      hide Enabled, Apply, TxnOpen, Offered;
      var sofar := trace[..|trace| - 1];
      NotedIsOffered(cfg, sofar);
      var before, step := Exec(cfg, sofar), trace[|trace| - 1];
      if before.Some? && Enabled(cfg, before.value, step) {
        NotedStep(cfg, before.value, step, sofar);
        assert sofar + [step] == trace;
      }
    }
  }

  /** Nothing is confirmed, or on its way to be, that was not offered. */
  ghost predicate NoneInvented(s: Session) {
    && s.start <= s.client <= Raised(s.start, s.noted) && s.pendingAck <= s.noted
    && (s.blocked.Some? ==> s.blocked.value.ack <= s.noted) && (!s.worker.Idle? ==> s.worker.d.ack <= s.noted)
    && forall i :: 0 <= i < |s.queue| ==> s.queue[i].ack <= s.noted
  }

  lemma InventedIn(cfg: Config, s: Session, step: Step)
    requires EnabledIn(cfg, s, step) && NoneInvented(s)
    ensures NoneInvented(SessionStep(cfg, s, step))
  {
    hide PerformTodo, FlushBatch, Events, MarkItems;
    match step
    case Perform(rows) => InventedPerform(cfg, s, rows);
    case Linger => InventedFlush(s);
    case _ =>
  }

  lemma InventedFlush(s: Session)
    requires NoneInvented(s)
    ensures NoneInvented(FlushBatch(s))
  {}

  lemma InventedPerform(cfg: Config, s: Session, rows: nat)
    requires NoneInvented(s)
    ensures NoneInvented(PerformTodo(cfg, s, rows))
  {
    hide Released;
    match s.todo
    case Flushing => InventedFlush(s.(todo := Releasing));
    case _ =>
  }

  lemma InventedStep(cfg: Config, st: State, step: Step)
    requires Enabled(cfg, st, step) && (st.session.Some? ==> NoneInvented(st.session.value))
    ensures var r := Apply(cfg, st, step); r.session.Some? ==> NoneInvented(r.session.value)
  {
    hide LiveItems, Counting, Places, Reached;
    if st.session.Some? && !step.Receive? && !step.Tell? && !step.Disconnect? {
      InventedIn(cfg, st.session.value, step);
      hide SessionStep, NoneInvented;
    }
  }

  lemma {:induction false} InventedRun(cfg: Config, trace: seq<Step>)
    ensures var r := Exec(cfg, trace); r.Some? && r.value.session.Some? ==> NoneInvented(r.value.session.value)
  {
    if trace == [] {
    } else {
      hide NoneInvented, Apply, Enabled;
      InventedRun(cfg, trace[..|trace| - 1]);
      var before, step := Exec(cfg, trace[..|trace| - 1]), trace[|trace| - 1];
      if before.Some? && Enabled(cfg, before.value, step) { InventedStep(cfg, before.value, step); }
    }
  }

  /** No offered position is lost while the loop runs, and none is made up: once everything handed over
      is delivered and the open batch and the pending ack are empty, exactly the highest position the
      server offered in the session is confirmed. */
  lemma DrainedIsConfirmed(cfg: Config, trace: seq<Step>, st: State)
    requires cfg.maxBatch >= 1 && Exec(cfg, trace) == Some(st) && st.session.Some?
    requires var s := st.session.value; LoopFree(s) && s.open == 0 && s.pendingAck == 0 && s.outstanding == 0
    ensures st.session.value.client == Raised(st.session.value.start, Offered(trace))
  {
    hide AckKept, Exec, NoneInvented;
    assert Reachable(cfg, st);
    ConfirmSitesExclusive(cfg, st);
    var s := st.session.value;
    AckRun(cfg, trace);
    NotedIsOffered(cfg, trace);
    InventedRun(cfg, trace);
    hide Reachable;
    NothingOnItsWay(s);
    InventedMeans(s);
  }

  lemma InventedMeans(s: Session)
    requires NoneInvented(s)
    ensures s.start <= s.client <= Raised(s.start, s.noted)
  {}

  lemma ChangeIsOpen(cfg: Config) returns (st: State)
    requires cfg.maxBatch > 1
    ensures Reachable(cfg, st) && st.told == 0 && st.session.Some?
    ensures var s := st.session.value;
            && LoopFree(s) && s.serverInTxn && s.received == 1 && s.next == 0 && s.open == 1 && |s.out| == 1
            && s.pendingAck == 0 && s.worker.Idle? && s.queue == [] && s.client == 0
  {
    assert Reachable(cfg, INIT) by { assert Exec(cfg, []) == Some(INIT); }
    hide Reachable;
    st := Next(cfg, INIT, Connect(0));
    st := Next(cfg, st, Receive(Begin));
    st := Next(cfg, st, Receive(Changes(1)));
    st := Next(cfg, st, Perform(0));
  }

  lemma ChangeIsQueued(cfg: Config) returns (st: State)
    requires cfg.maxBatch > 1
    ensures Reachable(cfg, st) && st.told == 0 && st.session.Some?
    ensures var s := st.session.value; !s.closing && s.worker.Idle? && s.queue == [Delivery(0, 1, 1, false)] && s.client == 0
  {
    hide Reachable;
    st := ChangeIsOpen(cfg);
    st := Next(cfg, st, Receive(Commit(1)));
    st := Next(cfg, st, Perform(0));
    st := Next(cfg, st, Linger);
    st := Next(cfg, st, Push);
  }

  /** A committed change, delivered, is confirmed and the server told so. */
  lemma ChangeIsConfirmed(cfg: Config) returns (st: State)
    requires cfg.maxBatch > 1
    ensures Reachable(cfg, st) && st.told == 1
  {
    hide Reachable, Places;
    st := ChangeIsQueued(cfg);
    st := Next(cfg, st, Take);
    st := Next(cfg, st, Succeed);
    st := Next(cfg, st, Report);
    st := Next(cfg, st, Confirm);
    st := Next(cfg, st, Tell);
  }

  /** An empty watermark's message, delivered and reported. */
  lemma QuietWatermark(cfg: Config) returns (st: State)
    requires cfg.maxBatch >= 1
    ensures Reachable(cfg, st) && st.told == 0 && !st.inTxn && st.session.Some?
    ensures var s := st.session.value;
            LoopFree(s) && s.received == 1 && s.open == 0 && s.pendingAck == 0 && s.outstanding == 0 && s.client == 0 && !s.serverInTxn
  {
    hide Reachable, Places, Released;
    st := WatermarkArrives(cfg);
    st := Next(cfg, st, Perform(0));
    st := Next(cfg, st, Perform(0));
    assert st.session.value.out == [] + Released(0, 0, 0);
    st := Next(cfg, st, Perform(0));
    st := Next(cfg, st, Push);
    st := Next(cfg, st, Take);
    st := Next(cfg, st, Succeed);
    st := Next(cfg, st, Report);
    st := Next(cfg, st, Confirm);
    st := Next(cfg, st, Finish);
  }

  /** On a stream without a single commit, a keepalive moves the slot past what was delivered. */
  lemma KeepaliveIsTold(cfg: Config) returns (st: State)
    requires cfg.maxBatch >= 1
    ensures Reachable(cfg, st) && st.told == 1
  {
    hide Reachable;
    st := QuietWatermark(cfg);
    st := Next(cfg, st, Receive(Keepalive(1)));
    st := Next(cfg, st, Perform(0));
    st := Next(cfg, st, ConfirmIdle);
    st := Next(cfg, st, Tell);
  }

  lemma NothingOnItsWay(s: Session)
    requires AckKept(s) && !s.closing && s.pendingAck == 0 && s.outstanding == 0 && Counted(s)
    ensures s.client >= s.noted
  {}

  // ---------------------------------------------------------------- watermark reports across teardown

  /** In every reachable state, teardown included, each watermark reported delivered had all its
      rows accepted before. */
  ghost predicate ReportsSound(cfg: Config) {
    forall st | Reachable(cfg, st) && st.session.Some? :: MarksComplete(st.session.value.handled)
  }

  ghost predicate NoMarks(out: seq<Item>, from: nat, to: nat) {
    to <= |out| && forall i :: from <= i < to ==> !out[i].Mark?
  }

  /** The mark at `to` stands right after all its rows, which begin at `from`. */
  ghost predicate RowsFill(out: seq<Item>, from: nat, to: nat) {
    to < |out| && out[to].Mark? && out[to].rows == to - from && RowsPrecede(out, to)
  }

  /** A unit that reports a watermark holds all its rows. */
  ghost predicate Sealed(out: seq<Item>, d: Delivery) {
    d.from <= d.to && NoMarks(out, d.from, d.to) && (d.mark ==> RowsFill(out, d.from, d.to))
  }

  ghost predicate AllSealed(out: seq<Item>, ds: seq<Delivery>) {
    forall i :: 0 <= i < |ds| ==> Sealed(out, ds[i])
  }

  /** The rows of the unit just handled are the last things completed. */
  ghost predicate EndsWith(handled: seq<Item>, tail: seq<Item>) {
    |tail| <= |handled| && handled[|handled| - |tail|..] == tail
  }

  /** With chunks no larger than a batch, released rows are never split. */
  ghost predicate RestUnsplit(cfg: Config, s: Session) {
    && s.next + s.open <= |s.out|
    && (if s.todo.Sending? then
          && s.open == 0 && s.next < |s.out| && NoMarks(s.out, s.next, |s.out| - 1) && RowsFill(s.out, s.next, |s.out| - 1)
          && |s.out| - 1 - s.next <= cfg.chunkRows
        else
          && NoMarks(s.out, s.next, |s.out|) && (s.todo.Releasing? ==> s.open == 0)
          && (if s.todo.Appending? then s.next + s.open < |s.out| else s.next + s.open == |s.out|))
  }

  ghost predicate Unsplit(cfg: Config, s: Session) {
    && MarksComplete(s.handled)
    && AllSealed(s.out, Line(s))
    && (s.worker.Handled? ==> Sealed(s.out, s.worker.d) && EndsWith(s.handled, Events(s, s.worker.d)))
    && (!s.closing ==> RestUnsplit(cfg, s))
  }

  lemma SealedGrows(out: seq<Item>, more: seq<Item>, ds: seq<Delivery>)
    requires AllSealed(out, ds)
    ensures AllSealed(out + more, ds)
  {
    forall i | 0 <= i < |ds| ensures Sealed(out + more, ds[i]) {
      SealedGrowsOne(out, more, ds[i]);
    }
  }

  lemma SealedGrowsOne(out: seq<Item>, more: seq<Item>, d: Delivery)
    requires Sealed(out, d)
    ensures Sealed(out + more, d)
  {
    if d.mark {
      assert RowsPrecede(out, d.to);
      assert RowsPrecede(out + more, d.to);
    }
  }

  lemma HandledNoMarks(handled: seq<Item>, events: seq<Item>)
    requires MarksComplete(handled) && forall i :: 0 <= i < |events| ==> !events[i].Mark?
    ensures MarksComplete(handled + events)
  {
    var all := handled + events;
    forall t | 0 <= t < |all| && all[t].Mark? ensures MarkComplete(all, t) {
      assert all[t] == handled[t] && all[..t] == handled[..t];
      assert MarkComplete(handled, t);
    }
  }

  /** Reporting a sealed unit right after its rows keeps every report complete. */
  lemma ReportComplete(handled: seq<Item>, out: seq<Item>, d: Delivery)
    requires MarksComplete(handled) && Sealed(out, d) && d.mark && EndsWith(handled, out[d.from..d.to])
    ensures MarksComplete(handled + [out[d.to]])
  {
    var all, m := handled + [out[d.to]], out[d.to];
    forall t | 0 <= t < |all| && all[t].Mark? ensures MarkComplete(all, t) {
      if t < |handled| {
        assert all[t] == handled[t] && all[..t] == handled[..t];
        assert MarkComplete(handled, t);
      } else {
        assert all[..t] == handled && all[t] == m && RowsPrecede(out, d.to);
        forall k | 0 <= k < m.rows ensures Row(m.chunk, k) in handled {
          assert out[d.from..d.to][k] == out[d.from + k] == Row(m.chunk, k);
          assert handled[|handled| - (d.to - d.from) + k] == out[d.from..d.to][k];
        }
      }
    }
  }

  lemma UnsplitPerform(cfg: Config, s: Session, rows: nat)
    requires cfg.chunkRows <= cfg.maxBatch && Unsplit(cfg, s) && EnabledIn(cfg, s, Perform(rows))
    ensures Unsplit(cfg, PerformTodo(cfg, s, rows))
  {
    hide MarksComplete, Line, EndsWith, RowsPrecede;
    var s' := PerformTodo(cfg, s, rows);
    if s.todo.Releasing? {
      ReleaseUnsplit(cfg, s, rows);
    } else if s'.blocked.Some? {
      LineGrows(s, s', s'.blocked.value);
    } else {
      LineSame(s, s');
    }
  }

  lemma ReleaseUnsplit(cfg: Config, s: Session, rows: nat)
    requires Unsplit(cfg, s) && EnabledIn(cfg, s, Perform(rows)) && s.todo.Releasing?
    ensures Unsplit(cfg, PerformTodo(cfg, s, rows))
  {
    hide MarksComplete, Line, Released, RestUnsplit, Sealed, AllSealed, EndsWith, Events;
    var s' := PerformTodo(cfg, s, rows);
    var more := Released(s.marks, rows, s.received);
    LineSame(s, s');
    SealedGrows(s.out, more, Line(s));
    if s.worker.Handled? { SealedGrowsOne(s.out, more, s.worker.d); EventsSame(s, s', more); }
    RestReleased(cfg, s, rows);
  }

  lemma RestReleased(cfg: Config, s: Session, rows: nat)
    requires RestUnsplit(cfg, s) && s.todo.Releasing? && rows <= cfg.chunkRows
    ensures RestUnsplit(cfg, PerformTodo(cfg, s, rows))
  {
    hide RowsFill, NoMarks;
    ReleasedFills(s.out, s.marks, rows, s.received);
  }

  lemma ReleasedFills(out: seq<Item>, chunk: nat, rows: nat, pos: nat)
    ensures var all := out + Released(chunk, rows, pos);
            RowsFill(all, |out|, |all| - 1) && NoMarks(all, |out|, |all| - 1)
  {
    var all := out + Released(chunk, rows, pos);
    assert all[|all| - 1] == Mark(chunk, rows, pos) && forall i :: 0 <= i < rows ==> all[|out| + i] == Row(chunk, i);
    assert RowsPrecede(all, |all| - 1);
  }

  lemma EventsSame(s: Session, s': Session, more: seq<Item>)
    requires s'.out == s.out + more && s'.worker == s.worker && s.worker.Handled? && Sealed(s.out, s.worker.d)
    ensures Events(s', s.worker.d) == Events(s, s.worker.d)
  {
    assert s'.out[s.worker.d.from..s.worker.d.to] == s.out[s.worker.d.from..s.worker.d.to];
  }

  lemma UnsplitReceive(cfg: Config, s: Session, msg: Message, ack: nat)
    requires Unsplit(cfg, s) && LoopFree(s) && ServerMaySend(s, msg)
    ensures Unsplit(cfg, ReceiveMessage(s, msg, ack))
  {
    hide MarksComplete, Line;
    var s' := ReceiveMessage(s, msg, ack);
    LineSame(s, s');
    if msg.Changes? {
      var more := LiveItems(s.received, msg.count);
      SealedGrows(s.out, more, Line(s));
      if s.worker.Handled? { SealedGrowsOne(s.out, more, s.worker.d); EventsSame(s, s', more); }
    }
  }

  lemma UnsplitSucceed(cfg: Config, s: Session)
    requires Unsplit(cfg, s) && s.worker.Delivering?
    ensures Unsplit(cfg, SessionStep(cfg, s, Succeed))
  {
    hide MarksComplete, RowsPrecede, Line;
    var s' := SessionStep(cfg, s, Succeed);
    var d := s.worker.d;
    LineHead(cfg, s);
    assert ([d] + Line(s'))[0] == d && Sealed(s.out, d);
    assert forall i :: 0 <= i < |Line(s')| ==> Line(s')[i] == ([d] + Line(s'))[i + 1];
    HandledNoMarks(s.handled, Events(s, d));
  }

  lemma UnsplitReport(cfg: Config, s: Session)
    requires Unsplit(cfg, s) && s.worker.Handled?
    ensures Unsplit(cfg, SessionStep(cfg, s, Report))
  {
    hide MarksComplete, RowsPrecede, Line, AllSealed;
    SameLine(cfg, s, Report);
    var d := s.worker.d;
    if d.mark {
      ReportComplete(s.handled, s.out, d);
      assert MarkItems(s, d) == [s.out[d.to]];
    } else {
      assert SessionStep(cfg, s, Report).handled == s.handled;
    }
  }

  lemma UnsplitHandOver(cfg: Config, s: Session, step: Step)
    requires Unsplit(cfg, s) && EnabledIn(cfg, s, step)
    requires step.Push? || step.Take? || step.Fail? || step.Confirm? || step.Finish?
    ensures Unsplit(cfg, SessionStep(cfg, s, step))
  {
    hide MarksComplete, Line, Sealed;
    SameLine(cfg, s, step);
  }

  lemma UnsplitLoop(cfg: Config, s: Session, step: Step)
    requires Unsplit(cfg, s) && EnabledIn(cfg, s, step) && (step.ConfirmIdle? || (step.Linger? && s.todo.Nothing?))
    ensures Unsplit(cfg, SessionStep(cfg, s, step))
  {
    hide MarksComplete, Line, RowsPrecede;
    var s' := SessionStep(cfg, s, step);
    if step.ConfirmIdle? { LineSame(s, s'); } else { LineGrows(s, s', s'.blocked.value); }
  }

  /** Leaving the loop drops the unit being enqueued; the drain drops the head of the queue. */
  lemma UnsplitDrop(cfg: Config, s: Session, step: Step)
    requires Unsplit(cfg, s) && EnabledIn(cfg, s, step) && (step.Teardown? || step.Drain?)
    ensures Unsplit(cfg, SessionStep(cfg, s, step))
  {
    hide MarksComplete, Sealed;
    var s' := SessionStep(cfg, s, step);
    forall i | 0 <= i < |Line(s')| ensures Sealed(s.out, Line(s')[i]) {
      assert Line(s')[i] in Line(s);
    }
  }

  ghost predicate UnsplitState(cfg: Config, st: State) {
    st.session.Some? ==> Unsplit(cfg, st.session.value)
  }

  lemma UnsplitStep(cfg: Config, st: State, step: Step)
    requires cfg.chunkRows <= cfg.maxBatch && UnsplitState(cfg, st) && Enabled(cfg, st, step)
    ensures UnsplitState(cfg, Apply(cfg, st, step))
  {
    if step.Connect? {
      assert Line(Apply(cfg, st, step).session.value) == [];
    } else if !step.Disconnect? && !step.Tell? {
      hide Unsplit;
      var s := st.session.value;
      match step
      case Receive(msg) => UnsplitReceive(cfg, s, msg, AckOf(st.inTxn, msg));
      case Perform(rows) => UnsplitPerform(cfg, s, rows);
      case Succeed => UnsplitSucceed(cfg, s);
      case Report => UnsplitReport(cfg, s);
      case Linger => UnsplitLoop(cfg, s, step);
      case ConfirmIdle => UnsplitLoop(cfg, s, step);
      case Teardown => UnsplitDrop(cfg, s, step);
      case Drain => UnsplitDrop(cfg, s, step);
      case _ => UnsplitHandOver(cfg, s, step);
    }
  }

  lemma {:induction false} UnsplitRun(cfg: Config, trace: seq<Step>)
    requires cfg.chunkRows <= cfg.maxBatch
    ensures var r := Exec(cfg, trace); r.Some? ==> UnsplitState(cfg, r.value)
  {
    hide UnsplitState;
    if trace == [] {
      UnsplitInit(cfg);
    } else {
      UnsplitRun(cfg, trace[..|trace| - 1]);
      var before := Exec(cfg, trace[..|trace| - 1]);
      var step := trace[|trace| - 1];
      if before.Some? && Enabled(cfg, before.value, step) { UnsplitStep(cfg, before.value, step); }
    }
  }

  lemma UnsplitInit(cfg: Config)
    ensures UnsplitState(cfg, INIT)
  {}

  lemma Next(cfg: Config, st: State, step: Step) returns (st': State)
    requires Reachable(cfg, st) && Enabled(cfg, st, step)
    ensures st' == Apply(cfg, st, step) && Reachable(cfg, st')
  {
    ReachStep(cfg, st, step);
    st' := Apply(cfg, st, step);
  }

  /** Both pieces of a chunk of one row more than a batch wait in the queue. */
  lemma SplitChunkQueued(cfg: Config) returns (st: State)
    requires 1 <= cfg.maxBatch < cfg.chunkRows
    ensures Reachable(cfg, st) && st.session.Some?
    ensures var s, rows := st.session.value, cfg.maxBatch + 1;
            && !s.closing && s.worker.Idle? && s.handled == [] && s.out == Released(0, rows, 0)
            && s.queue == [Delivery(0, cfg.maxBatch, 0, false), Delivery(cfg.maxBatch, rows, 0, true)]
  {
    hide Reachable, Released;
    st := SplitChunkReleased(cfg);
    st := Next(cfg, st, Perform(0));
    st := Next(cfg, st, Push);
    st := Next(cfg, st, Perform(0));
    st := Next(cfg, st, Push);
  }

  lemma WatermarkArrives(cfg: Config) returns (st: State)
    ensures Reachable(cfg, st) && st.session.Some?
    ensures var s := st.session.value;
            && !s.closing && s.worker.Idle? && s.handled == [] && s.out == [] && s.marks == 0 && s.received == 0
            && s.todo.Flushing? && s.next == 0 && s.open == 0 && s.queue == [] && s.blocked.None?
            && s.pendingAck == 0 && s.outstanding == 0 && s.client == 0 && !s.serverInTxn && st.told == 0 && !st.inTxn
  {
    assert Reachable(cfg, INIT) by { assert Exec(cfg, []) == Some(INIT); }
    hide Reachable;
    st := Next(cfg, INIT, Connect(0));
    st := Next(cfg, st, Receive(Watermark));
  }

  lemma SplitChunkReleased(cfg: Config) returns (st: State)
    requires 1 <= cfg.maxBatch < cfg.chunkRows
    ensures Reachable(cfg, st) && st.session.Some?
    ensures var s, rows := st.session.value, cfg.maxBatch + 1;
            && !s.closing && s.worker.Idle? && s.handled == [] && s.out == Released(0, rows, 0)
            && s.todo.Sending? && s.next == 0 && s.queue == [] && s.blocked.None?
  {
    hide Reachable, Released;
    st := WatermarkArrives(cfg);
    st := Next(cfg, st, Perform(0));
    st := Next(cfg, st, Perform(cfg.maxBatch + 1));
    assert st.session.value.out == [] + Released(0, cfg.maxBatch + 1, 0);
  }

  /** A run in which such a chunk is reported delivered although its first piece was dropped:
      teardown drains the first piece while the delivery goroutine takes the second, which
      carries the watermark. */
  lemma SplitChunkLosesRows(cfg: Config) returns (st: State)
    requires 1 <= cfg.maxBatch < cfg.chunkRows
    ensures Reachable(cfg, st) && st.session.Some? && !MarksComplete(st.session.value.handled)
    ensures st.session.value.handled == [Row(0, cfg.maxBatch), Mark(0, cfg.maxBatch + 1, 0)]
  {
    hide Reachable;
    st := SplitChunkQueued(cfg);
    st := Next(cfg, st, Teardown);
    st := Next(cfg, st, Drain);
    st := Next(cfg, st, Take);
    st := Next(cfg, st, Succeed);
    st := Next(cfg, st, Report);
    var handled := st.session.value.handled;
    assert handled == [Row(0, cfg.maxBatch), Mark(0, cfg.maxBatch + 1, 0)];
    assert handled[..1] == [Row(0, cfg.maxBatch)] && Row(0, 0) !in handled[..1];
    assert !MarkComplete(handled, 1);
  }

  /** Watermark reports can be trusted across teardowns exactly when the backfill's chunks fit
      into one batch. */
  lemma ReportsSoundIffChunksFit(cfg: Config)
    requires cfg.maxBatch >= 1
    ensures ReportsSound(cfg) <==> cfg.chunkRows <= cfg.maxBatch
  {
    if cfg.chunkRows <= cfg.maxBatch {
      forall st | Reachable(cfg, st) && st.session.Some? ensures MarksComplete(st.session.value.handled) {
        var trace :| Exec(cfg, trace) == Some(st);
        UnsplitRun(cfg, trace);
      }
    } else {
      var st := SplitChunkLosesRows(cfg);
    }
  }
}
