/**
  The backfill queue: requests that put tables in it, lanes that take them out, the wake channel
  between them, and the rows that make a crash harmless.
*/
module LaneQueue {
  import opened Prelude

  type Table = string

  /** What a lane's goroutine is about to do. `finished` says its table's completion was recorded. */
  datatype Lane = Popping | Waiting | Running(table: Table, finished: bool) | Stopped

  /** A request found its tables idle, then marked them pending, then queues them. */
  datatype Request = Idle | Checked(tables: seq<Table>) | Marked(tables: seq<Table>)

  /** `rows` tells of each persisted table whether it is done; `failed` is history: the tables whose
      last MarkPending failed. */
  datatype State = State(
    queue: seq<Table>, running: set<Table>, wake: nat, lanes: seq<Lane>,
    requests: seq<Request>, rows: map<Table, bool>, failed: set<Table>)

  datatype Step =
    | Check(r: nat, tables: seq<Table>) | Mark(r: nat, ok: bool) | Enqueue(r: nat)
    | Pop(l: nat) | Wake(l: nat) | Complete(l: nat, ok: bool) | Leave(l: nat) | Stop(l: nat)
    | Crash(order: seq<Table>)

  // ---------------------------------------------------------------- the locked operations

  predicate Busy(queue: seq<Table>, running: set<Table>, t: Table) { t in running || t in queue }

  function Signalled(wake: nat, lanes: nat): nat { if wake < lanes then wake + 1 else wake }

  /** The locked loop that ends every request: queue each table that is not busy by now. */
  function Queued(queue: seq<Table>, running: set<Table>, wake: nat, lanes: nat, tables: seq<Table>): (seq<Table>, nat)
    decreases |tables|
  {
    if tables == [] then (queue, wake)
    else if Busy(queue, running, tables[0]) then Queued(queue, running, wake, lanes, tables[1..])
    else Queued(queue + [tables[0]], running, Signalled(wake, lanes), lanes, tables[1..])
  }

  function Rows(rows: map<Table, bool>, tables: seq<Table>): map<Table, bool> {
    rows + map t | t in tables :: false
  }

  class Coordinator {
    var queue: seq<Table>
    var running: set<Table>
    var wake: nat
    const lanes: nat

    constructor (lanes: nat)
      ensures this.lanes == lanes && queue == [] && running == {} && wake == 0
    {
      this.lanes := lanes;
      queue, running, wake := [], {}, 0;
    }

    predicate BusyLocked(t: Table)
      reads this
    {
      Busy(queue, running, t)
    }

    method EnqueueLocked(t: Table)
      modifies this
      ensures queue == old(queue) + [t] && wake == Signalled(old(wake), lanes) && running == old(running)
    {
      queue := queue + [t];
      if wake < lanes { wake := wake + 1; }
    }

    /** The candidates of EnqueueAll and ReplayAll among the published tables: those that are neither
        excluded nor unwanted nor busy, and for EnqueueAll not done either (`done` is empty for
        ReplayAll). */
    method Candidates(tables: seq<Table>, eligible: Table -> bool, done: set<Table>) returns (idle: seq<Table>)
      ensures forall t :: t in idle <==> t in tables && eligible(t) && !BusyLocked(t) && t !in done
    {
      idle := [];
      for i := 0 to |tables|
        invariant forall t :: t in idle <==> t in tables[..i] && eligible(t) && !BusyLocked(t) && t !in done
      {
        assert tables[..i + 1] == tables[..i] + [tables[i]];
        if eligible(tables[i]) && !BusyLocked(tables[i]) && tables[i] !in done { idle := idle + [tables[i]]; }
      }
      assert tables[..|tables|] == tables;
    }

    method EnqueueTables(tables: seq<Table>) returns (queued: nat)
      modifies this
      ensures (queue, wake) == Queued(old(queue), old(running), old(wake), lanes, tables) && running == old(running)
      ensures |queue| == |old(queue)| + queued
    {
      queued := 0;
      var i := 0;
      while i < |tables|
        invariant 0 <= i <= |tables| && running == old(running) && |queue| == |old(queue)| + queued
        invariant Queued(old(queue), running, old(wake), lanes, tables) == Queued(queue, running, wake, lanes, tables[i..])
      {
        if !BusyLocked(tables[i]) {
          EnqueueLocked(tables[i]);
          queued := queued + 1;
        }
        i := i + 1;
      }
    }

    method PopTable() returns (t: Option<Table>)
      modifies this
      ensures wake == old(wake)
      ensures if old(queue) == [] then t == None && queue == [] && running == old(running)
              else t == Some(old(queue)[0]) && queue == old(queue)[1..] && running == old(running) + {old(queue)[0]}
    {
      if |queue| == 0 { return None; }
      t := Some(queue[0]);
      running := running + {queue[0]};
      queue := queue[1..];
    }
  }

  // ---------------------------------------------------------------- runs

  /** The number of lanes, the number of requests that may be open at a time, the tables that are
      neither excluded nor unwanted by every sink, and which of them each request may ask for. */
  datatype Config = Config(lanes: nat, requests: nat, eligible: Table -> bool, asks: (nat, Table) -> bool)

  function Initial(cfg: Config): State {
    State([], {}, 0, seq(cfg.lanes, _ => Popping), seq(cfg.requests, _ => Idle), map[], {})
  }

  /** The tables a restarted process resumes. */
  ghost predicate Unfinished(cfg: Config, rows: map<Table, bool>, order: seq<Table>) {
    && (forall i, j :: 0 <= i < j < |order| ==> order[i] != order[j])
    && (forall t :: t in order <==> t in rows && !rows[t] && cfg.eligible(t))
  }

  ghost predicate Enabled(cfg: Config, s: State, step: Step) {
    match step
    case Check(r, tables) =>
      && r < |s.requests| && s.requests[r].Idle?
      && forall t | t in tables :: cfg.eligible(t) && cfg.asks(r, t) && !Busy(s.queue, s.running, t)
    case Mark(r, _) => r < |s.requests| && s.requests[r].Checked?
    case Enqueue(r) => r < |s.requests| && s.requests[r].Marked?
    case Pop(l) => l < |s.lanes| && s.lanes[l].Popping?
    case Wake(l) => l < |s.lanes| && s.lanes[l].Waiting? && s.wake > 0
    case Complete(l, _) => l < |s.lanes| && s.lanes[l].Running? && !s.lanes[l].finished
    case Leave(l) => l < |s.lanes| && s.lanes[l].Running?
    case Stop(l) => l < |s.lanes| && (s.lanes[l].Waiting? || s.lanes[l].Running?)
    case Crash(order) => Unfinished(cfg, s.rows, order)
  }

  function AfterPop(s: State, l: nat): State
    requires l < |s.lanes|
  {
    if s.queue == [] then s.(lanes := s.lanes[l := Waiting])
    else s.(queue := s.queue[1..], running := s.running + {s.queue[0]}, lanes := s.lanes[l := Running(s.queue[0], false)])
  }

  function AfterLeave(s: State, l: nat, next: Lane): State
    requires l < |s.lanes|
  {
    s.(running := if s.lanes[l].Running? then s.running - {s.lanes[l].table} else s.running, lanes := s.lanes[l := next])
  }

  function Next(cfg: Config, s: State, step: Step): State
    requires Enabled(cfg, s, step)
  {
    match step
    case Check(r, tables) => s.(requests := s.requests[r := Checked(tables)])
    case Mark(r, ok) =>
      s.(requests := s.requests[r := Marked(s.requests[r].tables)],
         rows := if ok then Rows(s.rows, s.requests[r].tables) else s.rows,
         failed := if ok then s.failed - (set t | t in s.requests[r].tables) else s.failed + set t | t in s.requests[r].tables)
    case Enqueue(r) =>
      var q := Queued(s.queue, s.running, s.wake, |s.lanes|, s.requests[r].tables);
      s.(queue := q.0, wake := q.1, requests := s.requests[r := Idle])
    case Pop(l) => AfterPop(s, l)
    case Wake(l) => s.(wake := s.wake - 1, lanes := s.lanes[l := Popping])
    case Complete(l, ok) =>
      s.(lanes := s.lanes[l := Running(s.lanes[l].table, true)], rows := if ok then s.rows[s.lanes[l].table := true] else s.rows)
    case Leave(l) => AfterLeave(s, l, Popping)
    case Stop(l) => AfterLeave(s, l, Stopped)
    case Crash(order) =>
      State(order, {}, Min(|order|, |s.lanes|), seq(|s.lanes|, _ => Popping), seq(|s.requests|, _ => Idle), s.rows, {})
  }

  ghost function Exec(cfg: Config, trace: seq<Step>): Option<State> {
    if trace == [] then Some(Initial(cfg))
    else
      var before, step := Exec(cfg, trace[..|trace| - 1]), trace[|trace| - 1];
      if before.Some? && Enabled(cfg, before.value, step) then Some(Next(cfg, before.value, step)) else None
  }

  ghost predicate Reachable(cfg: Config, s: State) { exists trace :: Exec(cfg, trace) == Some(s) }

  lemma OneMore(cfg: Config, s: State, step: Step) returns (s': State)
    requires Reachable(cfg, s) && Enabled(cfg, s, step)
    ensures s' == Next(cfg, s, step) && Reachable(cfg, s')
  {
    hide Enabled, Next;
    var trace :| Exec(cfg, trace) == Some(s);
    s' := Next(cfg, s, step);
    assert (trace + [step])[..|trace|] == trace;
    assert Exec(cfg, trace + [step]) == Some(s');
  }

  // ---------------------------------------------------------------- each table in one place

  ghost predicate Distinct(queue: seq<Table>) { forall i, j :: 0 <= i < j < |queue| ==> queue[i] != queue[j] }

  /** No table is queued twice, or queued and running, or run by two lanes. */
  ghost predicate OnePlace(s: State) {
    && Distinct(s.queue)
    && (forall t | t in s.queue :: t !in s.running)
    && (forall l :: 0 <= l < |s.lanes| && s.lanes[l].Running? ==> s.lanes[l].table in s.running)
    && (forall t | t in s.running :: exists l :: 0 <= l < |s.lanes| && s.lanes[l].Running? && s.lanes[l].table == t)
    && (forall l, m :: 0 <= l < m < |s.lanes| && s.lanes[l].Running? && s.lanes[m].Running? ==>
          s.lanes[l].table != s.lanes[m].table)
  }

  lemma {:induction false} QueuedKeeps(queue: seq<Table>, running: set<Table>, wake: nat, lanes: nat, tables: seq<Table>)
    requires Distinct(queue) && forall t | t in queue :: t !in running
    ensures var q := Queued(queue, running, wake, lanes, tables);
            && Distinct(q.0) && (forall t | t in q.0 :: t !in running)
            && (forall t | t in queue :: t in q.0) && (forall t | t in q.0 :: t in queue || t in tables)
            && |q.0| >= |queue| && (wake <= lanes ==> q.1 <= lanes)
    decreases |tables|
  {
    if tables == [] {
    } else {
      if Busy(queue, running, tables[0]) {
        QueuedKeeps(queue, running, wake, lanes, tables[1..]);
      } else {
        QueuedKeeps(queue + [tables[0]], running, Signalled(wake, lanes), lanes, tables[1..]);
      }
    }
  }

  /** The queue keeps what it held, in its place, and every table asked for is then queued or running;
      each table queued sends one wake token, while the channel has room. */
  lemma {:induction false} QueuedMeans(queue: seq<Table>, running: set<Table>, wake: nat, lanes: nat, tables: seq<Table>)
    requires wake <= lanes
    ensures var q := Queued(queue, running, wake, lanes, tables);
            && queue <= q.0 && (forall t :: t in q.0 <==> t in queue || (t in tables && t !in running))
            && q.1 == Min(wake + |q.0| - |queue|, lanes)
    decreases |tables|
  {
    if tables == [] {
    } else {
      assert forall t :: t in tables <==> t == tables[0] || t in tables[1..];
      if Busy(queue, running, tables[0]) {
        QueuedMeans(queue, running, wake, lanes, tables[1..]);
      } else {
        QueuedMeans(queue + [tables[0]], running, Signalled(wake, lanes), lanes, tables[1..]);
      }
    }
  }

  /** Idle tables are queued in the order they are asked for. */
  lemma {:induction false} QueuedInOrder(queue: seq<Table>, running: set<Table>, wake: nat, lanes: nat, tables: seq<Table>)
    requires Distinct(tables) && forall i :: 0 <= i < |tables| ==> !Busy(queue, running, tables[i])
    ensures Queued(queue, running, wake, lanes, tables).0 == queue + tables
    decreases |tables|
  {
    if tables == [] {
    } else {
      var rest := tables[1..];
      assert forall i :: 0 <= i < |rest| ==> rest[i] == tables[i + 1];
      QueuedInOrder(queue + [tables[0]], running, Signalled(wake, lanes), lanes, rest);
      assert queue + [tables[0]] + rest == queue + tables;
    }
  }

  lemma PopKeepsPlace(s: State, l: nat)
    requires OnePlace(s) && l < |s.lanes| && s.lanes[l].Popping?
    ensures OnePlace(AfterPop(s, l))
  {
    if s.queue != [] {
      var s' := AfterPop(s, l);
      forall t | t in s'.running ensures exists m :: 0 <= m < |s'.lanes| && s'.lanes[m].Running? && s'.lanes[m].table == t {
        if t == s.queue[0] {
          assert s'.lanes[l].Running? && s'.lanes[l].table == t;
        } else {
          var m :| 0 <= m < |s.lanes| && s.lanes[m].Running? && s.lanes[m].table == t;
          assert s'.lanes[m] == s.lanes[m];
        }
      }
      forall t | t in s'.queue ensures t !in s'.running {
        var i :| 0 <= i < |s'.queue| && s'.queue[i] == t;
        assert t == s.queue[i + 1];
      }
    } else {
      RelabelKeepsPlace(s, l, Waiting);
    }
  }

  lemma RelabelKeepsPlace(s: State, l: nat, lane: Lane)
    requires OnePlace(s) && l < |s.lanes|
    requires if s.lanes[l].Running? then lane.Running? && lane.table == s.lanes[l].table else !lane.Running?
    ensures OnePlace(s.(lanes := s.lanes[l := lane]))
  {
    var s' := s.(lanes := s.lanes[l := lane]);
    forall t | t in s'.running ensures exists m :: 0 <= m < |s'.lanes| && s'.lanes[m].Running? && s'.lanes[m].table == t {
      var m :| 0 <= m < |s.lanes| && s.lanes[m].Running? && s.lanes[m].table == t;
      assert s'.lanes[m].Running? && s'.lanes[m].table == t;
    }
  }

  lemma LeaveKeepsPlace(s: State, l: nat, next: Lane)
    requires OnePlace(s) && l < |s.lanes| && !next.Running?
    ensures OnePlace(AfterLeave(s, l, next))
  {
    var s' := AfterLeave(s, l, next);
    forall t | t in s'.running ensures exists m :: 0 <= m < |s'.lanes| && s'.lanes[m].Running? && s'.lanes[m].table == t {
      var m :| 0 <= m < |s.lanes| && s.lanes[m].Running? && s.lanes[m].table == t;
      assert s'.lanes[m] == s.lanes[m];
    }
  }

  lemma PlaceKeeps(cfg: Config, s: State, step: Step)
    requires OnePlace(s) && Enabled(cfg, s, step)
    ensures OnePlace(Next(cfg, s, step))
  {
    match step
    case Enqueue(r) => QueuedKeeps(s.queue, s.running, s.wake, |s.lanes|, s.requests[r].tables);
    case Pop(l) => PopKeepsPlace(s, l);
    case Wake(l) => RelabelKeepsPlace(s, l, Popping);
    case Complete(l, _) => RelabelKeepsPlace(s, l, Running(s.lanes[l].table, true));
    case Leave(l) => LeaveKeepsPlace(s, l, Popping);
    case Stop(l) => LeaveKeepsPlace(s, l, Stopped);
    case _ =>
  }

  // ---------------------------------------------------------------- waking

  function Poppers(lanes: seq<Lane>): nat {
    if lanes == [] then 0 else Poppers(lanes[..|lanes| - 1]) + if lanes[|lanes| - 1].Popping? then 1 else 0
  }

  function Waiters(lanes: seq<Lane>): nat {
    if lanes == [] then 0 else Waiters(lanes[..|lanes| - 1]) + if lanes[|lanes| - 1].Waiting? then 1 else 0
  }

  lemma {:induction false} Relabelled(lanes: seq<Lane>, l: nat, lane: Lane)
    requires l < |lanes|
    ensures Poppers(lanes[l := lane]) == Poppers(lanes) - (if lanes[l].Popping? then 1 else 0) + (if lane.Popping? then 1 else 0)
    ensures Waiters(lanes[l := lane]) == Waiters(lanes) - (if lanes[l].Waiting? then 1 else 0) + (if lane.Waiting? then 1 else 0)
  {
    var n := |lanes| - 1;
    if l < n {
      assert lanes[l := lane][..n] == lanes[..n][l := lane];
      Relabelled(lanes[..n], l, lane);
    } else {
      assert lanes[l := lane][..n] == lanes[..n];
    }
  }

  lemma {:induction false} Counts(lanes: seq<Lane>)
    ensures Poppers(lanes) + Waiters(lanes) <= |lanes|
    ensures (forall i :: 0 <= i < |lanes| ==> lanes[i].Popping?) ==> Poppers(lanes) == |lanes|
    ensures Poppers(lanes) > 0 ==> exists i :: 0 <= i < |lanes| && lanes[i].Popping?
    ensures (exists i :: 0 <= i < |lanes| && lanes[i].Waiting?) ==> Waiters(lanes) > 0
  {
    if lanes == [] {
    } else {
      var n := |lanes| - 1;
      Counts(lanes[..n]);
      if Poppers(lanes[..n]) > 0 {
        var i :| 0 <= i < n && lanes[..n][i].Popping?;
        assert lanes[i].Popping?;
      }
      if i :| 0 <= i < |lanes| && lanes[i].Waiting? {
        if i < n { assert lanes[..n][i].Waiting?; }
      }
    }
  }

  /** Of the queued tables that no lane is already on its way to pop, each has a wake token, up to
      one for every waiting lane. */
  ghost predicate Awake(queued: nat, lanes: seq<Lane>, wake: nat) {
    Min(queued - Poppers(lanes), Waiters(lanes)) <= wake <= |lanes|
  }

  lemma {:induction false} QueuedAwake(queue: seq<Table>, running: set<Table>, wake: nat, lanes: seq<Lane>, tables: seq<Table>)
    requires Awake(|queue|, lanes, wake)
    ensures var q := Queued(queue, running, wake, |lanes|, tables); Awake(|q.0|, lanes, q.1)
    decreases |tables|
  {
    Counts(lanes);
    if tables == [] {
    } else {
      hide Poppers, Waiters;
      if Busy(queue, running, tables[0]) {
        QueuedAwake(queue, running, wake, lanes, tables[1..]);
      } else {
        QueuedAwake(queue + [tables[0]], running, Signalled(wake, |lanes|), lanes, tables[1..]);
      }
    }
  }

  lemma AwakeKeeps(cfg: Config, s: State, step: Step)
    requires Awake(|s.queue|, s.lanes, s.wake) && Enabled(cfg, s, step)
    ensures var s' := Next(cfg, s, step); Awake(|s'.queue|, s'.lanes, s'.wake)
  {
    hide Poppers, Waiters, Queued;
    match step
    case Enqueue(r) => QueuedAwake(s.queue, s.running, s.wake, s.lanes, s.requests[r].tables);
    case Pop(l) => Relabelled(s.lanes, l, AfterPop(s, l).lanes[l]);
    case Wake(l) => Relabelled(s.lanes, l, Popping);
    case Complete(l, _) => Relabelled(s.lanes, l, Running(s.lanes[l].table, true));
    case Leave(l) => Relabelled(s.lanes, l, Popping);
    case Stop(l) => Relabelled(s.lanes, l, Stopped);
    case Crash(_) => Counts(seq(|s.lanes|, _ => Popping));
    case _ =>
  }

  // ---------------------------------------------------------------- persisted rows

  predicate Pending(rows: map<Table, bool>, t: Table) { t in rows && !rows[t] }

  /** Every queued table and every running one that is not finished has a row that is not done, unless
      its last MarkPending failed. */
  ghost predicate Safe(s: State) {
    && (forall t | t in s.queue && t !in s.failed :: Pending(s.rows, t))
    && (forall l :: 0 <= l < |s.lanes| && s.lanes[l].Running? && !s.lanes[l].finished && s.lanes[l].table !in s.failed ==>
          Pending(s.rows, s.lanes[l].table))
  }

  ghost predicate RequestOk(s: State, q: Request) {
    && (!q.Idle? ==> forall t | t in q.tables :: !Busy(s.queue, s.running, t))
    && (q.Marked? ==> forall t | t in q.tables && t !in s.failed :: Pending(s.rows, t))
  }

  predicate Share(q: Request, r: Request) { !q.Idle? && !r.Idle? && exists t :: t in q.tables && t in r.tables }

  /** No two open requests are for the same table. */
  ghost predicate Apart(s: State) { forall q, r :: 0 <= q < r < |s.requests| ==> !Share(s.requests[q], s.requests[r]) }

  ghost predicate Persisted(s: State) {
    (forall r :: 0 <= r < |s.requests| ==> RequestOk(s, s.requests[r])) && Safe(s)
  }

  lemma PersistedKeeps(cfg: Config, s: State, step: Step)
    requires OnePlace(s) && Apart(s) && Persisted(s) && Enabled(cfg, s, step)
    ensures Persisted(Next(cfg, s, step))
  {
    hide Queued;
    match step
    case Enqueue(r) => EnqueueKeepsRows(cfg, s, r);
    case Complete(l, ok) => CompleteKeepsRows(cfg, s, l, ok);
    case Mark(r, ok) => MarkKeepsRows(cfg, s, r, ok);
    case _ =>
  }

  lemma NotShared(s: State, q: nat, r: nat, t: Table)
    requires Apart(s) && q < |s.requests| && r < |s.requests| && q != r && !s.requests[q].Idle? && !s.requests[r].Idle?
    requires t in s.requests[q].tables
    ensures t !in s.requests[r].tables
  {
    assert !Share(s.requests[q], s.requests[r]) || !Share(s.requests[r], s.requests[q]);
  }

  lemma EnqueueKeepsRows(cfg: Config, s: State, r: nat)
    requires OnePlace(s) && Apart(s) && Persisted(s) && Enabled(cfg, s, Enqueue(r))
    ensures Persisted(Next(cfg, s, Enqueue(r)))
  {
    hide Queued, Apart;
    var s' := Next(cfg, s, Enqueue(r));
    assert RequestOk(s, s.requests[r]);
    QueuedKeeps(s.queue, s.running, s.wake, |s.lanes|, s.requests[r].tables);
    forall q | 0 <= q < |s'.requests| ensures RequestOk(s', s'.requests[q]) {
      assert RequestOk(s, s.requests[q]);
      if q != r && !s.requests[q].Idle? {
        forall t | t in s.requests[q].tables ensures !Busy(s'.queue, s'.running, t) { NotShared(s, q, r, t); }
      }
    }
  }

  lemma MarkKeepsRows(cfg: Config, s: State, r: nat, ok: bool)
    requires OnePlace(s) && Apart(s) && Persisted(s) && Enabled(cfg, s, Mark(r, ok))
    ensures Persisted(Next(cfg, s, Mark(r, ok)))
  {
    hide OnePlace, Apart;
    var s' := Next(cfg, s, Mark(r, ok));
    forall t | t in s.rows && t !in s.requests[r].tables ensures t in s'.rows && s'.rows[t] == s.rows[t] {}
    assert RequestOk(s, s.requests[r]);
    forall t | t in s.requests[r].tables ensures !Busy(s.queue, s.running, t) {}
    forall q | 0 <= q < |s'.requests| ensures RequestOk(s', s'.requests[q]) {
      assert RequestOk(s, s.requests[q]);
      if q != r && s.requests[q].Marked? {
        forall t | t in s.requests[q].tables && t !in s'.failed ensures Pending(s'.rows, t) { NotShared(s, q, r, t); }
      }
    }
    assert Safe(s') by { MarkIsSafe(cfg, s, r, ok); }
  }

  lemma MarkIsSafe(cfg: Config, s: State, r: nat, ok: bool)
    requires OnePlace(s) && Safe(s) && Enabled(cfg, s, Mark(r, ok)) && RequestOk(s, s.requests[r])
    ensures Safe(Next(cfg, s, Mark(r, ok)))
  {
    var s' := Next(cfg, s, Mark(r, ok));
    forall t | t in s.rows && t !in s.requests[r].tables ensures t in s'.rows && s'.rows[t] == s.rows[t] {}
    forall t | t in s.requests[r].tables ensures !Busy(s.queue, s.running, t) {}
  }

  lemma CompleteKeepsRows(cfg: Config, s: State, l: nat, ok: bool)
    requires OnePlace(s) && Persisted(s) && Enabled(cfg, s, Complete(l, ok))
    ensures Persisted(Next(cfg, s, Complete(l, ok)))
  {
    var t := s.lanes[l].table;
    assert t in s.running;
    assert forall m :: 0 <= m < |s.lanes| && m != l && s.lanes[m].Running? ==> s.lanes[m].table != t;
  }

  /** Only eligible tables are queued or run, and an open request is for eligible tables it may ask
      for. */
  ghost predicate Asked(cfg: Config, s: State) {
    && (forall t | t in s.queue :: cfg.eligible(t))
    && (forall l :: 0 <= l < |s.lanes| && s.lanes[l].Running? ==> cfg.eligible(s.lanes[l].table))
    && (forall r: nat, t | r < |s.requests| && !s.requests[r].Idle? && t in s.requests[r].tables :: cfg.eligible(t) && cfg.asks(r, t))
  }

  lemma AskedKeeps(cfg: Config, s: State, step: Step)
    requires OnePlace(s) && Asked(cfg, s) && Enabled(cfg, s, step)
    ensures Asked(cfg, Next(cfg, s, step))
  {
    hide Queued;
    match step
    case Enqueue(r) => QueuedKeeps(s.queue, s.running, s.wake, |s.lanes|, s.requests[r].tables);
    case _ =>
  }

  // ---------------------------------------------------------------- the theorems

  ghost predicate Good(cfg: Config, s: State) {
    && |s.lanes| == cfg.lanes && |s.requests| == cfg.requests
    && OnePlace(s) && Asked(cfg, s) && Awake(|s.queue|, s.lanes, s.wake)
  }

  lemma InitialGood(cfg: Config)
    ensures Good(cfg, Initial(cfg))
  {
    Counts(Initial(cfg).lanes);
  }

  lemma {:induction false} RunGood(cfg: Config, trace: seq<Step>)
    ensures var r := Exec(cfg, trace); r.Some? ==> Good(cfg, r.value)
  {
    if trace == [] {
      InitialGood(cfg);
    } else {
      hide OnePlace, Asked, Awake, Enabled, Next;
      RunGood(cfg, trace[..|trace| - 1]);
      var before, step := Exec(cfg, trace[..|trace| - 1]), trace[|trace| - 1];
      if before.Some? && Enabled(cfg, before.value, step) {
        SameSizes(cfg, before.value, step);
        PlaceKeeps(cfg, before.value, step);
        AwakeKeeps(cfg, before.value, step);
        AskedKeeps(cfg, before.value, step);
      }
    }
  }

  lemma SameSizes(cfg: Config, s: State, step: Step)
    requires Enabled(cfg, s, step)
    ensures |Next(cfg, s, step).lanes| == |s.lanes| && |Next(cfg, s, step).requests| == |s.requests|
  {
    hide Queued;
  }

  lemma AlwaysGood(cfg: Config, s: State)
    requires Reachable(cfg, s)
    ensures Good(cfg, s)
  {
    hide Good;
    var trace :| Exec(cfg, trace) == Some(s);
    RunGood(cfg, trace);
  }

  /** In every run no table is queued twice, or queued and running, or run by two lanes. */
  lemma EachTableInOnePlace(cfg: Config, s: State)
    requires Reachable(cfg, s)
    ensures forall i, j :: 0 <= i < j < |s.queue| ==> s.queue[i] != s.queue[j]
    ensures forall i, l :: 0 <= i < |s.queue| && 0 <= l < |s.lanes| && s.lanes[l].Running? ==> s.queue[i] != s.lanes[l].table
    ensures forall l, m :: 0 <= l < m < |s.lanes| && s.lanes[l].Running? && s.lanes[m].Running? ==>
              s.lanes[l].table != s.lanes[m].table
  {
    hide Reachable, Awake, Asked;
    AlwaysGood(cfg, s);
  }

  /** In every run, while a table is queued some lane is going to pop, or runs a table and pops after
      it, or waits with a token in the wake channel; unless all lanes have stopped. */
  lemma SomeLaneWillPop(cfg: Config, s: State)
    requires Reachable(cfg, s) && s.queue != []
    ensures || (forall l :: 0 <= l < |s.lanes| ==> s.lanes[l].Stopped?)
            || (exists l :: 0 <= l < |s.lanes| && (s.lanes[l].Popping? || s.lanes[l].Running?))
            || (s.wake > 0 && exists l :: 0 <= l < |s.lanes| && s.lanes[l].Waiting?)
  {
    hide Reachable, OnePlace, Asked, Poppers, Waiters;
    AlwaysGood(cfg, s);
    Counts(s.lanes);
    if l :| 0 <= l < |s.lanes| && !s.lanes[l].Stopped? {
      assert s.lanes[l].Popping? || s.lanes[l].Running? || s.lanes[l].Waiting?;
    }
  }

  predicate Underway(s: State, t: Table) {
    t in s.queue || exists l :: 0 <= l < |s.lanes| && s.lanes[l].Running? && !s.lanes[l].finished && s.lanes[l].table == t
  }

  /** In every state the run went through, no two open requests were for the same table. */
  ghost predicate KeptApart(cfg: Config, trace: seq<Step>) {
    forall n | 0 <= n <= |trace| :: var r := Exec(cfg, trace[..n]); r.Some? ==> Apart(r.value)
  }

  lemma {:induction false} RunPersisted(cfg: Config, trace: seq<Step>)
    requires KeptApart(cfg, trace)
    ensures var r := Exec(cfg, trace); r.Some? ==> Persisted(r.value)
  {
    if trace == [] {
    } else {
      hide OnePlace, Awake, Asked, Apart, Persisted, Enabled, Next;
      var sofar := trace[..|trace| - 1];
      forall n | 0 <= n <= |sofar| ensures sofar[..n] == trace[..n] {}
      RunPersisted(cfg, sofar);
      RunGood(cfg, sofar);
      var before, step := Exec(cfg, sofar), trace[|trace| - 1];
      assert sofar[..|sofar|] == sofar;
      if before.Some? && Enabled(cfg, before.value, step) { PersistedKeeps(cfg, before.value, step); }
    }
  }

  /** As long as no two open requests were for the same table, a crash at any step queues every table
      again that was queued or running unfinished, unless its own MarkPending had failed. */
  lemma CrashResumes(cfg: Config, trace: seq<Step>, s: State, order: seq<Table>, t: Table)
    requires Exec(cfg, trace) == Some(s) && KeptApart(cfg, trace)
    requires Enabled(cfg, s, Crash(order)) && Underway(s, t) && t !in s.failed
    ensures t in Next(cfg, s, Crash(order)).queue
  {
    hide Exec, KeptApart, OnePlace, Awake;
    RunGood(cfg, trace);
    RunPersisted(cfg, trace);
  }

  /** Start-up queues them as a request does, each with its wake token. */
  lemma StartupQueues(cfg: Config, s: State, order: seq<Table>)
    requires Enabled(cfg, s, Crash(order))
    ensures var s' := Next(cfg, s, Crash(order)); (s'.queue, s'.wake) == Queued([], {}, 0, |s.lanes|, order)
  {
    assert Distinct(order);
    QueuedInOrder([], {}, 0, |s.lanes|, order);
    QueuedMeans([], {}, 0, |s.lanes|, order);
    assert [] + order == order;
    hide Queued;
  }

  ghost predicate CrashSafe(cfg: Config) { forall s | Reachable(cfg, s) :: Safe(s) }

  /** Two requests that may be open together may ask for one table. */
  ghost predicate MayShare(cfg: Config, q: nat, r: nat, t: Table) {
    q < r < cfg.requests && cfg.eligible(t) && cfg.asks(q, t) && cfg.asks(r, t)
  }

  /** Nothing is lost in a crash, however requests, lanes and completions interleave, exactly when no
      two requests that may be open together may ask for the same table. */
  lemma CrashSafeIff(cfg: Config)
    requires cfg.lanes > 0
    ensures CrashSafe(cfg) <==> forall q: nat, r: nat, t: Table :: !MayShare(cfg, q, r, t)
  {
    hide Reachable, Safe, MayShare;
    if q: nat, r: nat, t: Table :| MayShare(cfg, q, r, t) {
      var s := OverlapLosesTable(cfg, q, r, t);
    } else {
      forall s | Reachable(cfg, s) ensures Safe(s) { NoneShared(cfg, s); }
    }
  }

  lemma NoneShared(cfg: Config, s: State)
    requires Reachable(cfg, s) && forall q: nat, r: nat, t: Table :: !MayShare(cfg, q, r, t)
    ensures Safe(s)
  {
    hide Apart, Exec, Safe, MayShare;
    var trace :| Exec(cfg, trace) == Some(s);
    forall n | 0 <= n <= |trace| ensures var r := Exec(cfg, trace[..n]); r.Some? ==> Apart(r.value) {
      RunGood(cfg, trace[..n]);
      if Exec(cfg, trace[..n]).Some? { AskedApart(cfg, Exec(cfg, trace[..n]).value); }
    }
    RunPersisted(cfg, trace);
  }

  lemma AskedApart(cfg: Config, s: State)
    requires Asked(cfg, s) && |s.requests| == cfg.requests && forall q: nat, r: nat, t: Table :: !MayShare(cfg, q, r, t)
    ensures Apart(s)
  {
    forall q, r | 0 <= q < r < |s.requests| ensures !Share(s.requests[q], s.requests[r]) {
      if Share(s.requests[q], s.requests[r]) {
        var t :| t in s.requests[q].tables && t in s.requests[r].tables;
        assert MayShare(cfg, q, r, t);
      }
    }
  }

  lemma BothMarked(cfg: Config, q: nat, r: nat, t: Table) returns (s: State)
    requires cfg.lanes > 0 && MayShare(cfg, q, r, t)
    ensures Reachable(cfg, s)
    ensures && s.queue == [] && s.running == {} && s.wake == 0 && |s.lanes| == cfg.lanes && |s.requests| == cfg.requests
            && s.lanes[0] == Popping && s.requests[q] == Marked([t]) && s.requests[r] == Marked([t])
            && s.rows == map[t := false] && s.failed == {}
  {
    assert Exec(cfg, []) == Some(Initial(cfg));
    hide Reachable, Exec;
    s := OneMore(cfg, Initial(cfg), Check(q, [t]));
    s := OneMore(cfg, s, Check(r, [t]));
    s := OneMore(cfg, s, Mark(q, true));
    s := OneMore(cfg, s, Mark(r, true));
  }

  lemma QueuedAlone(wake: nat, lanes: nat, t: Table)
    ensures Queued([], {}, wake, lanes, [t]) == ([t], Signalled(wake, lanes))
  {
    assert [t][1..] == [] && [] + [t] == [t];
  }

  /** Two requests for one table find it idle and mark it; one of them queues it and it completes;
      then the other queues it over the row that says done. */
  lemma OverlapLosesTable(cfg: Config, q: nat, r: nat, t: Table) returns (s: State)
    requires cfg.lanes > 0 && MayShare(cfg, q, r, t)
    ensures Reachable(cfg, s) && s.failed == {} && !Safe(s)
  {
    hide Reachable, Exec, Queued;
    s := BothMarked(cfg, q, r, t);
    QueuedAlone(s.wake, |s.lanes|, t);
    s := OneMore(cfg, s, Enqueue(q));
    s := OneMore(cfg, s, Pop(0));
    s := OneMore(cfg, s, Complete(0, true));
    s := OneMore(cfg, s, Leave(0));
    QueuedAlone(s.wake, |s.lanes|, t);
    s := OneMore(cfg, s, Enqueue(r));
    assert s.queue == [t] && s.rows[t];
    assert t in s.queue && !Pending(s.rows, t);
  }
}
