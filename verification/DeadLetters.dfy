/**
  The dead-letter store over serial runs of deliveries, retries, sweeps and discards.
*/
module DeadLetters {
  import opened Prelude
  import opened Events
  import opened Delivery
  import opened Parking
  import opened Bisection

  // ---------------------------------------------------------------- serial runs

  datatype Op = Deliver(events: seq<Event>) | RetryOne(id: string) | Sweep(ids: seq<string>) | Discard(id: string)

  function Step(env: Env, w: World, op: Op): World {
    match op
    case Deliver(events) => Process(env, w, events).w
    case RetryOne(id) => Retry(env, w, id).1
    case Sweep(ids) => RetryAll(env, w, ids)
    case Discard(id) => RemovedFrom(env, w, id).1
  }

  const START := World(0, 0, [], [], [], [], map[], {}, map[], [])

  function Run(env: Env, ops: seq<Op>): World {
    if ops == [] then START else Step(env, Run(env, ops[..|ops| - 1]), ops[|ops| - 1])
  }

  // ---------------------------------------------------------------- parking again

  /** Parking again after a replay adds no entry. */
  lemma ReparkAddsNothing(env: Env, w: World, events: seq<Event>)
    requires StoreOk(env, w) && forall ev | ev in events :: ev.id in w.hash
    ensures Process(env, w, events).w.hash.Keys == w.hash.Keys
  {
    hide Process;
    ProcessParks(env, w, events);
    var w' := Process(env, w, events).w;
    forall id | id in w'.hash ensures id in w.hash {
      if !(id in w.hash && w'.hash[id] == w.hash[id]) {
        var i :| 0 <= i < |events| && Under(events[i], id, w'.hash[id]);
        assert events[i] in events;
      }
    }
  }

  // ---------------------------------------------------------------- how an entry leaves

  /** The event stored under `id` is still there. */
  predicate Kept(w: World, w': World, id: string)
    requires id in w.hash
  {
    id in w'.hash && w'.hash[id].event == w.hash[id].event
  }

  /** The backend accepted `event` between `w` and `w'`. */
  ghost predicate AcceptedSince(w: World, w': World, event: Event) {
    |w.accepted| <= |w'.accepted| && w'.accepted[..|w.accepted|] == w.accepted && event in w'.accepted[|w.accepted|..]
  }

  /** From `w` to `w'` the backend accepted `events` more, and the counts are the same. */
  ghost predicate Accepts(w: World, w': World, events: seq<Event>) {
    w'.accepted == w.accepted + events && w'.failures == w.failures && w'.notes == w.notes
  }

  lemma AcceptsSince(w: World, w': World, events: seq<Event>)
    requires Accepts(w, w', events)
    ensures |w.accepted| <= |w'.accepted| && w'.accepted[..|w.accepted|] == w.accepted
    ensures forall ev | ev in events :: AcceptedSince(w, w', ev)
  {
    assert w'.accepted[|w.accepted|..] == events;
  }

  lemma RemovedKeeps(env: Env, w: World, id: string)
    requires StoreOk(env, w)
    ensures var r := RemovedFrom(env, w, id);
            && StoreOk(env, r.1) && Accepts(w, r.1, [])
            && (forall other | other in w.hash && other != id :: other in r.1.hash && r.1.hash[other] == w.hash[other])
            && (id in r.1.hash ==> id in w.hash && r.1.hash[id] == w.hash[id])
            && (r.0 ==> id in w.hash && id !in r.1.hash)
  {}

  /** What a retry of `id` does to the store and to the accepted events. */
  lemma RetryDoes(env: Env, w: World, id: string) returns (events: seq<Event>)
    requires StoreOk(env, w)
    ensures var r := Retry(env, w, id);
            && StoreOk(env, r.1) && Accepts(w, r.1, events)
            && (forall other | other in w.hash && other != id :: Kept(w, r.1, other))
            && (id in w.hash ==> Kept(w, r.1, id) || events == [w.hash[id].event])
            && (r.0 ==> id in w.hash && id !in r.1.hash && events == [w.hash[id].event])
  {
    hide Inner, ParkedIn, RemovedFrom, StoreOk;
    events := [];
    SameStore(env, w, Asked(w), []);
    if env.redis(w.tick).Fine? && id in w.hash {
      var entry := w.hash[id];
      InnerKeeps(env, Asked(w), [entry.event]);
      var out := Inner(env, Asked(w), [entry.event]);
      SameStore(env, w, out.w, []);
      if out.err.Some? {
        ParkedInKeeps(env, out.w, id, entry.(attempts := entry.attempts + 1));
      } else {
        events := [entry.event];
        RemovedKeeps(env, out.w, id);
      }
    }
  }

  lemma RetryKeeps(env: Env, w: World, id: string, other: string)
    requires StoreOk(env, w)
    ensures var w' := Retry(env, w, id).1;
            && StoreOk(env, w') && |w.accepted| <= |w'.accepted| && w'.accepted[..|w.accepted|] == w.accepted
            && w'.failures == w.failures && w'.notes == w.notes
            && (other in w.hash ==> Kept(w, w', other) || (other == id && AcceptedSince(w, w', w.hash[id].event)))
            && (Retry(env, w, id).0 ==> id in w.hash && id !in w'.hash && AcceptedSince(w, w', w.hash[id].event))
  {
    hide Retry, StoreOk, AcceptedSince;
    var events := RetryDoes(env, w, id);
    AcceptsSince(w, Retry(env, w, id).1, events);
    if id in w.hash && events == [w.hash[id].event] { assert w.hash[id].event in events; }
  }

  /** The accepted events of `w` are still the first ones of `w'`. */
  ghost predicate Longer(w: World, w': World) { |w.accepted| <= |w'.accepted| && w'.accepted[..|w.accepted|] == w.accepted }

  lemma SinceTrans(a: World, b: World, c: World, ev: Event)
    requires Longer(a, b) && Longer(b, c)
    ensures Longer(a, c) && (AcceptedSince(a, b, ev) || AcceptedSince(b, c, ev) ==> AcceptedSince(a, c, ev))
  {
    assert c.accepted[..|a.accepted|] == c.accepted[..|b.accepted|][..|a.accepted|];
    assert c.accepted[|a.accepted|..] == c.accepted[..|b.accepted|][|a.accepted|..] + c.accepted[|b.accepted|..];
  }

  lemma {:induction false} SweepKeeps(env: Env, w: World, ids: seq<string>, id: string)
    requires StoreOk(env, w)
    ensures var w' := RetryAll(env, w, ids);
            && StoreOk(env, w') && Longer(w, w') && w'.failures == w.failures && w'.notes == w.notes
            && (id in w.hash ==> Kept(w, w', id) || (id in ids && AcceptedSince(w, w', w.hash[id].event)))
    decreases |ids|
  {
    hide Retry, StoreOk, AcceptedSince, Longer;
    var w0 := Asked(w);
    SameStore(env, w, w0, []);
    SameLog(w, w0);
    if ids == [] || env.cancelled(w.tick) {
    } else {
      RetryKeeps(env, w0, ids[0], id);
      var w1 := Retry(env, w0, ids[0]).1;
      LongerIf(w0, w1);
      SweepKeeps(env, w1, ids[1..], id);
      var w' := RetryAll(env, w1, ids[1..]);
      if id in w.hash { SinceTrans(w0, w1, w', w.hash[id].event); SinceSame(w, w0, w', w.hash[id].event); }
      else { LongerTrans(w0, w1, w'); LongerTrans(w, w0, w'); }
    }
  }

  lemma SameLog(w: World, w': World)
    requires w'.accepted == w.accepted
    ensures Longer(w, w') && Longer(w', w)
  {}

  lemma LongerIf(w: World, w': World)
    requires |w.accepted| <= |w'.accepted| && w'.accepted[..|w.accepted|] == w.accepted
    ensures Longer(w, w')
  {}

  lemma LongerTrans(a: World, b: World, c: World)
    requires Longer(a, b) && Longer(b, c)
    ensures Longer(a, c)
  {
    assert c.accepted[..|a.accepted|] == c.accepted[..|b.accepted|][..|a.accepted|];
  }

  lemma SinceSame(w: World, w0: World, w': World, ev: Event)
    requires w0.accepted == w.accepted && Longer(w0, w')
    ensures Longer(w, w') && (AcceptedSince(w0, w', ev) ==> AcceptedSince(w, w', ev))
  {}

  /** Dead-letter conservation, one operation: an event leaves the store when a retry of its own id
      delivered it, when it is discarded, or when another event with its id is parked over it. */
  lemma LeavesOnly(env: Env, w: World, op: Op, id: string)
    requires StoreOk(env, w) && id in w.hash
    ensures var w' := Step(env, w, op);
            || Kept(w, w', id)
            || (op == RetryOne(id) && AcceptedSince(w, w', w.hash[id].event))
            || (op.Sweep? && id in op.ids && AcceptedSince(w, w', w.hash[id].event))
            || op == Discard(id)
            || (op.Deliver? && exists ev :: ev in op.events && ev.id == id && ev != w.hash[id].event)
  {
    hide Process, Retry, RetryAll;
    match op
    case Deliver(events) =>
      ProcessParks(env, w, events);
      var w' := Process(env, w, events).w;
      if !Kept(w, w', id) {
        var i :| 0 <= i < |events| && Under(events[i], id, w'.hash[id]);
        assert events[i] in events;
      }
    case RetryOne(i) => RetryKeeps(env, w, i, id);
    case Sweep(ids) => SweepKeeps(env, w, ids, id);
    case Discard(_) =>
  }

  lemma {:induction false} RunStore(env: Env, ops: seq<Op>)
    ensures StoreOk(env, Run(env, ops))
  {
    if ops == [] {
    } else {
      hide Process, Retry, RetryAll;
      var w, op := Run(env, ops[..|ops| - 1]), ops[|ops| - 1];
      RunStore(env, ops[..|ops| - 1]);
      match op
      case Deliver(events) => ProcessParks(env, w, events);
      case RetryOne(id) => RetryKeeps(env, w, id, id);
      case Sweep(ids) => SweepKeeps(env, w, ids, "");
      case Discard(_) =>
    }
  }

  /** Event ids identify events: no two of the run's events share an id. */
  ghost predicate Identified(ops: seq<Op>) {
    forall i, j, a: Event, b: Event {:trigger a in ops[i].events, b in ops[j].events} ::
      (0 <= i < |ops| && 0 <= j < |ops| && ops[i].Deliver? && ops[j].Deliver?
       && a in ops[i].events && b in ops[j].events && a.id == b.id) ==> a == b
  }

  /** Whatever the store holds under `id` came from some delivery of the run. */
  ghost predicate FromRun(ops: seq<Op>, id: string, event: Event) {
    event.id == id && exists i :: 0 <= i < |ops| && ops[i].Deliver? && event in ops[i].events
  }

  lemma {:induction false} HeldIsFromRun(env: Env, ops: seq<Op>, id: string)
    requires id in Run(env, ops).hash
    ensures FromRun(ops, id, Run(env, ops).hash[id].event)
  {
    if ops == [] {
    } else {
      var n := |ops| - 1;
      var w, op := Run(env, ops[..n]), ops[n];
      RunStore(env, ops[..n]);
      StepHolds(env, w, op, id);
      hide Run;
      var event := Step(env, w, op).hash[id].event;
      if id in w.hash && event == w.hash[id].event {
        HeldIsFromRun(env, ops[..n], id);
        var i :| 0 <= i < n && ops[..n][i].Deliver? && event in ops[..n][i].events;
        assert ops[i].Deliver? && event in ops[i].events;
      } else {
        assert ops[n].Deliver? && event in ops[n].events;
      }
    }
  }

  lemma StepHolds(env: Env, w: World, op: Op, id: string)
    requires StoreOk(env, w) && id in Step(env, w, op).hash
    ensures var event := Step(env, w, op).hash[id].event;
            (id in w.hash && event == w.hash[id].event) || (op.Deliver? && event in op.events && event.id == id)
  {
    match op
    case Deliver(events) =>
      hide Process;
      ProcessParks(env, w, events);
      var w' := Process(env, w, events).w;
      if !(id in w.hash && w'.hash[id] == w.hash[id]) {
        var i :| 0 <= i < |events| && Under(events[i], id, w'.hash[id]);
        assert events[i] in events;
      }
    case RetryOne(i) => RetryHolds(env, w, i, id);
    case Sweep(ids) => SweepHolds(env, w, ids, id);
    case Discard(_) =>
  }

  lemma RetryHolds(env: Env, w: World, i: string, id: string)
    requires StoreOk(env, w) && id in Retry(env, w, i).1.hash
    ensures StoreOk(env, Retry(env, w, i).1)
    ensures id in w.hash && Retry(env, w, i).1.hash[id].event == w.hash[id].event
  {
    RetryKeeps(env, w, i, id);
    if env.redis(w.tick).Fine? && i in w.hash {
      hide Inner;
      InnerKeeps(env, Asked(w), [w.hash[i].event]);
    }
  }

  lemma {:induction false} SweepHolds(env: Env, w: World, ids: seq<string>, id: string)
    requires StoreOk(env, w) && id in RetryAll(env, w, ids).hash
    ensures id in w.hash && RetryAll(env, w, ids).hash[id].event == w.hash[id].event
    decreases |ids|
  {
    if ids == [] || env.cancelled(w.tick) {
    } else {
      hide Retry, StoreOk;
      assert StoreOk(env, Asked(w)) by { SameStore(env, w, Asked(w), []); }
      RetryKeeps(env, Asked(w), ids[0], id);
      SweepHolds(env, Retry(env, Asked(w), ids[0]).1, ids[1..], id);
      RetryHolds(env, Asked(w), ids[0], id);
    }
  }

  /** Dead-letter conservation over a whole serial run whose event ids identify events: an event
      leaves the store only by a successful delivery to its sink or a discard. */
  lemma DeadLettersAreConserved(env: Env, ops: seq<Op>, op: Op, id: string)
    requires Identified(ops + [op]) && id in Run(env, ops).hash
    ensures var w, w' := Run(env, ops), Run(env, ops + [op]);
            || Kept(w, w', id)
            || ((op == RetryOne(id) || (op.Sweep? && id in op.ids)) && AcceptedSince(w, w', w.hash[id].event))
            || op == Discard(id)
  {
    var w := Run(env, ops);
    assert (ops + [op])[..|ops|] == ops;
    RunStore(env, ops);
    LeavesOnly(env, w, op, id);
    HeldIsFromRun(env, ops, id);
    hide Step;
    if op.Deliver? {
      forall ev | ev in op.events && ev.id == id ensures ev == w.hash[id].event {
        SameId(ops, op, ev, w.hash[id].event);
      }
    }
  }

  lemma SameId(ops: seq<Op>, op: Op, ev: Event, event: Event)
    requires Identified(ops + [op]) && op.Deliver? && ev in op.events && FromRun(ops, ev.id, event)
    ensures ev == event
  {
    var i :| 0 <= i < |ops| && ops[i].Deliver? && event in ops[i].events;
    var all := ops + [op];
    assert all[i] == ops[i] && all[|ops|] == op;
    assert event in all[i].events && ev in all[|ops|].events;
  }

  // ---------------------------------------------------------------- colliding ids

  /** A backend that always refuses batches with `ev` in them. */
  function Refusing(ev: Event): Env {
    Env((_, events) => if ev in events then Failed(Error(true, false, false)) else Accepted,
        _ => false, _ => false, _ => Fine, 0, 1, 0)
  }

  lemma RefusingIsPoisoned(ev: Event)
    ensures Poisoned(Refusing(ev), e => e == ev)
  {
    forall events: seq<Event> ensures Bad(e => e == ev, events) <==> ev in events { BadIffIn(ev, events); }
  }

  lemma BadIffIn(ev: Event, events: seq<Event>)
    ensures Bad(e => e == ev, events) <==> ev in events
  {
    if ev in events { var i :| 0 <= i < |events| && events[i] == ev; assert (e => e == ev)(events[i]); }
  }

  /** Isolation stores what it parks. */
  lemma {:induction false} HalfStores(ev: Event, w: World, half: seq<Event>)
    requires half != []
    ensures var out := Half(Refusing(ev), w, half);
            && out.err.None?
            && (if ev in half then ev.id in out.w.hash && out.w.hash[ev.id].event == ev else out.w.hash == w.hash)
    decreases |half|, 1
  {
    var env := Refusing(ev);
    RefusingIsPoisoned(ev);
    BadIffIn(ev, half);
    hide Inner, Isolate, Poisoned, Bad;
    InnerFails(env, e => e == ev, w, half);
    InnerKeeps(env, w, half);
    var out := Inner(env, w, half);
    if out.err.Some? { IsolateStores(ev, Asked(out.w), half, out.err.value); }
  }

  lemma {:induction false} IsolateStores(ev: Event, w: World, events: seq<Event>, err: Error)
    requires ev in events
    ensures var out := Isolate(Refusing(ev), w, events, err);
            out.err.None? && ev.id in out.w.hash && out.w.hash[ev.id].event == ev
    decreases |events|, 0
  {
    hide Half, Park;
    if |events| <= 1 {
      ParkStores(w, ev, err, Refusing(ev));
    } else {
      var mid := |events| / 2;
      assert events == events[..mid] + events[mid..];
      HalfStores(ev, w, events[..mid]);
      HalfStores(ev, Half(Refusing(ev), w, events[..mid]).w, events[mid..]);
    }
  }

  lemma ParkStores(w: World, ev: Event, err: Error, env: Env)
    requires env == Refusing(ev)
    ensures var out := Park(env, w, ev, err); out.err.None? && ev.id in out.w.hash && out.w.hash[ev.id].event == ev
  {}

  lemma ProcessStores(ev: Event, w: World, events: seq<Event>)
    requires ev in events
    ensures var w' := Process(Refusing(ev), w, events).w; ev.id in w'.hash && w'.hash[ev.id].event == ev
  {
    var env := Refusing(ev);
    var out := Inner(env, w, events);
    assert out.err == Some(Error(true, false, false));
    hide Inner, Isolate;
    IsolateStores(ev, Asked(out.w), events, out.err.value);
  }

  ghost predicate EntriesSafe(w: World, events: seq<Event>) {
    forall env: Env, id | StoreOk(env, w) && id in w.hash :: Kept(w, Process(env, w, events).w, id)
  }

  /** Delivering a batch is safe for the parked events, whatever happens, exactly when no event of
      the batch shares its id with a different parked one. */
  lemma EntriesSafeIff(w: World, events: seq<Event>)
    requires w.hash.Keys == w.index
    ensures EntriesSafe(w, events) <==> forall ev | ev in events && ev.id in w.hash :: w.hash[ev.id].event == ev
  {
    hide Process;
    if forall ev | ev in events && ev.id in w.hash :: w.hash[ev.id].event == ev {
      forall env: Env, id | StoreOk(env, w) && id in w.hash ensures Kept(w, Process(env, w, events).w, id) {
        LeavesOnly(env, w, Deliver(events), id);
      }
    } else {
      var ev :| ev in events && ev.id in w.hash && w.hash[ev.id].event != ev;
      ProcessStores(ev, w, events);
      assert StoreOk(Refusing(ev), w) && !Kept(w, Process(Refusing(ev), w, events).w, ev.id);
    }
  }

  /** A backend that refuses batches with `a` or `b` in them. */
  function RefusingBoth(a: Event, b: Event): Env {
    Env((_, events) => if a in events || b in events then Failed(Error(true, false, false)) else Accepted,
        _ => false, _ => false, _ => Fine, 0, 1, 0)
  }

  lemma RefusingBothIsPoisoned(a: Event, b: Event)
    ensures Poisoned(RefusingBoth(a, b), e => e == a || e == b)
  {
    forall events: seq<Event> ensures Bad(e => e == a || e == b, events) <==> a in events || b in events {
      BothBadIffIn(a, b, events);
    }
  }

  lemma BothBadIffIn(a: Event, b: Event, events: seq<Event>)
    ensures Bad(e => e == a || e == b, events) <==> a in events || b in events
  {
    if a in events || b in events {
      var i :| 0 <= i < |events| && (events[i] == a || events[i] == b);
      assert (e => e == a || e == b)(events[i]);
    }
  }

  /** Both are parked. */
  lemma BothParked(a: Event, b: Event, w: World, events: seq<Event>)
    requires a in events && b in events
    ensures var out := Process(RefusingBoth(a, b), w, events);
            && out.err.None? && |out.verdicts| == |events|
            && forall i :: 0 <= i < |events| && (events[i] == a || events[i] == b) ==> out.verdicts[i] == Parked
  {
    var env := RefusingBoth(a, b);
    var out := Inner(env, w, events);
    assert out.err == Some(Error(true, false, false));
    RefusingBothIsPoisoned(a, b);
    BothBadIffIn(a, b, events);
    hide Inner, Isolate, Poisoned, Bad, Select, Poisons, CeilLog2;
    IsolationIsExact(env, e => e == a || e == b, Asked(out.w), events, out.err.value);
  }

  /** Whatever happens, delivering the batch keeps every parked event, and if it reports success the
      store holds each event the batch added to the parked ones. */
  ghost predicate NothingLost(w: World, events: seq<Event>) {
    forall env: Env | StoreOk(env, w) :: Keeps(env, w, events)
  }

  ghost predicate Keeps(env: Env, w: World, events: seq<Event>) {
    var out := Process(env, w, events);
    && (forall id | id in w.hash :: Kept(w, out.w, id))
    && (out.err.None? ==> HoldsParked(out.w, events, out.verdicts))
  }

  /** No two different events of the batch and the store share an id. */
  ghost predicate Identifying(w: World, events: seq<Event>) {
    SameIds(events) && forall ev | ev in events && ev.id in w.hash :: w.hash[ev.id].event == ev
  }

  /** Parking is safe exactly when ids identify the events of the batch and of the store. */
  lemma NothingLostIff(w: World, events: seq<Event>)
    requires w.hash.Keys == w.index
    ensures NothingLost(w, events) <==> Identifying(w, events)
  {
    hide Process, HoldsParked, Select, Kept, Conserves;
    EntriesSafeIff(w, events);
    if Identifying(w, events) {
      forall env: Env | StoreOk(env, w) ensures Keeps(env, w, events) { ProcessHolds(env, w, events); }
    } else if SameIds(events) {
      NotEntriesSafe(w, events);
    } else {
      var a, b :| a in events && b in events && a.id == b.id && a != b;
      OneIsLost(w, events, a, b);
    }
  }

  lemma ProcessHolds(env: Env, w: World, events: seq<Event>)
    requires SameIds(events)
    ensures var out := Process(env, w, events); out.err.None? ==> HoldsParked(out.w, events, out.verdicts)
  {
    hide Process, HoldsParked, Select, SameIds;
    ProcessConserves(env, w, events);
  }

  lemma NotEntriesSafe(w: World, events: seq<Event>)
    requires !EntriesSafe(w, events)
    ensures !NothingLost(w, events)
  {
    hide Process, HoldsParked, StoreOk, Kept;
    var env: Env, id :| StoreOk(env, w) && id in w.hash && !Kept(w, Process(env, w, events).w, id);
    assert !Keeps(env, w, events);
  }

  lemma OneIsLost(w: World, events: seq<Event>, a: Event, b: Event)
    requires w.hash.Keys == w.index && a in events && b in events && a.id == b.id && a != b
    ensures !NothingLost(w, events)
  {
    hide Process;
    var env := RefusingBoth(a, b);
    BothParked(a, b, w, events);
    var i :| 0 <= i < |events| && events[i] == a;
    var j :| 0 <= j < |events| && events[j] == b;
    var out := Process(env, w, events);
    assert out.verdicts[i] == Parked && out.verdicts[j] == Parked;
    assert !(Holds(out.w, events[i]) && Holds(out.w, events[j]));
    assert !Keeps(env, w, events);
  }

  /** Over a whole serial run whose ids identify events, what a delivery parks the store holds. */
  lemma ParkedIsHeld(env: Env, ops: seq<Op>, events: seq<Event>)
    requires Identified(ops + [Deliver(events)])
    ensures var out := Process(env, Run(env, ops), events); out.err.None? ==> HoldsParked(out.w, events, out.verdicts)
  {
    hide Process, HoldsParked, Run;
    var all := ops + [Deliver(events)];
    assert all[|ops|].events == events;
    forall a, b | a in events && b in events && a.id == b.id ensures a == b {
      assert a in all[|ops|].events && b in all[|ops|].events;
    }
    ProcessHolds(env, Run(env, ops), events);
  }

  /** An event's id is a WAL position. When two events carry one, the second one parked replaces the
      first, which is then neither delivered nor parked nor discarded. */
  lemma CollidingIdsLoseEvents() returns (env: Env, a: Event, b: Event)
    ensures a != b && a.id == b.id
    ensures var w := Run(env, [Deliver([a]), Deliver([b])]);
            a in w.parked && a !in w.accepted && (forall id | id in w.hash :: w.hash[id].event != a)
  {
    env := REFUSING;
    a, b := Colliding();
    var ops := [Deliver([a]), Deliver([b])];
    assert ops[..1] == [Deliver([a])] && ops[..1][..0] == [];
    RefusedAlone(env, START, a);
    RefusedAlone(env, Process(env, START, [a]).w, b);
    hide Process;
    assert Run(env, ops[..1]) == Process(env, START, [a]).w;
    assert Run(env, ops) == Process(env, Process(env, START, [a]).w, [b]).w;
  }

  const REFUSING := Env((_, _) => Failed(Error(true, false, false)), _ => false, _ => false, _ => Fine, 0, 1, 0)

  /** Two events of one transaction. */
  lemma Colliding() returns (a: Event, b: Event)
    ensures a != b && a.id == b.id
  {
    a := Event("0/16B3748", Insert, "public", "t", None, Some(map["id" := Val(0, "1")]), []);
    b := a.(newData := Some(map["id" := Val(0, "2")]));
    assert "id" in a.newData.value && a.newData.value["id"] != b.newData.value["id"];
  }

  lemma RefusedInner(w: World, events: seq<Event>)
    requires events != []
    ensures var out := Inner(REFUSING, w, events);
            out.err == Some(Error(true, false, false)) && out.w.hash == w.hash && out.w.accepted == w.accepted && out.w.parked == w.parked
  {}

  lemma RefusedHalf(w: World, ev: Event)
    ensures var out := Half(REFUSING, w, [ev]);
            && out.err.None? && out.w.accepted == w.accepted && out.w.parked == w.parked + [ev]
            && out.w.hash.Keys == w.hash.Keys + {ev.id} && out.w.hash[ev.id].event == ev
            && forall id | id in w.hash && id != ev.id :: out.w.hash[id] == w.hash[id]
  {
    RefusedInner(w, [ev]);
    hide Inner;
  }

  /** The same in one batch: the delivery reports success and the store is left with one of the two. */
  lemma CollidingBatchLosesEvent() returns (a: Event, b: Event)
    ensures a != b && a.id == b.id && EntriesSafe(START, [a, b])
    ensures var out := Process(REFUSING, START, [a, b]);
            && out.err.None? && a in out.w.parked && a !in out.w.accepted
            && forall id | id in out.w.hash :: out.w.hash[id].event != a
  {
    a, b := Colliding();
    var events := [a, b];
    assert events[..1] == [a] && events[1..] == [b];
    RefusedInner(START, events);
    var out := Inner(REFUSING, START, events);
    hide Inner, Half;
    RefusedHalf(Asked(out.w), a);
    RefusedHalf(Half(REFUSING, Asked(out.w), [a]).w, b);
    assert EntriesSafe(START, events);
  }

  lemma RefusedAlone(env: Env, w: World, ev: Event)
    requires env == REFUSING
    ensures var w' := Process(env, w, [ev]).w;
            w'.accepted == w.accepted && w'.parked == w.parked + [ev] && w'.hash.Keys == w.hash.Keys + {ev.id}
            && w'.hash[ev.id].event == ev && forall id | id in w.hash && id != ev.id :: w'.hash[id] == w.hash[id]
  {}

  // ---------------------------------------------------------------- the threshold

  /** How often a failure of `id` was counted since it was last forgotten. */
  function Since(notes: seq<Note>, id: string): nat {
    if notes == [] then 0
    else
      var last, before := notes[|notes| - 1], notes[..|notes| - 1];
      if last == Forgotten(id) then 0 else if last == Counted(id) then Since(before, id) + 1 else Since(before, id)
  }

  /** The manager's counts are those since the last clear. */
  ghost predicate Tally(w: World) { forall id: string :: Failures(w.failures, id) == Since(w.notes, id) }

  lemma RecordedTally(w: World, id: string)
    requires Tally(w)
    ensures Tally(Recorded(w, id))
  {
    var w' := Recorded(w, id);
    assert w'.notes[..|w'.notes| - 1] == w.notes;
  }

  lemma {:induction false} ClearedTally(w: World, events: seq<Event>)
    requires Tally(w)
    ensures Tally(Cleared(w, events))
  {
    forall id: string ensures Failures(Cleared(w, events).failures, id) == Since(Cleared(w, events).notes, id) {
      SinceForgets(w.notes, events, id);
    }
  }

  lemma {:induction false} SinceForgets(notes: seq<Note>, events: seq<Event>, id: string)
    ensures Since(notes + Forgets(events), id) == if exists ev :: ev in events && ev.id == id then 0 else Since(notes, id)
  {
    if events == [] {
      assert notes + Forgets(events) == notes;
    } else {
      var n := |events| - 1;
      var all := notes + Forgets(events);
      assert all[..|all| - 1] == notes + Forgets(events[..n]) && all[|all| - 1] == Forgotten(events[n].id);
      SinceForgets(notes, events[..n], id);
      assert forall ev :: ev in events <==> ev in events[..n] || ev == events[n];
    }
  }

  lemma {:induction false} HalfTally(env: Env, w: World, half: seq<Event>)
    requires Tally(w) && half != []
    ensures Tally(Half(env, w, half).w)
    decreases |half|, 1
  {
    hide Inner, Isolate, Tally, Cleared;
    InnerKeeps(env, w, half);
    var out := Inner(env, w, half);
    SameTally(w, out.w);
    SameTally(w, Asked(out.w));
    if out.err.None? {
      ClearedTally(out.w, half);
    } else if !Stalls(env, out.w, out.err.value) {
      IsolateTally(env, Asked(out.w), half, out.err.value);
    }
  }

  lemma SameTally(w: World, w': World)
    requires Tally(w) && w'.failures == w.failures && w'.notes == w.notes
    ensures Tally(w')
  {}

  lemma {:induction false} IsolateTally(env: Env, w: World, events: seq<Event>, err: Error)
    requires Tally(w) && events != []
    ensures Tally(Isolate(env, w, events, err).w)
    decreases |events|, 0
  {
    hide Half, Tally, Park;
    if |events| == 1 {
      ParkTally(env, w, events[0], err);
    } else {
      var mid := |events| / 2;
      HalfTally(env, w, events[..mid]);
      HalfTally(env, Half(env, w, events[..mid]).w, events[mid..]);
    }
  }

  lemma ParkTally(env: Env, w: World, event: Event, err: Error)
    requires Tally(w)
    ensures Tally(Park(env, w, event, err).w)
  {
    hide Tally, Cleared;
    var (ok, w1) := ParkedIn(env, w, event.id, Entry(event, ParkAttempts(w, event.id)));
    SameTally(w, w1);
    ClearedTally(w1, [event]);
    SameTally(Cleared(w1, [event]), Cleared(w1, [event]).(parked := w1.parked + [event]));
  }

  lemma ProcessTally(env: Env, w: World, events: seq<Event>)
    requires Tally(w)
    ensures Tally(Process(env, w, events).w)
  {
    hide Inner, Isolate, Tally, Cleared, Recorded;
    if events != [] {
      InnerKeeps(env, w, events);
      var out := Inner(env, w, events);
      SameTally(w, out.w);
      SameTally(w, Asked(out.w));
      if out.err.None? {
        ClearedTally(out.w, events);
      } else {
        RecordedTally(Asked(out.w), events[0].id);
        IsolateTally(env, Asked(out.w), events, out.err.value);
        IsolateTally(env, Recorded(Asked(out.w), events[0].id), events, out.err.value);
      }
    }
  }

  lemma {:induction false} RunTally(env: Env, ops: seq<Op>)
    ensures Tally(Run(env, ops))
  {
    if ops == [] {
    } else {
      hide Process, Retry, RetryAll, Tally;
      var w, op := Run(env, ops[..|ops| - 1]), ops[|ops| - 1];
      RunTally(env, ops[..|ops| - 1]);
      RunStore(env, ops[..|ops| - 1]);
      match op
      case Deliver(events) => ProcessTally(env, w, events);
      case RetryOne(id) => RetryKeeps(env, w, id, id); SameTally(w, Retry(env, w, id).1);
      case Sweep(ids) => SweepKeeps(env, w, ids, ""); SameTally(w, RetryAll(env, w, ids));
      case Discard(id) => SameTally(w, RemovedFrom(env, w, id).1);
    }
  }

  /** An event is parked, with the failures counted since it was last forgotten, or one if there were
      none, exactly when Redis answers and there is room or it is parked already; its count is then
      forgotten. Otherwise the cause is passed on and no other entry is touched. */
  lemma ParkMeans(env: Env, ops: seq<Op>, ev: Event, cause: Error)
    ensures var w := Run(env, ops); var out := Park(env, w, ev, cause);
            && (out.err.None? <==> env.redis(w.tick).Fine? && env.redis(w.tick + 1).Fine? && (ev.id in w.hash || env.cap == 0 || |w.index| < env.cap))
            && (out.err.None? ==>
                  && out.w.hash == w.hash[ev.id := Entry(ev, if Since(w.notes, ev.id) > 0 then Since(w.notes, ev.id) else 1)]
                  && out.w.index == w.index + {ev.id} && out.w.parked == w.parked + [ev] && Since(out.w.notes, ev.id) == 0)
            && (out.err.Some? ==> out.err == Some(cause) && out.w.parked == w.parked && forall id | id != ev.id :: id in out.w.hash <==> id in w.hash)
            && forall id | id != ev.id && id in w.hash :: out.w.hash[id] == w.hash[id]
  {
    RunTally(env, ops);
    var w := Run(env, ops);
    hide Run, Since, Forgets;
    assert ev in [ev];
    SinceForgets(w.notes, [ev], ev.id);
  }

  /** In every run: a batch that fails, and not because of an outage, is isolated at once when the
      failure is permanent, and else exactly when its first event has now failed `threshold` times
      since last cleared; before that nothing of it is delivered or parked and the error is passed on. */
  lemma IsolationWaits(env: Env, ops: seq<Op>, events: seq<Event>)
    requires events != []
    requires var out := Inner(env, Run(env, ops), events);
             out.err.Some? && !out.err.value.circuitOpen && !out.err.value.deadline && !env.cancelled(out.w.tick)
    ensures var w := Run(env, ops); var out := Inner(env, w, events); var p := Process(env, w, events);
            if out.err.value.permanent then p == Isolate(env, Asked(out.w), events, out.err.value)
            else if Since(w.notes, events[0].id) + 1 >= env.threshold then
              p == Isolate(env, Recorded(Asked(out.w), events[0].id), events, out.err.value)
            else p.err == out.err && p.w.accepted == w.accepted && p.w.parked == w.parked && p.w.hash == w.hash
                 && p.w.calls == w.calls + 1
  {
    hide Inner, Isolate, Run;
    RunTally(env, ops);
    InnerKeeps(env, Run(env, ops), events);
  }
}
