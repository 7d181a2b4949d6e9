/**
  The innermost layers of one sink: retries and the circuit breaker around the backend, and the
  dead-letter layer around those, with the dead-letter store in Redis.

  What the backend, the breaker, the context and Redis do is decided by the environment, from the
  number of times anyone asked it anything before.
*/
module Delivery {
  import opened Prelude
  import opened Events

  datatype Error = Error(permanent: bool, circuitOpen: bool, deadline: bool)

  datatype Reply = Accepted | Failed(err: Error)

  /** A Redis transaction is executed and answered, or its answer is lost before or after. */
  datatype Redis = Fine | LostBefore | LostAfter

  datatype Env = Env(
    attempt: (nat, seq<Event>) -> Reply, open: nat -> bool, cancelled: nat -> bool, redis: nat -> Redis,
    maxRetries: nat, threshold: nat, cap: nat)

  datatype Entry = Entry(event: Event, attempts: nat)

  datatype Note = Counted(id: string) | Forgotten(id: string)

  /** A call of the retry layer, what it reported, and the tick at which it returned. */
  datatype Answer = Answer(batch: seq<Event>, err: Option<Error>, at: nat)

  /** `answers` lists the calls of the retry layer; `tried` holds the events of every batch handed to the backend, `accepted` those of the batches it
      accepted, `parked` every event parked, `calls` the calls of the retry layer; these and the notes are history. `hash`, `index` and
      `failures` are the store's and the manager's state, for this sink. */
  datatype World = World(
    tick: nat, calls: nat, answers: seq<Answer>, tried: seq<Event>, accepted: seq<Event>, parked: seq<Event>,
    hash: map<string, Entry>, index: set<string>, failures: map<string, nat>, notes: seq<Note>)

  /** `verdicts` tells, event by event, what became of a batch that did not fail. */
  datatype Verdict = Delivered | Parked

  datatype Out = Out(err: Option<Error>, w: World, verdicts: seq<Verdict>)

  function Asked(w: World): World { w.(tick := w.tick + 1) }

  function All(v: Verdict, n: nat): seq<Verdict> { seq(n, _ => v) }

  // ---------------------------------------------------------------- retries and the breaker

  /** processWithRetry with `left` retries left. */
  function Attempts(env: Env, w: World, events: seq<Event>, left: nat): Out
    decreases left
  {
    var reply, w1 := env.attempt(w.tick, events), Asked(w).(tried := w.tried + events);
    if reply.Accepted? then Out(None, w1.(accepted := w.accepted + events), All(Delivered, |events|))
    else if reply.err.permanent || env.cancelled(w1.tick) || left == 0 || env.cancelled(w1.tick + 1) then
      Out(Some(reply.err), w1.(tick := w1.tick + 2), [])
    else Attempts(env, w1.(tick := w1.tick + 2), events, left - 1)
  }

  const CIRCUIT_OPEN := Error(false, true, false)

  /** The resilient sink's Process. */
  function Inner(env: Env, w: World, events: seq<Event>): Out {
    if events == [] then Out(None, w, [])
    else if env.open(w.tick) then Answered(events, Out(Some(CIRCUIT_OPEN), Asked(w).(calls := w.calls + 1), []))
    else Answered(events, Attempts(env, Asked(w).(calls := w.calls + 1), events, env.maxRetries))
  }

  function Answered(events: seq<Event>, out: Out): Out {
    out.(w := out.w.(answers := out.w.answers + [Answer(events, out.err, out.w.tick)]))
  }

  // ---------------------------------------------------------------- the manager's failure counts

  function Failures(failures: map<string, nat>, id: string): nat { if id in failures then failures[id] else 0 }

  function Recorded(w: World, id: string): World {
    w.(failures := w.failures[id := Failures(w.failures, id) + 1], notes := w.notes + [Counted(id)])
  }

  function Cleared(w: World, events: seq<Event>): World {
    w.(failures := w.failures - (set ev | ev in events :: ev.id), notes := w.notes + Forgets(events))
  }

  function Forgets(events: seq<Event>): seq<Note> {
    seq(|events|, i requires 0 <= i < |events| => Forgotten(events[i].id))
  }

  // ---------------------------------------------------------------- the store

  predicate Full(env: Env, w: World, id: string) { id !in w.hash && env.cap > 0 && |w.index| >= env.cap }

  /** redisStore.Park; true when it reports success. */
  function ParkedIn(env: Env, w: World, id: string, entry: Entry): (bool, World) {
    if !env.redis(w.tick).Fine? then (false, Asked(w))
    else if Full(env, w, id) then (false, Asked(w))
    else
      var answer := env.redis(w.tick + 1);
      var done := !answer.LostBefore?;
      (answer.Fine?, w.(tick := w.tick + 2, hash := if done then w.hash[id := entry] else w.hash,
                        index := if done then w.index + {id} else w.index))
  }

  /** redisStore.Remove; true when it reports success. */
  function RemovedFrom(env: Env, w: World, id: string): (bool, World) {
    var answer := env.redis(w.tick);
    var done := !answer.LostBefore?;
    (answer.Fine? && id in w.hash,
     w.(tick := w.tick + 1, hash := if done then w.hash - {id} else w.hash, index := if done then w.index - {id} else w.index))
  }

  // ---------------------------------------------------------------- the dead-letter layer

  predicate Stalls(env: Env, w: World, err: Error) { err.circuitOpen || err.deadline || env.cancelled(w.tick) }

  function ParkAttempts(w: World, id: string): nat {
    if Failures(w.failures, id) > 0 then Failures(w.failures, id) else 1
  }

  /** A parking that reports failure stalls the batch; the event may or may not be in the store. */
  function Park(env: Env, w: World, event: Event, cause: Error): Out {
    var (ok, w1) := ParkedIn(env, w, event.id, Entry(event, ParkAttempts(w, event.id)));
    if ok then Out(None, Cleared(w1, [event]).(parked := w1.parked + [event]), [Parked])
    else Out(Some(cause), w1, [])
  }

  /** One half of a batch that is being isolated. */
  function Half(env: Env, w: World, half: seq<Event>): Out
    requires half != []
    decreases |half|, 1
  {
    var out := Inner(env, w, half);
    if out.err.None? then Out(None, Cleared(out.w, half), out.verdicts)
    else if Stalls(env, out.w, out.err.value) then Out(out.err, Asked(out.w), [])
    else Isolate(env, Asked(out.w), half, out.err.value)
  }

  function Isolate(env: Env, w: World, events: seq<Event>, err: Error): Out
    requires events != []
    decreases |events|, 0
  {
    if |events| == 1 then Park(env, w, events[0], err)
    else
      var mid := |events| / 2;
      var left := Half(env, w, events[..mid]);
      if left.err.Some? then left
      else
        var right := Half(env, left.w, events[mid..]);
        if right.err.Some? then right else Out(None, right.w, left.verdicts + right.verdicts)
  }

  /** What the failure of a whole batch leads to. */
  function Handled(env: Env, w: World, events: seq<Event>, err: Error): Out
    requires events != []
  {
    if Stalls(env, w, err) then Out(Some(err), Asked(w), [])
    else if err.permanent then Isolate(env, Asked(w), events, err)
    else
      var w1 := Recorded(Asked(w), events[0].id);
      if Failures(w1.failures, events[0].id) < env.threshold then Out(Some(err), w1, [])
      else Isolate(env, w1, events, err)
  }

  /** The dead-letter sink's Process. */
  function Process(env: Env, w: World, events: seq<Event>): Out {
    if events == [] then Out(None, w, [])
    else
      var out := Inner(env, w, events);
      if out.err.None? then Out(None, Cleared(out.w, events), out.verdicts)
      else Handled(env, out.w, events, out.err.value)
  }

  // ---------------------------------------------------------------- the manager's operations

  /** Manager.Retry; true when it reports success. */
  function Retry(env: Env, w: World, id: string): (bool, World) {
    if !env.redis(w.tick).Fine? || id !in w.hash then (false, Asked(w))
    else
      var entry := w.hash[id];
      var out := Inner(env, Asked(w), [entry.event]);
      if out.err.Some? then (false, ParkedIn(env, out.w, id, entry.(attempts := entry.attempts + 1)).1)
      else RemovedFrom(env, out.w, id)
  }

  /** Manager.RetryAll over the listed ids; a done context ends the sweep. */
  function RetryAll(env: Env, w: World, ids: seq<string>): World
    decreases |ids|
  {
    if ids == [] || env.cancelled(w.tick) then Asked(w)
    else RetryAll(env, Retry(env, Asked(w), ids[0]).1, ids[1..])
  }

  // ---------------------------------------------------------------- the layers as objects

  /** One sink with its retry and dead-letter layers, the store and the manager's counts. */
  class SinkStack {
    const env: Env
    var tick: nat
    var calls: nat
    var answers: seq<Answer>
    var tried: seq<Event>
    var accepted: seq<Event>
    var parked: seq<Event>
    var hash: map<string, Entry>
    var index: set<string>
    var failures: map<string, nat>
    var notes: seq<Note>

    constructor (env: Env)
      ensures this.env == env && View() == World(0, 0, [], [], [], [], map[], {}, map[], [])
    {
      this.env := env;
      tick, calls, answers, tried, accepted, parked := 0, 0, [], [], [], [];
      hash, index, failures, notes := map[], {}, map[], [];
    }

    function View(): World
      reads this
    {
      World(tick, calls, answers, tried, accepted, parked, hash, index, failures, notes)
    }

    method Attempt(events: seq<Event>) returns (reply: Reply)
      modifies this
      ensures reply == env.attempt(old(tick), events)
      ensures View() == Asked(old(View())).(tried := old(tried) + events, accepted := if reply.Accepted? then old(accepted) + events else old(accepted))
    {
      reply := env.attempt(tick, events);
      tick, tried := tick + 1, tried + events;
      if reply.Accepted? { accepted := accepted + events; }
    }

    method Cancelled() returns (c: bool)
      modifies this
      ensures c == env.cancelled(old(tick)) && View() == Asked(old(View()))
    {
      c := env.cancelled(tick);
      tick := tick + 1;
    }

    method ProcessWithRetry(events: seq<Event>) returns (err: Option<Error>)
      modifies this
      ensures var out := Attempts(env, old(View()), events, env.maxRetries); err == out.err && View() == out.w
    {
      var i := 0;
      ghost var goal := Attempts(env, old(View()), events, env.maxRetries);
      while true
        invariant 0 <= i <= env.maxRetries
        invariant goal == Attempts(env, View(), events, env.maxRetries - i)
        decreases env.maxRetries - i
      {
        ghost var w := View();
        var reply := Attempt(events);
        if reply.Accepted? { return None; }
        var done := Cancelled();
        var waited := Cancelled();
        assert View() == w.(tick := w.tick + 3, tried := w.tried + events);
        if reply.err.permanent || done || i == env.maxRetries || waited { return Some(reply.err); }
        i := i + 1;
      }
    }

    method InnerProcess(events: seq<Event>) returns (err: Option<Error>)
      modifies this
      ensures var out := Inner(env, old(View()), events); err == out.err && View() == out.w
    {
      hide Attempts;
      if |events| == 0 { return None; }
      var open := env.open(tick);
      tick, calls := tick + 1, calls + 1;
      if open { err := Some(CIRCUIT_OPEN); } else { err := ProcessWithRetry(events); }
      answers := answers + [Answer(events, err, tick)];
    }

    method ClearFailures(events: seq<Event>)
      modifies this
      ensures View() == Cleared(old(View()), events)
    {
      var i := 0;
      while i < |events|
        invariant 0 <= i <= |events|
        invariant View() == Cleared(old(View()), events[..i])
      {
        assert events[..i + 1] == events[..i] + [events[i]];
        assert (set ev | ev in events[..i + 1] :: ev.id) == (set ev | ev in events[..i] :: ev.id) + {events[i].id};
        assert Forgets(events[..i + 1]) == Forgets(events[..i]) + [Forgotten(events[i].id)];
        failures := failures - {events[i].id};
        notes := notes + [Forgotten(events[i].id)];
        i := i + 1;
      }
      assert events[..|events|] == events;
    }

    method RecordFailure(id: string) returns (reached: bool)
      modifies this
      ensures View() == Recorded(old(View()), id) && reached == (Failures(failures, id) >= env.threshold)
    {
      failures := failures[id := Failures(failures, id) + 1];
      notes := notes + [Counted(id)];
      reached := failures[id] >= env.threshold;
    }

    method ParkEvent(event: Event, cause: Error) returns (err: Option<Error>)
      modifies this
      ensures var out := Park(env, old(View()), event, cause); err == out.err && View() == out.w
    {
      var ok := StorePark(event.id, Entry(event, if Failures(failures, event.id) > 0 then failures[event.id] else 1));
      if !ok { return Some(cause); }
      ClearFailures([event]);
      parked := parked + [event];
      return None;
    }

    method StorePark(id: string, entry: Entry) returns (ok: bool)
      modifies this
      ensures (ok, View()) == ParkedIn(env, old(View()), id, entry)
    {
      var answer := env.redis(tick);
      tick := tick + 1;
      if answer != Fine { return false; }
      if id !in hash && env.cap > 0 && |index| >= env.cap { return false; }
      answer := env.redis(tick);
      tick := tick + 1;
      if answer != LostBefore {
        hash := hash[id := entry];
        index := index + {id};
      }
      ok := answer == Fine;
    }

    /** isolate: deliver the halves that succeed, narrow the ones that fail, park single events. */
    method IsolateBatch(events: seq<Event>, cause: Error) returns (err: Option<Error>)
      requires events != []
      modifies this
      ensures var out := Isolate(env, old(View()), events, cause); err == out.err && View() == out.w
      decreases |events|
    {
      if |events| == 1 {
        err := ParkEvent(events[0], cause);
        return;
      }
      var mid := |events| / 2;
      var halves := [events[..mid], events[mid..]];
      var i := 0;
      while i < 2
        invariant 0 <= i <= 2
        invariant i == 0 ==> View() == old(View())
        invariant i == 1 ==> Half(env, old(View()), halves[0]).err.None? && View() == Half(env, old(View()), halves[0]).w
        invariant i == 2 ==> Isolate(env, old(View()), events, cause).err.None? && View() == Isolate(env, old(View()), events, cause).w
      {
        var herr := InnerProcess(halves[i]);
        if herr.None? {
          ClearFailures(halves[i]);
        } else {
          var stalled := Cancelled();
          if stalled || herr.value.circuitOpen || herr.value.deadline { return herr; }
          var ierr := IsolateBatch(halves[i], herr.value);
          if ierr.Some? { return ierr; }
        }
        i := i + 1;
      }
      return None;
    }

    method ProcessBatch(events: seq<Event>) returns (err: Option<Error>)
      modifies this
      ensures var out := Process(env, old(View()), events); err == out.err && View() == out.w
    {
      if |events| == 0 { return None; }
      err := InnerProcess(events);
      if err.None? {
        ClearFailures(events);
        return;
      }
      var stalled := Cancelled();
      if stalled || err.value.circuitOpen || err.value.deadline { return; }
      if !err.value.permanent {
        var reached := RecordFailure(events[0].id);
        if !reached { return; }
      }
      err := IsolateBatch(events, err.value);
    }

    method StoreRemove(id: string) returns (ok: bool)
      modifies this
      ensures (ok, View()) == RemovedFrom(env, old(View()), id)
    {
      var answer := env.redis(tick);
      tick := tick + 1;
      ok := answer == Fine && id in hash;
      if answer != LostBefore {
        hash := hash - {id};
        index := index - {id};
      }
    }

    method RetryEntry(id: string) returns (ok: bool)
      modifies this
      ensures (ok, View()) == Retry(env, old(View()), id)
    {
      var answer := env.redis(tick);
      tick := tick + 1;
      if answer != Fine || id !in hash { return false; }
      var entry := hash[id];
      var err := InnerProcess([entry.event]);
      if err.Some? {
        var updated := StorePark(id, entry.(attempts := entry.attempts + 1));
        return false;
      }
      ok := StoreRemove(id);
    }

    method RetryAllEntries(ids: seq<string>)
      modifies this
      ensures View() == RetryAll(env, old(View()), ids)
    {
      var i := 0;
      while i < |ids|
        invariant 0 <= i <= |ids|
        invariant RetryAll(env, old(View()), ids) == RetryAll(env, View(), ids[i..])
      {
        var done := Cancelled();
        if done { return; }
        var ok := RetryEntry(ids[i]);
        i := i + 1;
      }
      tick := tick + 1;
    }
  }
}
