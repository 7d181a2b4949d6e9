/**
  When the dead-letter layer parks, and when it must not: only a failure that says something about the
  event counts against it.
*/
module Outages {
  import opened Prelude
  import opened Events
  import opened Delivery
  import opened Parking

  // ---------------------------------------------------------------- retries

  function Copies(events: seq<Event>, n: nat): seq<Event> {
    if n == 0 then [] else events + Copies(events, n - 1)
  }

  /** The attempt at tick `t` fails in a way that is worth another one. */
  predicate WorthRetrying(env: Env, t: nat, events: seq<Event>) {
    var reply := env.attempt(t, events);
    reply.Failed? && !reply.err.permanent && !env.cancelled(t + 1) && !env.cancelled(t + 2)
  }

  /** The batch is attempted until an attempt is not worth retrying or the retries are used up; the last
      attempt decides, and every attempt hands the whole batch to the backend. */
  lemma {:induction false} AttemptsMean(env: Env, w: World, events: seq<Event>, left: nat) returns (n: nat)
    ensures n <= left && forall i: nat | i < n :: WorthRetrying(env, w.tick + 3 * i, events)
    ensures n == left || !WorthRetrying(env, w.tick + 3 * n, events)
    ensures var last, out := env.attempt(w.tick + 3 * n, events), Attempts(env, w, events, left);
            && out.err == (if last.Accepted? then None else Some(last.err)) && out.w.tried == w.tried + Copies(events, n + 1)
    decreases left
  {
    FirstAttempt(env, w, events, left);
    hide Attempts, WorthRetrying;
    if !WorthRetrying(env, w.tick, events) || left == 0 {
      n := 0;
      assert events + Copies(events, 0) == events;
    } else {
      var w1 := w.(tick := w.tick + 3, tried := w.tried + events);
      var m := AttemptsMean(env, w1, events, left - 1);
      n := m + 1;
      forall i: nat | i < n ensures WorthRetrying(env, w.tick + 3 * i, events) {
        if i > 0 { assert WorthRetrying(env, w1.tick + 3 * (i - 1), events); }
      }
      OneCopyMore(w.tried, events, n);
    }
  }

  lemma FirstAttempt(env: Env, w: World, events: seq<Event>, left: nat)
    ensures var reply, out := env.attempt(w.tick, events), Attempts(env, w, events, left);
            if WorthRetrying(env, w.tick, events) && left > 0 then
              out == Attempts(env, w.(tick := w.tick + 3, tried := w.tried + events), events, left - 1)
            else out.err == (if reply.Accepted? then None else Some(reply.err)) && out.w.tried == w.tried + events
  {}

  lemma OneCopyMore(tried: seq<Event>, events: seq<Event>, n: nat)
    ensures tried + Copies(events, n + 1) == tried + events + Copies(events, n)
  {}

  // ---------------------------------------------------------------- outages

  /** What an open circuit, a timeout and a shutdown have in common: they say nothing about the events. */
  predicate Outage(env: Env, a: Answer) {
    a.err.Some? && (a.err.value.circuitOpen || a.err.value.deadline || env.cancelled(a.at))
  }

  /** An open circuit fails the batch without an attempt and leaves everything as it was. */
  lemma OpenCircuitWaits(env: Env, w: World, events: seq<Event>)
    requires events != [] && env.open(w.tick)
    ensures var p := Process(env, w, events);
            && p.err.Some? && p.err.value.circuitOpen && p.w.tried == w.tried && p.w.accepted == w.accepted
            && p.w.parked == w.parked && p.w.hash == w.hash && p.w.index == w.index && p.w.failures == w.failures
  {}

  /** When the call of the whole batch meets an outage, its error is passed on, and nothing is parked,
      counted or forgotten. */
  lemma OutageParksNothing(env: Env, w: World, events: seq<Event>)
    requires events != []
    ensures var p := Process(env, w, events);
            && |w.answers| < |p.w.answers| && p.w.answers[|w.answers|].batch == events
            && (Outage(env, p.w.answers[|w.answers|]) ==>
                  && p.err == p.w.answers[|w.answers|].err && p.w.accepted == w.accepted && p.w.parked == w.parked
                  && p.w.hash == w.hash && p.w.index == w.index && p.w.failures == w.failures && p.w.notes == w.notes)
  {
    InnerKeeps(env, w, events);
    InnerAnswers(env, w, events);
    hide Inner, Isolate;
    var out := Inner(env, w, events);
    var i := |w.answers|;
    if out.err.Some? && !Stalls(env, out.w, out.err.value) {
      var w1 := if out.err.value.permanent then Asked(out.w) else Recorded(Asked(out.w), events[0].id);
      IsolateCalls(env, w1, events, out.err.value);
      assert Isolate(env, w1, events, out.err.value).w.answers[i] == w1.answers[i];
    }
  }

  lemma InnerAnswers(env: Env, w: World, events: seq<Event>)
    requires events != []
    ensures var out := Inner(env, w, events); out.w.answers == w.answers + [Answer(events, out.err, out.w.tick)]
  {
    if !env.open(w.tick) { AttemptsAnswer(env, Asked(w).(calls := w.calls + 1), events, env.maxRetries); }
  }

  lemma {:induction false} AttemptsAnswer(env: Env, w: World, events: seq<Event>, left: nat)
    ensures Attempts(env, w, events, left).w.answers == w.answers
    decreases left
  {
    if left == 0 || !WorthRetrying(env, w.tick, events) {
    } else {
      AttemptsAnswer(env, w.(tick := w.tick + 3, tried := w.tried + events), events, left - 1);
    }
  }

  /** Calls are only added, of at most `n` events each. */
  ghost predicate Calls(w: World, w': World, n: nat) {
    w.answers <= w'.answers && forall i :: |w.answers| <= i < |w'.answers| ==> |w'.answers[i].batch| <= n
  }

  lemma CallsTrans(a: World, b: World, c: World, n: nat, m: nat, k: nat)
    requires Calls(a, b, n) && Calls(b, c, m) && n <= k && m <= k
    ensures Calls(a, c, k)
  {
    forall i | |a.answers| <= i < |c.answers| ensures |c.answers[i].batch| <= k {
      if i < |b.answers| { assert c.answers[i] == b.answers[i]; }
    }
  }

  lemma {:induction false} HalfCalls(env: Env, w: World, half: seq<Event>)
    requires half != []
    ensures Calls(w, Half(env, w, half).w, |half|)
    decreases |half|, 1
  {
    InnerAnswers(env, w, half);
    hide Inner, Isolate;
    var out := Inner(env, w, half);
    assert Calls(w, Asked(out.w), |half|);
    if out.err.None? || Stalls(env, out.w, out.err.value) {
    } else {
      hide Calls;
      IsolateCalls(env, Asked(out.w), half, out.err.value);
      CallsTrans(w, Asked(out.w), Isolate(env, Asked(out.w), half, out.err.value).w, |half|, |half|, |half|);
    }
  }

  lemma {:induction false} IsolateCalls(env: Env, w: World, events: seq<Event>, err: Error)
    requires events != []
    ensures Calls(w, Isolate(env, w, events, err).w, |events|)
    decreases |events|, 0
  {
    hide Half;
    if |events| == 1 {
    } else {
      hide Calls;
      var mid := |events| / 2;
      HalfCalls(env, w, events[..mid]);
      var left := Half(env, w, events[..mid]);
      NoCalls(left.w);
      CallsTrans(w, left.w, left.w, mid, 0, |events|);
      if left.err.None? {
        HalfCalls(env, left.w, events[mid..]);
        CallsTrans(w, left.w, Half(env, left.w, events[mid..]).w, mid, |events| - mid, |events|);
      }
    }
  }

  lemma NoCalls(w: World)
    ensures Calls(w, w, 0)
  {}

  /** The retry layer never sees more than the batch. */
  lemma ProcessCalls(env: Env, w: World, events: seq<Event>)
    ensures Calls(w, Process(env, w, events).w, |events|)
  {
    if events != [] {
      InnerAnswers(env, w, events);
      hide Inner, Isolate;
      var out := Inner(env, w, events);
      if out.err.Some? && !Stalls(env, out.w, out.err.value) {
        var w1 := if out.err.value.permanent then Asked(out.w) else Recorded(Asked(out.w), events[0].id);
        assert Calls(w, w1, |events|);
        hide Calls;
        IsolateCalls(env, w1, events, out.err.value);
        NoCalls(w1);
        CallsTrans(w, w1, w1, |events|, 0, |events|);
        CallsTrans(w, w1, Isolate(env, w1, events, out.err.value).w, |events|, |events|, |events|);
      }
    }
  }

  // ---------------------------------------------------------------- what is parked was to blame

  /** The event failed on its own, and not because of an outage. */
  predicate Condemns(env: Env, a: Answer, ev: Event) { a.batch == [ev] && a.err.Some? && !Outage(env, a) }

  ghost predicate Blamed(env: Env, w: World, w': World, ev: Event) {
    exists i :: |w.answers| <= i < |w'.answers| && Condemns(env, w'.answers[i], ev)
  }

  /** From `w` to `w'` calls and parkings are only added, and what is parked was to blame. */
  ghost predicate Justified(env: Env, w: World, w': World) {
    && w.answers <= w'.answers && w.parked <= w'.parked
    && forall i :: |w.parked| <= i < |w'.parked| ==> Blamed(env, w, w', w'.parked[i])
  }

  lemma StillBlamed(env: Env, w: World, a: World, b: World, ev: Event)
    requires Blamed(env, w, a, ev) && a.answers <= b.answers
    ensures Blamed(env, w, b, ev)
  {
    var i :| |w.answers| <= i < |a.answers| && Condemns(env, a.answers[i], ev);
    assert Condemns(env, b.answers[i], ev);
  }

  /** Calls alone justify what was parked before them. */
  lemma CallsJustified(env: Env, w: World, a: World, b: World)
    requires Justified(env, w, a) && a.answers <= b.answers && b.parked == a.parked
    ensures Justified(env, w, b)
  {
    forall i | |w.parked| <= i < |b.parked| ensures Blamed(env, w, b, b.parked[i]) { StillBlamed(env, w, a, b, a.parked[i]); }
  }

  lemma ParkJustified(env: Env, w0: World, w: World, ev: Event, err: Error)
    requires Justified(env, w0, w) && Blamed(env, w0, w, ev)
    ensures Justified(env, w0, Park(env, w, ev, err).w)
  {
    var w' := Park(env, w, ev, err).w;
    assert w'.answers == w.answers && (w'.parked == w.parked || w'.parked == w.parked + [ev]);
    hide Park;
    forall i | |w0.parked| <= i < |w'.parked| ensures Blamed(env, w0, w', w'.parked[i]) {
      if i < |w.parked| { StillBlamed(env, w0, w, w', w.parked[i]); } else { StillBlamed(env, w0, w, w', ev); }
    }
  }

  lemma {:induction false} HalfJustified(env: Env, w0: World, w: World, half: seq<Event>)
    requires half != [] && Justified(env, w0, w)
    ensures Justified(env, w0, Half(env, w, half).w)
    decreases |half|, 1
  {
    InnerKeeps(env, w, half);
    InnerAnswers(env, w, half);
    hide Inner, Isolate, Justified, Blamed;
    var out := Inner(env, w, half);
    if out.err.None? || Stalls(env, out.w, out.err.value) {
      CallsJustified(env, w0, w, Half(env, w, half).w);
    } else {
      CallsJustified(env, w0, w, Asked(out.w));
      if |half| == 1 { BlamedNow(env, w0, w, half[0], out, half); }
      IsolateJustified(env, w0, Asked(out.w), half, out.err.value);
    }
  }

  lemma BlamedNow(env: Env, w0: World, w: World, ev: Event, out: Out, batch: seq<Event>)
    requires Justified(env, w0, w) && batch == [ev] && out.err.Some? && !Stalls(env, out.w, out.err.value)
    requires out.w.answers == w.answers + [Answer(batch, out.err, out.w.tick)]
    ensures Blamed(env, w0, Asked(out.w), ev)
  {
    assert Condemns(env, out.w.answers[|w.answers|], ev);
  }

  lemma {:induction false} IsolateJustified(env: Env, w0: World, w: World, events: seq<Event>, err: Error)
    requires events != [] && Justified(env, w0, w) && (|events| == 1 ==> Blamed(env, w0, w, events[0]))
    ensures Justified(env, w0, Isolate(env, w, events, err).w)
    decreases |events|, 0
  {
    hide Half, Park, Justified, Blamed;
    if |events| == 1 {
      ParkJustified(env, w0, w, events[0], err);
    } else {
      var mid := |events| / 2;
      HalfJustified(env, w0, w, events[..mid]);
      var left := Half(env, w, events[..mid]);
      if left.err.None? { HalfJustified(env, w0, left.w, events[mid..]); }
    }
  }

  /** Failing or not, a call parks an event only after the event failed by itself, with an error that
      was neither an open circuit nor a timeout, and the context not done. */
  lemma ParkedWasToBlame(env: Env, w: World, events: seq<Event>)
    ensures Justified(env, w, Process(env, w, events).w)
  {
    if events != [] {
      InnerKeeps(env, w, events);
      InnerAnswers(env, w, events);
      assert Justified(env, w, w);
      hide Inner, Isolate, Justified, Blamed;
      var out := Inner(env, w, events);
      if out.err.None? || Stalls(env, out.w, out.err.value) {
        CallsJustified(env, w, w, Process(env, w, events).w);
      } else {
        var w1 := if out.err.value.permanent then Asked(out.w) else Recorded(Asked(out.w), events[0].id);
        CallsJustified(env, w, w, w1);
        if |events| == 1 {
          BlamedNow(env, w, w, events[0], out, events);
          StillBlamed(env, w, Asked(out.w), w1, events[0]);
        }
        IsolateJustified(env, w, w1, events, out.err.value);
      }
    }
  }

  // ---------------------------------------------------------------- what success forgets

  function Ids(events: seq<Event>): set<string> { set ev | ev in events :: ev.id }

  lemma {:induction false} HalfForgets(env: Env, w: World, half: seq<Event>)
    requires half != [] && Half(env, w, half).err.None?
    ensures Half(env, w, half).w.failures == w.failures - Ids(half)
    decreases |half|, 1
  {
    InnerKeeps(env, w, half);
    hide Inner, Isolate;
    var out := Inner(env, w, half);
    if out.err.None? || Stalls(env, out.w, out.err.value) {
    } else {
      IsolateForgets(env, Asked(out.w), half, out.err.value);
    }
  }

  lemma {:induction false} IsolateForgets(env: Env, w: World, events: seq<Event>, err: Error)
    requires events != [] && Isolate(env, w, events, err).err.None?
    ensures Isolate(env, w, events, err).w.failures == w.failures - Ids(events)
    decreases |events|, 0
  {
    hide Half;
    if |events| == 1 {
      assert events == [events[0]];
    } else {
      hide Park;
      var mid := |events| / 2;
      HalfForgets(env, w, events[..mid]);
      HalfForgets(env, Half(env, w, events[..mid]).w, events[mid..]);
      IdsConcat(events[..mid], events[mid..]);
      assert events == events[..mid] + events[mid..];
      hide Ids, Isolate;
      MinusBoth(w.failures, Ids(events[..mid]), Ids(events[mid..]));
    }
  }

  lemma IdsConcat(a: seq<Event>, b: seq<Event>)
    ensures Ids(a + b) == Ids(a) + Ids(b)
  {
    forall id | id in Ids(a) + Ids(b) ensures id in Ids(a + b) {
      if id in Ids(a) { var ev :| ev in a && ev.id == id; assert ev in a + b; } else { var ev :| ev in b && ev.id == id; assert ev in a + b; }
    }
  }

  lemma MinusBoth(m: map<string, nat>, a: set<string>, b: set<string>)
    ensures m - a - b == m - (a + b)
  {}

  /** A batch that goes through, delivered or parked, forgets the failures of its own events and of no
      others. */
  lemma SuccessForgets(env: Env, w: World, events: seq<Event>)
    requires Process(env, w, events).err.None?
    ensures Process(env, w, events).w.failures == w.failures - Ids(events)
  {
    if events != [] {
      InnerKeeps(env, w, events);
      hide Inner, Isolate;
      var out := Inner(env, w, events);
      if out.err.Some? && !Stalls(env, out.w, out.err.value) {
        var w1 := if out.err.value.permanent then Asked(out.w) else Recorded(Asked(out.w), events[0].id);
        IsolateForgets(env, w1, events, out.err.value);
        assert events[0].id in Ids(events);
        assert w1.failures - Ids(events) == w.failures - Ids(events);
      }
    }
  }

  // ---------------------------------------------------------------- retrying what is parked

  /** Redis answers and nobody cancels. */
  ghost predicate Calm(env: Env) { (forall t: nat :: env.redis(t).Fine?) && forall t: nat :: !env.cancelled(t) }

  /** A retry hands the stored event over by itself; it leaves the store if that is accepted, and stays
      with one more attempt counted if not. */
  lemma RetryMeans(env: Env, w: World, id: string)
    requires Calm(env) && id in w.hash
    ensures var (ok, w') := Retry(env, w, id);
            && |w'.answers| == |w.answers| + 1 && w.answers <= w'.answers
            && var a := w'.answers[|w.answers|];
            && a.batch == [w.hash[id].event] && ok == a.err.None?
            && w'.hash == if ok then w.hash - {id} else w.hash[id := w.hash[id].(attempts := w.hash[id].attempts + 1)]
  {
    InnerKeeps(env, Asked(w), [w.hash[id].event]);
    InnerAnswers(env, Asked(w), [w.hash[id].event]);
    hide Inner;
  }

  /** Every listed entry was retried once, in order, and the others stayed as they were. */
  ghost predicate SweptAll(w: World, w': World, ids: seq<string>) {
    && |w'.answers| == |w.answers| + |ids| && w.answers <= w'.answers
    && (forall i: nat | i < |ids| :: SweptAt(w, w', ids, i))
    && (forall id | id in w.hash && id !in ids :: id in w'.hash && w'.hash[id] == w.hash[id])
    && (forall id | id in w'.hash :: id in w.hash)
  }

  predicate SweptAt(w: World, w': World, ids: seq<string>, i: nat) {
    i < |ids| && |w.answers| + i < |w'.answers| && ids[i] in w.hash && Swept(w, w', ids[i], w'.answers[|w.answers| + i])
  }

  ghost predicate Listed(w: World, ids: seq<string>) {
    (forall i :: 0 <= i < |ids| ==> ids[i] in w.hash) && forall i, j :: 0 <= i < j < |ids| ==> ids[i] != ids[j]
  }

  /** With nobody cancelling, a sweep retries every listed entry once, in order, and exactly those whose
      delivery is accepted leave. */
  lemma {:induction false} SweepMeans(env: Env, w: World, ids: seq<string>)
    requires Calm(env) && Listed(w, ids)
    ensures SweptAll(w, RetryAll(env, w, ids), ids)
    decreases |ids|
  {
    if ids == [] {
    } else {
      var w1 := Retry(env, Asked(w), ids[0]).1;
      FirstSwept(env, w, ids, w1);
      hide RetryAll, Retry, Calm, Swept;
      assert Listed(w1, ids[1..]);
      hide Listed, SweptAll;
      SweepMeans(env, w1, ids[1..]);
      SweptJoin(w, w1, RetryAll(env, w1, ids[1..]), ids);
    }
  }

  lemma SweptJoin(w: World, w1: World, w': World, ids: seq<string>)
    requires ids != [] && Listed(w, ids) && ids[0] in w.hash && |w1.answers| == |w.answers| + 1 && w.answers <= w1.answers
    requires Swept(w, w1, ids[0], w1.answers[|w.answers|])
    requires forall id | id in w.hash && id != ids[0] :: id in w1.hash && w1.hash[id] == w.hash[id]
    requires (forall id | id in w1.hash :: id in w.hash) && SweptAll(w1, w', ids[1..])
    ensures SweptAll(w, w', ids)
  {
    hide Swept, Listed, SweptAt;
    OthersStay(w, w1, w', ids);
    forall i: nat | i < |ids| ensures SweptAt(w, w', ids, i) { SweptEach(w, w1, w', ids, i); }
  }

  lemma OthersStay(w: World, w1: World, w': World, ids: seq<string>)
    requires ids != [] && |w1.answers| == |w.answers| + 1 && w.answers <= w1.answers
    requires forall id | id in w.hash && id != ids[0] :: id in w1.hash && w1.hash[id] == w.hash[id]
    requires (forall id | id in w1.hash :: id in w.hash) && SweptAll(w1, w', ids[1..])
    ensures w.answers <= w'.answers && |w'.answers| == |w.answers| + |ids| && (forall id | id in w'.hash :: id in w.hash)
    ensures forall id | id in w.hash && id !in ids :: id in w'.hash && w'.hash[id] == w.hash[id]
  {
    hide SweptAt;
    assert forall id | id !in ids :: id !in ids[1..] && id != ids[0];
  }

  lemma SweptEach(w: World, w1: World, w': World, ids: seq<string>, i: nat)
    requires i < |ids| && Listed(w, ids) && ids[0] in w.hash && |w1.answers| == |w.answers| + 1 && w.answers <= w1.answers
    requires Swept(w, w1, ids[0], w1.answers[|w.answers|])
    requires forall id | id in w.hash && id != ids[0] :: id in w1.hash && w1.hash[id] == w.hash[id]
    requires SweptAll(w1, w', ids[1..])
    ensures SweptAt(w, w', ids, i)
  {
    hide Swept;
    var rest := ids[1..];
    if i == 0 {
      assert ids[0] !in rest;
      FirstStays(w, w1, w', ids[0], rest);
    } else {
      assert rest[i - 1] == ids[i] && SweptAt(w1, w', rest, i - 1);
      SweptSame(w, w1, w', ids[i], w'.answers[|w.answers| + i]);
    }
  }

  lemma FirstSwept(env: Env, w: World, ids: seq<string>, w1: World)
    requires Calm(env) && ids != [] && Listed(w, ids)
    requires w1 == Retry(env, Asked(w), ids[0]).1
    ensures |w1.answers| == |w.answers| + 1 && w.answers <= w1.answers && Swept(w, w1, ids[0], w1.answers[|w.answers|])
    ensures forall id | id in w.hash && id != ids[0] :: id in w1.hash && w1.hash[id] == w.hash[id]
    ensures forall id | id in w1.hash :: id in w.hash
    ensures forall i :: 0 <= i < |ids| - 1 ==> ids[1..][i] in w1.hash
    ensures RetryAll(env, w, ids) == RetryAll(env, w1, ids[1..])
  {
    RetryMeans(env, Asked(w), ids[0]);
    assert !env.cancelled(w.tick);
    hide Retry;
    forall i | 0 <= i < |ids| - 1 ensures ids[1..][i] in w1.hash { assert ids[1..][i] == ids[i + 1]; }
  }

  lemma FirstStays(w: World, w1: World, w': World, id: string, rest: seq<string>)
    requires id in w.hash && |w1.answers| == |w.answers| + 1 && w1.answers <= w'.answers && Swept(w, w1, id, w1.answers[|w.answers|])
    requires id !in rest && (id in w1.hash ==> id in w'.hash && w'.hash[id] == w1.hash[id]) && (id in w'.hash ==> id in w1.hash)
    ensures Swept(w, w', id, w'.answers[|w.answers|])
  {
    assert w'.answers[|w.answers|] == w1.answers[|w.answers|];
  }

  lemma SweptSame(w: World, w1: World, w': World, id: string, a: Answer)
    requires id in w.hash && id in w1.hash && w1.hash[id] == w.hash[id] && Swept(w1, w', id, a)
    ensures Swept(w, w', id, a)
  {}

  /** The entry was retried with answer `a`. */
  predicate Swept(w: World, w': World, id: string, a: Answer)
    requires id in w.hash
  {
    && a.batch == [w.hash[id].event] && (id in w'.hash <==> a.err.Some?)
    && (id in w'.hash ==> w'.hash[id] == w.hash[id].(attempts := w.hash[id].attempts + 1))
  }
}
