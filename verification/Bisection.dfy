/**
  Isolating a failing batch by bisection: no event is lost or duplicated, a poison event is found
  and parked alone, and finding it is cheap.
*/
module Bisection {
  import opened Prelude
  import opened Events
  import opened Delivery
  import opened Parking

  // ---------------------------------------------------------------- conservation

  /** The events with verdict `v`, in order. */
  function Select(events: seq<Event>, verdicts: seq<Verdict>, v: Verdict): seq<Event>
    requires |events| == |verdicts|
  {
    if events == [] then []
    else
      var n := |events| - 1;
      Select(events[..n], verdicts[..n], v) + if verdicts[n] == v then [events[n]] else []
  }

  lemma {:induction false} SelectConcat(a: seq<Event>, av: seq<Verdict>, b: seq<Event>, bv: seq<Verdict>, v: Verdict)
    requires |a| == |av| && |b| == |bv|
    ensures Select(a + b, av + bv, v) == Select(a, av, v) + Select(b, bv, v)
  {
    if b == [] {
      assert a + b == a && av + bv == av;
    } else {
      var n := |b| - 1;
      assert (a + b)[..|a + b| - 1] == a + b[..n] && (av + bv)[..|a + b| - 1] == av + bv[..n];
      SelectConcat(a, av, b[..n], bv[..n], v);
    }
  }

  lemma {:induction false} SelectAll(events: seq<Event>, v: Verdict, u: Verdict)
    ensures Select(events, All(v, |events|), u) == if u == v then events else []
  {
    if events == [] {
    } else {
      var n := |events| - 1;
      assert All(v, |events|)[..n] == All(v, n);
      SelectAll(events[..n], v, u);
      assert events == events[..n] + [events[n]];
    }
  }

  /** A call that reports no error splits its batch into what the backend accepted and what was
      parked, both in stream order, and when ids identify the batch's events the store holds what
      was parked; one that reports an error may have accepted and parked some. */
  ghost predicate Conserves(w: World, events: seq<Event>, out: Out) {
    out.err.None? ==>
      && |out.verdicts| == |events|
      && out.w.accepted == w.accepted + Select(events, out.verdicts, Delivered)
      && out.w.parked == w.parked + Select(events, out.verdicts, Parked)
      && (SameIds(events) ==> HoldsParked(out.w, events, out.verdicts))
  }

  lemma InnerConserves(env: Env, w: World, events: seq<Event>)
    ensures Conserves(w, events, Inner(env, w, events))
  {
    hide Inner;
    InnerKeeps(env, w, events);
    SelectAll(events, Delivered, Delivered);
    SelectAll(events, Delivered, Parked);
  }

  lemma ParkConserves(env: Env, w: World, event: Event, err: Error)
    ensures Conserves(w, [event], Park(env, w, event, err))
  {
    hide Select;
    SelectOne(event);
  }

  lemma SelectOne(event: Event)
    ensures Select([event], [Parked], Parked) == [event] && Select([event], [Parked], Delivered) == []
  {
    NothingSelected();
    assert [event][..0] == [] && [Parked][..0] == [];
  }

  lemma SameLogs(w: World, w': World, events: seq<Event>, out: Out)
    requires Conserves(w, events, out) && w'.accepted == w.accepted && w'.parked == w.parked
    ensures Conserves(w', events, out)
  {
    hide Select, SameIds, HoldsParked;
  }

  lemma ConservesConcat(w: World, a: seq<Event>, left: Out, b: seq<Event>, right: Out)
    requires Conserves(w, a, left) && Conserves(left.w, b, right) && Parks(left.w, right.w, b)
    requires left.err.None? && right.err.None?
    ensures Conserves(w, a + b, Out(None, right.w, left.verdicts + right.verdicts))
  {
    hide Select, SameIds, HoldsParked, Parks;
    SelectConcat(a, left.verdicts, b, right.verdicts, Delivered);
    SelectConcat(a, left.verdicts, b, right.verdicts, Parked);
    if SameIds(a + b) {
      SameIdsPart(a, b);
      HoldsParkedConcat(left.w, right.w, a, left.verdicts, b, right.verdicts);
    }
  }

  lemma {:induction false} HalfConserves(env: Env, w: World, half: seq<Event>)
    requires half != []
    ensures Conserves(w, half, Half(env, w, half))
    decreases |half|, 1
  {
    hide Inner, Isolate, Select, SameIds;
    InnerConserves(env, w, half);
    InnerKeeps(env, w, half);
    var out := Inner(env, w, half);
    if out.err.Some? && !Stalls(env, out.w, out.err.value) {
      IsolateConserves(env, Asked(out.w), half, out.err.value);
      SameLogs(Asked(out.w), w, half, Half(env, w, half));
    }
  }

  lemma {:induction false} IsolateConserves(env: Env, w: World, events: seq<Event>, err: Error)
    requires events != []
    ensures Conserves(w, events, Isolate(env, w, events, err))
    decreases |events|, 0
  {
    hide Half, Park, Conserves, Parks;
    if |events| == 1 {
      assert events == [events[0]];
      ParkConserves(env, w, events[0], err);
    } else {
      var mid := |events| / 2;
      var a, b := events[..mid], events[mid..];
      assert events == a + b;
      HalfConserves(env, w, a);
      var left := Half(env, w, a);
      if left.err.None? {
        HalfConserves(env, left.w, b);
        HalfParks(env, left.w, b);
        var right := Half(env, left.w, b);
        if right.err.None? { ConservesConcat(w, a, left, b, right); } else { FailedConserves(w, events, right); }
      } else {
        FailedConserves(w, events, left);
      }
    }
  }

  lemma FailedConserves(w: World, events: seq<Event>, out: Out)
    requires out.err.Some?
    ensures Conserves(w, events, out)
  {}

  /** Bisection conserves events. */
  lemma ProcessConserves(env: Env, w: World, events: seq<Event>)
    ensures Conserves(w, events, Process(env, w, events))
  {
    hide Inner, Isolate, Select, SameIds;
    NothingSelected();
    if events != [] {
      InnerConserves(env, w, events);
      InnerKeeps(env, w, events);
      var out := Inner(env, w, events);
      if out.err.Some? {
        IsolateConserves(env, Asked(out.w), events, out.err.value);
        IsolateConserves(env, Recorded(Asked(out.w), events[0].id), events, out.err.value);
      }
    }
  }

  lemma NothingSelected()
    ensures Select([], [], Delivered) == [] && Select([], [], Parked) == []
  {}

  // ---------------------------------------------------------------- poison events

  ghost predicate Bad(poison: Event -> bool, events: seq<Event>) { exists i :: 0 <= i < |events| && poison(events[i]) }

  /** The backend fails exactly the batches with a poison event, and nothing else goes wrong. */
  ghost predicate Poisoned(env: Env, poison: Event -> bool) {
    && (forall t: nat, events: seq<Event> ::
          if Bad(poison, events) then
            env.attempt(t, events).Failed? && !env.attempt(t, events).err.circuitOpen && !env.attempt(t, events).err.deadline
          else env.attempt(t, events).Accepted?)
    && (forall t: nat :: !env.open(t))
    && (forall t: nat :: !env.cancelled(t))
    && (forall t: nat :: env.redis(t).Fine?)
    && env.cap == 0
  }

  lemma {:induction false} AttemptsFail(env: Env, poison: Event -> bool, w: World, events: seq<Event>, left: nat)
    requires Poisoned(env, poison)
    ensures var err := Attempts(env, w, events, left).err;
            err.Some? == Bad(poison, events) && (err.Some? ==> !err.value.circuitOpen && !err.value.deadline)
    decreases left
  {
    var reply := env.attempt(w.tick, events);
    assert reply.Accepted? <==> !Bad(poison, events);
    hide Bad;
    if reply.Accepted? || reply.err.permanent || left == 0 {
    } else {
      AttemptsFail(env, poison, w.(tick := w.tick + 3, tried := w.tried + events), events, left - 1);
    }
  }

  lemma InnerFails(env: Env, poison: Event -> bool, w: World, events: seq<Event>)
    requires Poisoned(env, poison) && events != []
    ensures var out := Inner(env, w, events);
            && out.err.Some? == Bad(poison, events) && (out.err.Some? ==> !Stalls(env, out.w, out.err.value))
            && out.w.calls == w.calls + 1 && (out.err.None? ==> out.verdicts == All(Delivered, |events|))
  {
    hide Attempts, Bad;
    AttemptsFail(env, poison, Asked(w).(calls := w.calls + 1), events, env.maxRetries);
    InnerKeeps(env, w, events);
  }

  // the cost

  function Poisons(poison: Event -> bool, events: seq<Event>): nat {
    if events == [] then 0
    else Poisons(poison, events[..|events| - 1]) + if poison(events[|events| - 1]) then 1 else 0
  }

  lemma {:induction false} PoisonsConcat(poison: Event -> bool, a: seq<Event>, b: seq<Event>)
    ensures Poisons(poison, a + b) == Poisons(poison, a) + Poisons(poison, b)
  {
    if b == [] {
      assert a + b == a;
    } else {
      assert (a + b)[..|a + b| - 1] == a + b[..|b| - 1];
      PoisonsConcat(poison, a, b[..|b| - 1]);
    }
  }

  lemma {:induction false} BadIffPoisons(poison: Event -> bool, events: seq<Event>)
    ensures Bad(poison, events) <==> Poisons(poison, events) > 0
  {
    if events == [] {
    } else {
      var n := |events| - 1;
      BadIffPoisons(poison, events[..n]);
      if Bad(poison, events[..n]) {
        var i :| 0 <= i < n && poison(events[..n][i]);
        assert poison(events[i]);
      }
      if Bad(poison, events) && !poison(events[n]) {
        var i :| 0 <= i < |events| && poison(events[i]);
        assert poison(events[..n][i]);
      }
    }
  }

  function Pow2(n: nat): nat { if n == 0 then 1 else 2 * Pow2(n - 1) }

  function CeilLog2(n: nat): nat
    decreases n
  {
    if n <= 1 then 0 else 1 + CeilLog2((n + 1) / 2)
  }

  /** It is the logarithm, rounded up. */
  lemma {:induction false} CeilLog2Is(n: nat)
    requires n > 0
    ensures n <= Pow2(CeilLog2(n)) && (n > 1 ==> CeilLog2(n) > 0 && Pow2(CeilLog2(n) - 1) < n)
    decreases n
  {
    if n <= 1 {
    } else {
      CeilLog2Is((n + 1) / 2);
    }
  }

  lemma {:induction false} CeilLog2Grows(m: nat, n: nat)
    requires m <= n
    ensures CeilLog2(m) <= CeilLog2(n)
    decreases n
  {
    if m <= 1 {
    } else {
      CeilLog2Grows((m + 1) / 2, (n + 1) / 2);
    }
  }

  /** What isolating `events`, `k` of them poison, does and costs. */
  ghost predicate Exact(poison: Event -> bool, events: seq<Event>, out: Out) {
    out.err.None? && |out.verdicts| == |events|
    && forall i :: 0 <= i < |events| ==> (out.verdicts[i] == Parked <==> poison(events[i]))
  }

  ghost predicate Cheap(calls: int, n: nat, k: nat) { calls <= 2 * (n - 1) && calls <= 2 * k * CeilLog2(n) }

  /** A half costs one call, and isolating it when it holds poison. */
  lemma {:induction false} HalfIsExact(env: Env, poison: Event -> bool, w: World, half: seq<Event>)
    requires Poisoned(env, poison) && half != []
    ensures var out := Half(env, w, half);
            && Exact(poison, half, out)
            && (if Poisons(poison, half) > 0 then Cheap(out.w.calls - w.calls - 1, |half|, Poisons(poison, half))
                else out.w.calls == w.calls + 1)
    decreases |half|, 1
  {
    hide Inner, Isolate, Cheap, Poisons;
    BadIffPoisons(poison, half);
    InnerFails(env, poison, w, half);
    var out := Inner(env, w, half);
    if out.err.Some? {
      IsolateIsExact(env, poison, Asked(out.w), half, out.err.value);
    }
  }

  lemma {:induction false} IsolateIsExact(env: Env, poison: Event -> bool, w: World, events: seq<Event>, err: Error)
    requires Poisoned(env, poison) && events != [] && Bad(poison, events)
    ensures var out := Isolate(env, w, events, err);
            Exact(poison, events, out) && Cheap(out.w.calls - w.calls, |events|, Poisons(poison, events))
    decreases |events|, 0
  {
    hide Half, Poisoned, Exact, Cheap, Poisons, Park;
    if |events| == 1 {
      assert events == [events[0]] && poison(events[0]);
      OneIsParked(env, poison, w, events[0], err);
      OneIsFree(Poisons(poison, events));
    } else {
      hide Bad;
      var mid := |events| / 2;
      var a, b := events[..mid], events[mid..];
      assert events == a + b;
      PoisonsConcat(poison, a, b);
      BadIffPoisons(poison, events);
      HalfIsExact(env, poison, w, a);
      var left := Half(env, w, a);
      HalfIsExact(env, poison, left.w, b);
      var right := Half(env, left.w, b);
      ExactConcat(poison, a, b, left, right);
      HalvesCost(|events|, mid, Poisons(poison, a), Poisons(poison, b), left.w.calls - w.calls, right.w.calls - left.w.calls);
    }
  }

  lemma ExactConcat(poison: Event -> bool, a: seq<Event>, b: seq<Event>, left: Out, right: Out)
    requires Exact(poison, a, left) && Exact(poison, b, right)
    ensures left.err.None? && right.err.None? && Exact(poison, a + b, Out(None, right.w, left.verdicts + right.verdicts))
  {}

  lemma OneIsFree(k: nat)
    ensures Cheap(0, 1, k)
  {}

  lemma OneIsParked(env: Env, poison: Event -> bool, w: World, event: Event, err: Error)
    requires Poisoned(env, poison) && poison(event)
    ensures var out := Park(env, w, event, err); Exact(poison, [event], out) && out.w.calls == w.calls
  {}

  /** Two halves within their bounds keep the whole within its own. */
  lemma HalvesCost(n: nat, mid: nat, k1: nat, k2: nat, c1: int, c2: int)
    requires n >= 2 && mid == n / 2 && k1 + k2 > 0
    requires if k1 > 0 then Cheap(c1 - 1, mid, k1) else c1 == 1
    requires if k2 > 0 then Cheap(c2 - 1, n - mid, k2) else c2 == 1
    ensures Cheap(c1 + c2, n, k1 + k2)
  {
    var l, k := CeilLog2((n + 1) / 2), k1 + k2;
    CeilLog2Grows(mid, (n + 1) / 2);
    CeilLog2Grows(n - mid, (n + 1) / 2);
    assert CeilLog2(n) == 1 + l;
    hide CeilLog2;
    Bounded(c1 - 1, k1, CeilLog2(mid), l);
    Bounded(c2 - 1, k2, CeilLog2(n - mid), l);
    Spread(k1, k2, l);
  }

  lemma Bounded(c: int, k: nat, m: nat, l: nat)
    requires m <= l && (if k > 0 then c <= 2 * k * m else c == 0)
    ensures c <= 2 * k * l
  {
    assert (2 * k) * m <= (2 * k) * l;
  }

  lemma Spread(a: nat, b: nat, l: nat)
    ensures 2 * (a + b) * (1 + l) == 2 * (a + b) + 2 * a * l + 2 * b * l
  {}

  /** Exactly the poison events are parked, the rest is delivered, and of the n events of a failing
      batch k poison ones cost at most 2k ceil(log2 n) calls of the sink, never more than 2(n - 1). */
  lemma IsolationIsExact(env: Env, poison: Event -> bool, w: World, events: seq<Event>, err: Error)
    requires Poisoned(env, poison) && events != [] && Bad(poison, events)
    ensures var out := Isolate(env, w, events, err);
            && out.err.None? && |out.verdicts| == |events|
            && (forall i :: 0 <= i < |events| ==> (out.verdicts[i] == Parked <==> poison(events[i])))
            && out.w.accepted == w.accepted + Select(events, out.verdicts, Delivered)
            && out.w.parked == w.parked + Select(events, out.verdicts, Parked)
            && out.w.calls - w.calls <= 2 * (|events| - 1)
            && out.w.calls - w.calls <= 2 * Poisons(poison, events) * CeilLog2(|events|)
  {
    hide Isolate, Select, Poisoned, Poisons, Bad;
    IsolateIsExact(env, poison, w, events, err);
    IsolateConserves(env, w, events, err);
  }
}
