/**
  What the dead-letter layer does to the store and to the logs, call by call.
*/
module Parking {
  import opened Prelude
  import opened Events
  import opened Delivery

  // ---------------------------------------------------------------- the retry layer

  lemma {:induction false} AttemptsKeep(env: Env, w: World, events: seq<Event>, left: nat)
    ensures var out := Attempts(env, w, events, left);
            && out.w.parked == w.parked && out.w.accepted == w.accepted + (if out.err.None? then events else [])
            && (out.err.None? ==> out.verdicts == All(Delivered, |events|))
            && out.w.calls == w.calls && out.w.hash == w.hash && out.w.index == w.index
            && out.w.failures == w.failures && out.w.notes == w.notes
    decreases left
  {
    var reply := env.attempt(w.tick, events);
    if reply.Accepted? || reply.err.permanent || env.cancelled(w.tick + 1) || left == 0 || env.cancelled(w.tick + 2) {
    } else {
      AttemptsKeep(env, w.(tick := w.tick + 3, tried := w.tried + events), events, left - 1);
    }
  }

  /** The retry layer touches neither the store nor the counts, and delivers all or nothing. */
  lemma InnerKeeps(env: Env, w: World, events: seq<Event>)
    ensures var out := Inner(env, w, events);
            && (out.err.None? ==> out.verdicts == All(Delivered, |events|))
            && out.w.parked == w.parked && out.w.accepted == w.accepted + (if out.err.None? then events else [])
            && out.w.hash == w.hash && out.w.index == w.index && out.w.failures == w.failures && out.w.notes == w.notes
            && (events != [] ==> out.w.calls == w.calls + 1)
  {
    hide Attempts;
    if events != [] && !env.open(w.tick) {
      AttemptsKeep(env, Asked(w).(calls := w.calls + 1), events, env.maxRetries);
    }
  }

  // ---------------------------------------------------------------- hash and index

  /** Hash and index hold the same ids, within the cap. */
  ghost predicate StoreOk(env: Env, w: World) {
    w.hash.Keys == w.index && (env.cap > 0 ==> |w.index| <= env.cap)
  }

  /** From `w` to `w'` entries are only added or rewritten, by events of `events`. */
  ghost predicate Parks(w: World, w': World, events: seq<Event>) {
    && (forall id | id in w.hash :: id in w'.hash)
    && (forall id | id in w'.hash ::
          (id in w.hash && w'.hash[id] == w.hash[id]) || exists i :: 0 <= i < |events| && Under(events[i], id, w'.hash[id]))
  }

  predicate Under(ev: Event, id: string, entry: Entry) { ev.id == id && entry.event == ev }

  lemma ParksTrans(a: World, b: World, c: World, evs: seq<Event>, evs1: seq<Event>, evs2: seq<Event>)
    requires Parks(a, b, evs1) && Parks(b, c, evs2)
    requires forall ev | ev in evs1 || ev in evs2 :: ev in evs
    ensures Parks(a, c, evs)
  {
    forall id | id in c.hash
      ensures (id in a.hash && c.hash[id] == a.hash[id]) || exists i :: 0 <= i < |evs| && Under(evs[i], id, c.hash[id])
    {
      if !(id in a.hash && c.hash[id] == a.hash[id]) {
        var ev: Event;
        if id in b.hash && c.hash[id] == b.hash[id] {
          var i :| 0 <= i < |evs1| && Under(evs1[i], id, b.hash[id]);
          ev := evs1[i];
        } else {
          var i :| 0 <= i < |evs2| && Under(evs2[i], id, c.hash[id]);
          ev := evs2[i];
        }
        assert ev in evs;
        var j :| 0 <= j < |evs| && evs[j] == ev;
        assert Under(evs[j], id, c.hash[id]);
      }
    }
  }

  lemma ParkedInKeeps(env: Env, w: World, id: string, entry: Entry)
    ensures var w' := ParkedIn(env, w, id, entry).1;
            && (StoreOk(env, w) ==> StoreOk(env, w')) && w'.accepted == w.accepted && w'.parked == w.parked
            && w'.failures == w.failures && w'.notes == w.notes
            && (w'.hash == w.hash || w'.hash == w.hash[id := entry])
            && (ParkedIn(env, w, id, entry).0 ==> w'.hash == w.hash[id := entry])
  {}

  lemma SameStore(env: Env, w: World, w': World, events: seq<Event>)
    requires w'.hash == w.hash && w'.index == w.index
    ensures (StoreOk(env, w) ==> StoreOk(env, w')) && Parks(w, w', events)
  {}

  lemma ParkParks(env: Env, w: World, event: Event, cause: Error)
    ensures (StoreOk(env, w) ==> StoreOk(env, Park(env, w, event, cause).w)) && Parks(w, Park(env, w, event, cause).w, [event])
  {
    hide ParkedIn, StoreOk;
    var entry := Entry(event, ParkAttempts(w, event.id));
    ParkedInKeeps(env, w, event.id, entry);
    var w' := Park(env, w, event, cause).w;
    SameStore(env, ParkedIn(env, w, event.id, entry).1, w', []);
    assert Under([event][0], event.id, entry);
  }

  lemma {:induction false} HalfParks(env: Env, w: World, half: seq<Event>)
    requires half != []
    ensures (StoreOk(env, w) ==> StoreOk(env, Half(env, w, half).w)) && Parks(w, Half(env, w, half).w, half)
    decreases |half|, 1
  {
    hide Inner, Isolate, StoreOk, Parks;
    InnerKeeps(env, w, half);
    var out := Inner(env, w, half);
    if out.err.None? || Stalls(env, out.w, out.err.value) {
      SameStore(env, w, Half(env, w, half).w, half);
    } else {
      SameStore(env, w, Asked(out.w), half);
      IsolateParks(env, Asked(out.w), half, out.err.value);
      ParksTrans(w, Asked(out.w), Half(env, w, half).w, half, half, half);
    }
  }

  lemma {:induction false} IsolateParks(env: Env, w: World, events: seq<Event>, err: Error)
    requires events != []
    ensures (StoreOk(env, w) ==> StoreOk(env, Isolate(env, w, events, err).w)) && Parks(w, Isolate(env, w, events, err).w, events)
    decreases |events|, 0
  {
    hide Half, StoreOk, Parks, Park;
    if |events| == 1 {
      ParkParks(env, w, events[0], err);
      assert events == [events[0]];
    } else {
      var mid := |events| / 2;
      var a, b := events[..mid], events[mid..];
      HalfParks(env, w, a);
      var left := Half(env, w, a);
      if left.err.None? {
        HalfParks(env, left.w, b);
        ParksTrans(w, left.w, Half(env, left.w, b).w, events, a, b);
      } else {
        SameStore(env, left.w, left.w, []);
        ParksTrans(w, left.w, left.w, events, a, []);
      }
    }
  }

  /** A delivery only adds or rewrites entries, each with one of its own events. */
  lemma ProcessParks(env: Env, w: World, events: seq<Event>)
    ensures (StoreOk(env, w) ==> StoreOk(env, Process(env, w, events).w)) && Parks(w, Process(env, w, events).w, events)
  {
    hide Inner, Isolate, StoreOk, Parks;
    SameStore(env, w, w, events);
    if events != [] {
      InnerKeeps(env, w, events);
      var out := Inner(env, w, events);
      if out.err.None? || Stalls(env, out.w, out.err.value) {
        SameStore(env, w, Process(env, w, events).w, events);
      } else {
        var w1 := if out.err.value.permanent then Asked(out.w) else Recorded(Asked(out.w), events[0].id);
        SameStore(env, w, w1, events);
        IsolateParks(env, w1, events, out.err.value);
        ParksTrans(w, w1, Isolate(env, w1, events, out.err.value).w, events, events, events);
      }
    }
  }

  // ---------------------------------------------------------------- what the store holds

  /** The store holds `ev` itself under its id. */
  predicate Holds(w: World, ev: Event) { ev.id in w.hash && w.hash[ev.id].event == ev }

  /** Ids identify the events of a batch. */
  ghost predicate SameIds(events: seq<Event>) {
    forall a, b | a in events && b in events && a.id == b.id :: a == b
  }

  ghost predicate HoldsParked(w: World, events: seq<Event>, verdicts: seq<Verdict>) {
    |events| == |verdicts| && forall i :: 0 <= i < |events| && verdicts[i] == Parked ==> Holds(w, events[i])
  }

  /** Later parkings leave a held event alone unless one of them is another event with its id. */
  lemma StillHeld(w: World, w': World, later: seq<Event>, ev: Event)
    requires Holds(w, ev) && Parks(w, w', later) && (forall e | e in later && e.id == ev.id :: e == ev)
    ensures Holds(w', ev)
  {
    if w'.hash[ev.id] != w.hash[ev.id] {
      var i :| 0 <= i < |later| && Under(later[i], ev.id, w'.hash[ev.id]);
      assert later[i] in later;
    }
  }

  lemma HoldsParkedConcat(w1: World, w2: World, a: seq<Event>, av: seq<Verdict>, b: seq<Event>, bv: seq<Verdict>)
    requires SameIds(a + b) && HoldsParked(w1, a, av) && HoldsParked(w2, b, bv) && Parks(w1, w2, b)
    ensures HoldsParked(w2, a + b, av + bv)
  {
    hide Parks;
    forall i | 0 <= i < |a + b| && (av + bv)[i] == Parked ensures Holds(w2, (a + b)[i]) {
      if i < |a| {
        assert a[i] in a + b && forall e | e in b :: e in a + b;
        StillHeld(w1, w2, b, a[i]);
      }
    }
  }

  lemma SameIdsPart(a: seq<Event>, b: seq<Event>)
    requires SameIds(a + b)
    ensures SameIds(a) && SameIds(b)
  {
    assert forall e | e in a :: e in a + b;
    assert forall e | e in b :: e in a + b;
  }

  // ---------------------------------------------------------------- what is tried, accepted and parked

  /** A log grew, by events of `events` only. */
  ghost predicate Adds(log: seq<Event>, log': seq<Event>, events: seq<Event>) {
    |log| <= |log'| && log'[..|log|] == log && forall ev | ev in log'[|log|..] :: ev in events
  }

  lemma AddsTrans(a: seq<Event>, b: seq<Event>, c: seq<Event>, evs: seq<Event>, evs1: seq<Event>, evs2: seq<Event>)
    requires Adds(a, b, evs1) && Adds(b, c, evs2) && (forall ev | ev in evs1 || ev in evs2 :: ev in evs)
    ensures Adds(a, c, evs)
  {
    assert c[..|a|] == c[..|b|][..|a|];
    assert c[|a|..] == c[..|b|][|a|..] + c[|b|..];
  }

  lemma AddsSome(log: seq<Event>, some: seq<Event>, events: seq<Event>)
    requires forall ev | ev in some :: ev in events
    ensures Adds(log, log + some, events)
  {
    assert (log + some)[|log|..] == some && (log + some)[..|log|] == log;
  }

  /** Whether or not the call fails, it hands to the backend, accepts and parks only events of its
      batch. */
  ghost predicate OnlyFrom(w: World, w': World, events: seq<Event>) {
    Adds(w.tried, w'.tried, events) && Adds(w.accepted, w'.accepted, events) && Adds(w.parked, w'.parked, events)
  }

  lemma {:induction false} AttemptsTry(env: Env, w: World, events: seq<Event>, left: nat)
    ensures Adds(w.tried, Attempts(env, w, events, left).w.tried, events)
    decreases left
  {
    var reply := env.attempt(w.tick, events);
    AddsSome(w.tried, events, events);
    if reply.Accepted? || reply.err.permanent || env.cancelled(w.tick + 1) || left == 0 || env.cancelled(w.tick + 2) {
    } else {
      var w1 := w.(tick := w.tick + 3, tried := w.tried + events);
      AttemptsTry(env, w1, events, left - 1);
      AddsTrans(w.tried, w1.tried, Attempts(env, w1, events, left - 1).w.tried, events, events, events);
    }
  }

  lemma InnerTries(env: Env, w: World, events: seq<Event>)
    ensures Adds(w.tried, Inner(env, w, events).w.tried, events)
  {
    hide Attempts;
    AddsSome(w.tried, [], events);
    assert w.tried + [] == w.tried;
    if events != [] && !env.open(w.tick) {
      AttemptsTry(env, Asked(w).(calls := w.calls + 1), events, env.maxRetries);
    }
  }

  lemma OnlyFromTrans(a: World, b: World, c: World, evs: seq<Event>, evs1: seq<Event>, evs2: seq<Event>)
    requires OnlyFrom(a, b, evs1) && OnlyFrom(b, c, evs2) && (forall ev | ev in evs1 || ev in evs2 :: ev in evs)
    ensures OnlyFrom(a, c, evs)
  {
    hide Adds;
    AddsTrans(a.tried, b.tried, c.tried, evs, evs1, evs2);
    AddsTrans(a.accepted, b.accepted, c.accepted, evs, evs1, evs2);
    AddsTrans(a.parked, b.parked, c.parked, evs, evs1, evs2);
  }

  lemma InnerOnly(w: World, w': World, events: seq<Event>)
    requires Adds(w.tried, w'.tried, events) && w'.parked == w.parked && (w'.accepted == w.accepted || w'.accepted == w.accepted + events)
    ensures OnlyFrom(w, w', events)
  {
    AddsSome(w.accepted, [], events);
    AddsSome(w.accepted, events, events);
    AddsSome(w.parked, [], events);
    assert w.accepted + [] == w.accepted && w.parked + [] == w.parked;
  }

  lemma NothingAdded(w: World)
    ensures OnlyFrom(w, w, [])
  {
    assert w.tried + [] == w.tried && w.accepted + [] == w.accepted && w.parked + [] == w.parked;
    AddsSome(w.tried, [], []);
    AddsSome(w.accepted, [], []);
    AddsSome(w.parked, [], []);
  }

  lemma {:induction false} HalfOnly(env: Env, w: World, half: seq<Event>)
    requires half != []
    ensures OnlyFrom(w, Half(env, w, half).w, half)
    decreases |half|, 1
  {
    hide Inner, Isolate, OnlyFrom;
    InnerKeeps(env, w, half);
    InnerTries(env, w, half);
    var out := Inner(env, w, half);
    InnerOnly(w, Asked(out.w), half);
    if out.err.None? {
      InnerOnly(w, Half(env, w, half).w, half);
    } else if !Stalls(env, out.w, out.err.value) {
      IsolateOnly(env, Asked(out.w), half, out.err.value);
      OnlyFromTrans(w, Asked(out.w), Half(env, w, half).w, half, half, half);
    }
  }

  lemma ParkOnly(env: Env, w: World, event: Event, err: Error)
    ensures OnlyFrom(w, Park(env, w, event, err).w, [event])
  {
    AddsSome(w.tried, [], [event]);
    AddsSome(w.accepted, [], [event]);
    AddsSome(w.parked, [event], [event]);
    AddsSome(w.parked, [], [event]);
    assert w.tried + [] == w.tried && w.accepted + [] == w.accepted && w.parked + [] == w.parked;
    hide Adds;
  }

  lemma {:induction false} IsolateOnly(env: Env, w: World, events: seq<Event>, err: Error)
    requires events != []
    ensures OnlyFrom(w, Isolate(env, w, events, err).w, events)
    decreases |events|, 0
  {
    hide Half, Park, OnlyFrom;
    if |events| == 1 {
      ParkOnly(env, w, events[0], err);
      assert events == [events[0]];
    } else {
      var mid := |events| / 2;
      var a, b := events[..mid], events[mid..];
      HalfOnly(env, w, a);
      var left := Half(env, w, a);
      NothingAdded(left.w);
      OnlyFromTrans(w, left.w, left.w, events, a, []);
      if left.err.None? {
        HalfOnly(env, left.w, b);
        OnlyFromTrans(w, left.w, Half(env, left.w, b).w, events, a, b);
      }
    }
  }

  lemma ProcessOnly(env: Env, w: World, events: seq<Event>)
    ensures OnlyFrom(w, Process(env, w, events).w, events)
  {
    hide Inner, Isolate, OnlyFrom;
    NothingAdded(w);
    OnlyFromTrans(w, w, w, events, [], []);
    if events != [] {
      InnerKeeps(env, w, events);
      InnerTries(env, w, events);
      var out := Inner(env, w, events);
      if out.err.None? || Stalls(env, out.w, out.err.value) {
        InnerOnly(w, Process(env, w, events).w, events);
      } else {
        var w1 := if out.err.value.permanent then Asked(out.w) else Recorded(Asked(out.w), events[0].id);
        InnerOnly(w, w1, events);
        IsolateOnly(env, w1, events, out.err.value);
        OnlyFromTrans(w, w1, Isolate(env, w1, events, out.err.value).w, events, events, events);
      }
    }
  }
}
