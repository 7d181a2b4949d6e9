/**
  The RedisJSON sink: a batch becomes one pipeline of JSON.SET, JSON.MERGE and DEL commands, in
  stream order. Which tables it takes and the key of a row are left to the key resolver.
*/
module RedisJson {
  import opened Prelude
  import opened Events
  import opened DocStore

  /** The key resolver: the tables the sink takes, and an event's key if its template resolves. */
  datatype Resolver = Resolver(takes: Event -> bool, key: Event -> Option<string>)

  datatype Request = Skipped | Refused | Command(op: Op)

  function RequestOf(r: Resolver, ev: Event): Request {
    if !r.takes(ev) || ev.op.Truncate? then Skipped
    else if !ev.op.Delete? && ev.newData.None? then Skipped
    else if r.key(ev).None? then Refused
    else if ev.op.Delete? then Command(Del(r.key(ev).value))
    else if ev.op.Update? && ev.toast != [] then Command(Merge(r.key(ev).value, ev.newData.value))
    else Command(Put(r.key(ev).value, ev.newData.value))
  }

  /** The pipeline of a batch. */
  function Commands(r: Resolver, events: seq<Event>): seq<Op> {
    if events == [] then []
    else
      var last := RequestOf(r, events[|events| - 1]);
      Commands(r, events[..|events| - 1]) + if last.Command? then [last.op] else []
  }

  /** A delete or a row the sink takes whose key template does not resolve. */
  predicate Unresolved(r: Resolver, ev: Event) {
    r.takes(ev) && r.key(ev).None? && (ev.op.Delete? || (IsRow(ev.op) && ev.newData.Some?))
  }

  predicate IsRow(op: Operation) { op.Insert? || op.Read? || op.Update? }

  datatype Result = Ok(pipe: seq<Op>) | Err

  /** Process queues the batch's commands, or fails before sending any when a key is missing. */
  method Process(r: Resolver, events: seq<Event>) returns (result: Result)
    ensures result.Err? <==> exists i :: 0 <= i < |events| && Unresolved(r, events[i])
    ensures result.Ok? ==> result.pipe == Commands(r, events)
  {
    var pipe: seq<Op> := [];
    var i := 0;
    while i < |events|
      invariant 0 <= i <= |events|
      invariant pipe == Commands(r, events[..i])
      invariant forall j :: 0 <= j < i ==> !Unresolved(r, events[j])
    {
      assert events[..i + 1][..i] == events[..i];
      var event := events[i];
      if r.takes(event) {
        var key := r.key(event);
        if event.op == Delete {
          if key.None? { return Err; }
          pipe := pipe + [Del(key.value)];
        } else if event.op != Truncate && event.newData.Some? {
          if key.None? { return Err; }
          if event.op == Update && |event.toast| > 0 {
            pipe := pipe + [Merge(key.value, event.newData.value)];
          } else {
            pipe := pipe + [Put(key.value, event.newData.value)];
          }
        }
      }
      i := i + 1;
    }
    assert events[..|events|] == events;
    result := Ok(pipe);
  }

  /** One more event of a table the sink takes: a delete removes the document under the event's key and
      leaves the others; so does a row, whose document then is there. Anything else, and an event of a
      table the sink does not take, does nothing. */
  lemma EventMeans(r: Resolver, st: Store, events: seq<Event>, ev: Event)
    ensures var m, m' := ApplyAll(st, Commands(r, events)), ApplyAll(st, Commands(r, events + [ev]));
            if !r.takes(ev) || r.key(ev).None? || ev.op.Truncate? || (IsRow(ev.op) && ev.newData.None?) then m' == m
            else if ev.op.Delete? then m' == m - {r.key(ev).value}
            else r.key(ev).value in m' && forall id | id != r.key(ev).value :: Look(m', Doc(id)) == Look(m, Doc(id)) && Held(m', id) == Held(m, id)
  {
    OneCommand(r, st, events, ev);
    hide Commands, ApplyAll;
  }

  lemma OneCommand(r: Resolver, st: Store, events: seq<Event>, ev: Event)
    ensures var m, q := ApplyAll(st, Commands(r, events)), RequestOf(r, ev);
            ApplyAll(st, Commands(r, events + [ev])) == if q.Command? then Apply(m, q.op) else m
  {
    assert (events + [ev])[..|events|] == events;
    var q := RequestOf(r, ev);
    hide RequestOf, Apply;
    if q.Command? {
      assert (Commands(r, events) + [q.op])[..|Commands(r, events)|] == Commands(r, events);
    } else {
      assert Commands(r, events) + [] == Commands(r, events);
    }
  }

  /** Field by field: an update that omits unchanged TOAST columns sets what it carries, removes what
      it sets to null, and keeps every other field of the document; any other row replaces the
      document. */
  lemma RowMeans(r: Resolver, st: Store, events: seq<Event>, ev: Event, f: string)
    requires r.takes(ev) && r.key(ev).Some? && IsRow(ev.op) && ev.newData.Some?
    ensures var m, m' := ApplyAll(st, Commands(r, events)), ApplyAll(st, Commands(r, events + [ev]));
            var cell, data := Field(r.key(ev).value, f), ev.newData.value;
            Look(m', cell) ==
              if ev.op.Update? && ev.toast != [] then
                if f !in data then Look(m, cell) else if data[f].Null? then None else Some(data[f])
              else Fetch(data, f)
  {
    OneCommand(r, st, events, ev);
    hide Commands, ApplyAll;
    SetsCell(ApplyAll(st, Commands(r, events)), RequestOf(r, ev).op, Field(r.key(ev).value, f));
  }

  lemma {:induction false} CommandsConcat(r: Resolver, a: seq<Event>, b: seq<Event>)
    ensures Commands(r, a + b) == Commands(r, a) + Commands(r, b)
  {
    if b == [] {
      assert a + b == a;
    } else {
      var n := |b| - 1;
      assert (a + b)[..|a + b| - 1] == a + b[..n];
      CommandsConcat(r, a, b[..n]);
    }
  }

  /** One life of the sink: it executes the commands of the events `start..full`, in order, and of a
      pipeline after those that failed any commands, since Redis goes on past a failed one. */
  datatype Life = Life(start: nat, full: nat, extra: seq<Op>)

  ghost predicate LifeOk(r: Resolver, events: seq<Event>, l: Life) {
    l.start <= l.full <= |events| && forall op | op in l.extra :: op in Commands(r, events[l.full..])
  }

  ghost function AfterLives(r: Resolver, events: seq<Event>, st: Store, lives: seq<Life>): Store
    requires forall i :: 0 <= i < |lives| ==> LifeOk(r, events, lives[i])
  {
    if lives == [] then st
    else
      var l := lives[|lives| - 1];
      assert LifeOk(r, events, l);
      ApplyAll(ApplyAll(AfterLives(r, events, st, lives[..|lives| - 1]), Commands(r, events[l.start..l.full])), l.extra)
  }

  /** A life starts at or after the one before did, and no later than that one's last whole batch. */
  ghost predicate Chained(r: Resolver, events: seq<Event>, lives: seq<Life>) {
    && (forall i :: 0 <= i < |lives| ==> LifeOk(r, events, lives[i]))
    && (lives != [] ==> lives[0].start == 0)
    && (forall i, j {:trigger lives[i], lives[j]} :: 0 <= i < |lives| && 0 <= j < |lives| && j == i + 1 ==>
          lives[i].start <= lives[j].start <= lives[i].full)
  }

  function Pos(r: Resolver, events: seq<Event>, at: nat): nat
    requires at <= |events|
  {
    |Commands(r, events[..at])|
  }

  lemma Slice(r: Resolver, events: seq<Event>, a: nat, b: nat)
    requires a <= b <= |events|
    ensures Pos(r, events, a) <= Pos(r, events, b) <= |Commands(r, events)|
    ensures Commands(r, events[a..b]) == Commands(r, events)[Pos(r, events, a)..Pos(r, events, b)]
  {
    hide Commands;
    assert events[..b] == events[..a] + events[a..b] && events == events[..b] + events[b..];
    CommandsConcat(r, events[..a], events[a..b]);
    CommandsConcat(r, events[..b], events[b..]);
  }

  lemma LifeIsSession(r: Resolver, events: seq<Event>, l: Life) returns (s: Session)
    requires LifeOk(r, events, l)
    ensures s == Session(Pos(r, events, l.start), Pos(r, events, l.full), l.extra) && SessionOk(Commands(r, events), s)
    ensures Commands(r, events[l.start..l.full]) == Commands(r, events)[s.start..s.full]
  {
    hide Commands;
    s := Session(Pos(r, events, l.start), Pos(r, events, l.full), l.extra);
    Slice(r, events, l.start, l.full);
    Slice(r, events, l.full, |events|);
    assert events[..|events|] == events && events[l.full..|events|] == events[l.full..];
    assert Commands(r, events)[s.full..|Commands(r, events)|] == Commands(r, events)[s.full..];
  }

  lemma {:induction false} LivesAreSessions(r: Resolver, events: seq<Event>, st: Store, lives: seq<Life>) returns (sessions: seq<Session>)
    requires Chained(r, events, lives)
    ensures |sessions| == |lives| && Resumes(sessions, Commands(r, events))
    ensures AfterLives(r, events, st, lives) == AfterSessions(st, Commands(r, events), sessions)
    ensures lives != [] ==>
              var l, s := lives[|lives| - 1], sessions[|lives| - 1];
              l.start <= l.full <= |events| && s.start == Pos(r, events, l.start) && s.full == Pos(r, events, l.full)
  {
    hide Commands, ApplyAll, Pos, Resumes, AfterSessions, SessionOk;
    if lives == [] {
      sessions := [];
      NoSessions(st, Commands(r, events));
    } else {
      var front, l := lives[..|lives| - 1], lives[|lives| - 1];
      var before := LivesAreSessions(r, events, st, front);
      assert LifeOk(r, events, l);
      var session := LifeIsSession(r, events, l);
      if front == [] {
        NoneBefore(r, events);
      } else {
        var p := front[|front| - 1];
        assert p == lives[|lives| - 2];
        Slice(r, events, p.start, l.start);
        Slice(r, events, l.start, p.full);
      }
      sessions := before + [session];
      OneMoreSession(st, Commands(r, events), before, session);
    }
  }

  lemma NoneBefore(r: Resolver, events: seq<Event>)
    ensures Pos(r, events, 0) == 0
  {}

  /** Replay is harmless for RedisJSON: after any number of crashes and half-failed pipelines, once a
      life gets everything executed the store is what all commands executed once, in order, leave. */
  lemma RedisReplayIsHarmless(r: Resolver, events: seq<Event>, st: Store, lives: seq<Life>)
    requires Chained(r, events, lives) && lives != [] && lives[|lives| - 1].full == |events|
    ensures AfterLives(r, events, st, lives) == ApplyAll(st, Commands(r, events))
  {
    hide Commands, ApplyAll, AfterLives, AfterSessions, Resumes;
    var sessions := LivesAreSessions(r, events, st, lives);
    assert events[..|events|] == events;
    ReplayIsHarmless(st, Commands(r, events), sessions);
  }
}
