/**
  The Meilisearch sink under crashes and replays: batches may be cut short between two tasks and
  streamed again from an earlier confirmed event.
*/
module MeiliReplay {
  import opened Prelude
  import opened Events
  import opened DocStore
  import opened MeiliPlan

  lemma {:induction false} OpsForConcat(cfg: Config, a: seq<Event>, b: seq<Event>, index: string)
    ensures OpsFor(cfg, a + b, index) == OpsFor(cfg, a, index) + OpsFor(cfg, b, index)
  {
    if b == [] {
      assert a + b == a;
    } else {
      var n := |b| - 1;
      assert (a + b)[..|a + b| - 1] == a + b[..n];
      OpsForConcat(cfg, a, b[..n], index);
    }
  }

  /** Where event `at` stands among the operations of an index. */
  function OpPos(cfg: Config, events: seq<Event>, index: string, at: nat): nat
    requires at <= |events|
  {
    |OpsFor(cfg, events[..at], index)|
  }

  lemma Slice(cfg: Config, events: seq<Event>, index: string, a: nat, b: nat)
    requires a <= b <= |events|
    ensures OpPos(cfg, events, index, a) <= OpPos(cfg, events, index, b) <= |OpsFor(cfg, events, index)|
    ensures OpsFor(cfg, events[a..b], index) ==
            OpsFor(cfg, events, index)[OpPos(cfg, events, index, a)..OpPos(cfg, events, index, b)]
  {
    hide OpsFor;
    assert events[..b] == events[..a] + events[a..b] && events == events[..b] + events[b..];
    OpsForConcat(cfg, events[..a], events[a..b], index);
    OpsForConcat(cfg, events[..b], events[b..], index);
  }

  /** Some tasks of a batch, in some order. */
  function ApplyPicked(m: Index, runs: seq<Run>, tasks: seq<nat>): Index
    requires forall i :: 0 <= i < |tasks| ==> tasks[i] < |runs|
  {
    if tasks == [] then m else ApplyRun(ApplyPicked(m, runs, tasks[..|tasks| - 1]), runs[tasks[|tasks| - 1]])
  }

  /** One life of the sink as index `index` sees it: events `start..full` in whole batches, then of
      the batch `full..last`, which failed or was never confirmed, the tasks that went through. Tasks
      are all enqueued before any is awaited, so later ones may go through when an earlier one fails. */
  datatype Life = Life(start: nat, full: nat, last: nat, tasks: seq<nat>)

  ghost predicate LifeOk(cfg: Config, events: seq<Event>, index: string, l: Life)
    requires Agreed(cfg)
  {
    && l.start <= l.full <= l.last <= |events|
    && forall i :: 0 <= i < |l.tasks| ==> l.tasks[i] < |RunsFor(cfg, events[l.full..l.last], index)|
  }

  ghost function AfterLife(cfg: Config, events: seq<Event>, index: string, m: Index, l: Life): Index
    requires Agreed(cfg) && LifeOk(cfg, events, index, l)
  {
    ApplyPicked(ApplyAll(m, OpsFor(cfg, events[l.start..l.full], index)), RunsFor(cfg, events[l.full..l.last], index), l.tasks)
  }

  ghost function AfterLives(cfg: Config, events: seq<Event>, index: string, m: Index, lives: seq<Life>): Index
    requires Agreed(cfg) && forall i :: 0 <= i < |lives| ==> LifeOk(cfg, events, index, lives[i])
  {
    if lives == [] then m
    else AfterLife(cfg, events, index, AfterLives(cfg, events, index, m, lives[..|lives| - 1]), lives[|lives| - 1])
  }

  /** A life starts from what an earlier one confirmed: never before that one's own start, never
      past its last whole batch. */
  ghost predicate Chained(lives: seq<Life>) {
    && (lives != [] ==> lives[0].start == 0)
    && (forall i, j {:trigger lives[i], lives[j]} :: 0 <= i < |lives| && 0 <= j < |lives| && j == i + 1 ==>
          lives[i].start <= lives[j].start <= lives[i].full)
  }

  /** The tasks that went through did some of the batch's operations. */
  lemma {:induction false} PickedMeans(pk: string, ops: seq<IndexOp>, tasks: seq<nat>) returns (extra: seq<IndexOp>)
    requires OpsOk(pk, ops) && forall i :: 0 <= i < |tasks| ==> tasks[i] < |Planned(pk, ops)|
    ensures forall op | op in extra :: op in ops
    ensures forall m: Index :: ApplyPicked(m, Planned(pk, ops), tasks) == ApplyAll(m, extra)
  {
    hide Planned, ApplyAll, ApplyRun;
    if tasks == [] {
      extra := [];
      forall m: Index ensures ApplyPicked(m, Planned(pk, ops), tasks) == ApplyAll(m, extra) { NoOps(m); }
    } else {
      var n := |tasks| - 1;
      var before := PickedMeans(pk, ops, tasks[..n]);
      var lo, hi := RunMeans(pk, ops, tasks[n]);
      extra := before + ops[lo..hi];
      forall m: Index ensures ApplyPicked(m, Planned(pk, ops), tasks) == ApplyAll(m, extra) {
        ApplyAllConcat(m, before, ops[lo..hi]);
      }
    }
  }

  lemma LifeIsSession(cfg: Config, events: seq<Event>, index: string, l: Life) returns (s: Session)
    requires Agreed(cfg) && LifeOk(cfg, events, index, l)
    ensures SessionOk(OpsFor(cfg, events, index), s)
    ensures s.start == OpPos(cfg, events, index, l.start) && s.full == OpPos(cfg, events, index, l.full)
    ensures forall m: Index :: AfterLife(cfg, events, index, m, l) == AfterSession(m, OpsFor(cfg, events, index), s)
  {
    hide OpsFor, ApplyAll, ApplyPicked, Planned, OpPos;
    Slice(cfg, events, index, l.start, l.full);
    Slice(cfg, events, index, l.full, l.last);
    var all, batch, pk := OpsFor(cfg, events, index), OpsFor(cfg, events[l.full..l.last], index), IndexKey(cfg, index);
    OpsForOk(cfg, events[l.full..l.last], index);
    var extra := PickedMeans(pk, batch, l.tasks);
    s := Session(OpPos(cfg, events, index, l.start), OpPos(cfg, events, index, l.full), extra);
    var rest := OpPos(cfg, events, index, l.last);
    assert all[s.full..] == all[s.full..rest] + all[rest..];
  }

  /** Seen from one index, a chain of lives is a chain of sessions over its operations. */
  lemma {:induction false} LivesAreSessions(cfg: Config, events: seq<Event>, index: string, m: Index, lives: seq<Life>)
    returns (sessions: seq<Session>)
    requires Agreed(cfg) && Chained(lives) && forall i :: 0 <= i < |lives| ==> LifeOk(cfg, events, index, lives[i])
    ensures |sessions| == |lives| && Resumes(sessions, OpsFor(cfg, events, index))
    ensures AfterLives(cfg, events, index, m, lives) == AfterSessions(m, OpsFor(cfg, events, index), sessions)
    ensures lives != [] ==>
              var l, s := lives[|lives| - 1], sessions[|lives| - 1];
              && l.start <= l.full <= |events|
              && s.start == OpPos(cfg, events, index, l.start) && s.full == OpPos(cfg, events, index, l.full)
  {
    hide OpsFor, ApplyAll, OpPos, AfterLife, Resumes, Agreed, RunsFor, AfterSessions, AfterSession, SessionOk;
    if lives == [] {
      sessions := [];
      NoSessions(m, OpsFor(cfg, events, index));
    } else {
      var front, l := lives[..|lives| - 1], lives[|lives| - 1];
      var before := LivesAreSessions(cfg, events, index, m, front);
      var session := LifeIsSession(cfg, events, index, l);
      sessions := before + [session];
      if front == [] {
        NoneBefore(cfg, events, index);
      } else {
        var p := front[|front| - 1];
        assert p == lives[|lives| - 2];
        Slice(cfg, events, index, p.start, l.start);
        Slice(cfg, events, index, l.start, p.full);
      }
      OneMoreSession(m, OpsFor(cfg, events, index), before, session);
    }
  }

  lemma NoneBefore(cfg: Config, events: seq<Event>, index: string)
    ensures OpPos(cfg, events, index, 0) == 0
  {}

  /** Replay is harmless for Meilisearch: once a life has handed over the last batch whole, every
      index holds what the events applied once, in order, leave there. */
  lemma MeiliReplayIsHarmless(cfg: Config, events: seq<Event>, index: string, store: Indexes, lives: seq<Life>)
    requires Agreed(cfg) && Chained(lives) && forall i :: 0 <= i < |lives| ==> LifeOk(cfg, events, index, lives[i])
    requires lives != [] && lives[|lives| - 1].full == |events|
    ensures AfterLives(cfg, events, index, IndexAt(store, index), lives) == IndexAt(ApplyEvents(cfg, store, events), index)
  {
    hide OpsFor, ApplyAll, AfterLife, AfterLives, AfterSessions, ApplyEvents, Resumes;
    var sessions := LivesAreSessions(cfg, events, index, IndexAt(store, index), lives);
    assert events[..|events|] == events;
    ReplayIsHarmless(IndexAt(store, index), OpsFor(cfg, events, index), sessions);
    EventsAt(cfg, store, events, index);
  }
}
