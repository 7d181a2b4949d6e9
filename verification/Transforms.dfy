/**
  What a sink gets of an event: the transforms column by column, which batches it is handed, and when
  a batch goes through.
*/
module Transforms {
  import opened Prelude
  import opened Events
  import opened Delivery
  import opened Outages
  import opened Pipeline

  // ---------------------------------------------------------------- one column

  function Column(data: Data, c: string): Option<Value> { if c in data then Some(data[c]) else None }

  /** What the steps leave of a column's value, one after the other: a step that drops the column takes
      it away, one that masks it replaces a value that is not null. */
  function Through(chain: Chain, c: string, v: Option<Value>): Option<Value> {
    if chain == [] then v
    else
      var before, step := Through(chain[..|chain| - 1], c, v), chain[|chain| - 1];
      if before.None? || c in step.drop then None
      else if c in step.mask && before.value != Null then Some(step.mask[c](before.value))
      else before
  }

  /** A column any step drops is gone; one that no step names is as it was; a null stays null. */
  lemma {:induction false} ThroughMeans(chain: Chain, c: string, v: Option<Value>)
    ensures (exists i :: 0 <= i < |chain| && c in chain[i].drop) ==> Through(chain, c, v) == None
    ensures (forall i :: 0 <= i < |chain| ==> c !in chain[i].drop && c !in chain[i].mask) ==> Through(chain, c, v) == v
    ensures v == Some(Null) && (forall i :: 0 <= i < |chain| ==> c !in chain[i].drop) ==> Through(chain, c, v) == Some(Null)
  {
    if chain == [] {
    } else {
      var n := |chain| - 1;
      ThroughMeans(chain[..n], c, v);
      if i :| 0 <= i < |chain| && c in chain[i].drop {
        assert i < n ==> chain[..n][i] == chain[i];
      }
    }
  }

  /** The data is there exactly when it was, and every column is what the steps leave of it. */
  ghost predicate PutThrough(chain: Chain, data: Option<Data>, data': Option<Data>) {
    data.Some? == data'.Some? && (data.Some? ==> forall c :: Column(data'.value, c) == Through(chain, c, Column(data.value, c)))
  }

  // ---------------------------------------------------------------- chains from their end

  lemma {:induction false} ApplyConcat(a: Chain, b: Chain, ev: Event)
    ensures Apply(a + b, ev) == if Apply(a, ev).Passed? then Apply(b, Apply(a, ev).event) else Apply(a, ev)
    decreases |a|
  {
    if a == [] {
      assert a + b == b;
    } else {
      assert (a + b)[1..] == a[1..] + b && (a + b)[0] == a[0];
      ApplyConcat(a[1..], b, ScrubbedEvent(ev, a[0]));
    }
  }

  lemma ApplyLast(chain: Chain, ev: Event)
    requires chain != []
    ensures var n := |chain| - 1; var before := Apply(chain[..n], ev);
            Apply(chain, ev) ==
              if !before.Passed? then before
              else match Rule(chain[n].filter, before.event)
                case Fault => Broken
                case Drop => Filtered
                case Keep => Passed(ScrubbedEvent(before.event, chain[n]))
  {
    var n := |chain| - 1;
    assert chain == chain[..n] + [chain[n]];
    ApplyConcat(chain[..n], [chain[n]], ev);
    hide ScrubbedEvent, Rule;
    if Apply(chain[..n], ev).Passed? {
      var e := Apply(chain[..n], ev).event;
      assert [chain[n]][1..] == [];
      assert Apply([], ScrubbedEvent(e, chain[n])) == Passed(ScrubbedEvent(e, chain[n]));
    }
  }

  // ---------------------------------------------------------------- what a chain does

  /** What passes keeps its id, operation and table, and its new and its old row have both been put
      through every step. */
  lemma {:induction false} ChainMeans(chain: Chain, ev: Event)
    requires Apply(chain, ev).Passed?
    ensures var e := Apply(chain, ev).event;
            && e.id == ev.id && e.op == ev.op && e.schema == ev.schema && e.table == ev.table && e.toast == ev.toast
            && PutThrough(chain, ev.newData, e.newData) && PutThrough(chain, ev.oldData, e.oldData)
  {
    if chain == [] {
    } else {
      var n := |chain| - 1;
      ApplyLast(chain, ev);
      hide Apply, PutThrough, Scrubbed;
      ChainMeans(chain[..n], ev);
      var before := Apply(chain[..n], ev).event;
      StepThrough(chain, ev.newData, before.newData);
      StepThrough(chain, ev.oldData, before.oldData);
    }
  }

  lemma StepThrough(chain: Chain, data: Option<Data>, before: Option<Data>)
    requires chain != [] && PutThrough(chain[..|chain| - 1], data, before)
    ensures PutThrough(chain, data, ScrubbedOpt(before, chain[|chain| - 1]))
  {
    if data.Some? {
      forall c ensures Column(ScrubbedOpt(before, chain[|chain| - 1]).value, c) == Through(chain, c, Column(data.value, c)) {
        assert Column(before.value, c) == Through(chain[..|chain| - 1], c, Column(data.value, c));
      }
    }
  }

  /** What a step's filter says about the event that reaches it; a missing row is an empty one. */
  predicate Says(step: Spec, e: Event, ruling: Ruling) {
    if step.filter.None? then ruling.Keep?
    else
      var f := step.filter.value.full;
      ruling == f(e.op, e.schema, e.table, if e.newData.Some? then e.newData.value else map[], if e.oldData.Some? then e.oldData.value else map[])
  }

  ghost predicate StopsAt(chain: Chain, ev: Event, n: nat, ruling: Ruling) {
    n < |chain| && Apply(chain[..n], ev).Passed? && Says(chain[n], Apply(chain[..n], ev).event, ruling)
  }

  /** An event is filtered out, or the chain fails on it, exactly when some step's filter says so of what
      the steps before made of it; otherwise it passes. */
  lemma {:induction false} ChainStops(chain: Chain, ev: Event)
    ensures Apply(chain, ev).Filtered? <==> exists n: nat :: StopsAt(chain, ev, n, Drop)
    ensures Apply(chain, ev).Broken? <==> exists n: nat :: StopsAt(chain, ev, n, Fault)
  {
    if chain == [] {
    } else {
      var m := |chain| - 1;
      ChainStops(chain[..m], ev);
      ApplyLast(chain, ev);
      StopsEarlier(chain, ev, Drop);
      StopsEarlier(chain, ev, Fault);
      LastSays(chain[m], Apply(chain[..m], ev));
      hide Apply, Says, Rule;
    }
  }

  lemma StopsEarlier(chain: Chain, ev: Event, ruling: Ruling)
    requires chain != []
    ensures var m := |chain| - 1;
            (exists n: nat :: StopsAt(chain, ev, n, ruling)) <==> StopsAt(chain, ev, m, ruling) || exists n: nat :: StopsAt(chain[..m], ev, n, ruling)
  {
    hide Apply, Says;
    var m := |chain| - 1;
    forall n: nat | n < m ensures StopsAt(chain, ev, n, ruling) <==> StopsAt(chain[..m], ev, n, ruling) {
      assert chain[..m][..n] == chain[..n];
    }
    if n: nat :| StopsAt(chain[..m], ev, n, ruling) {
      assert StopsAt(chain, ev, n, ruling);
    }
  }

  lemma LastSays(step: Spec, before: Applied)
    ensures before.Passed? ==> forall ruling: Ruling :: Says(step, before.event, ruling) <==> Rule(step.filter, before.event) == ruling
  {}

  // ---------------------------------------------------------------- both chains

  /** The chain configured for the event's table: under its full name, or else its bare one. */
  ghost predicate Configured(cfg: SinkConfig, ev: Event, chain: Chain) {
    if ev.schema + "." + ev.table in cfg.tables then chain == cfg.tables[ev.schema + "." + ev.table]
    else if ev.table in cfg.tables then chain == cfg.tables[ev.table]
    else chain == []
  }

  /** The sink-level steps come first and the table's after them, as one chain. */
  lemma ChainsCompose(cfg: SinkConfig, ev: Event, chain: Chain)
    requires Configured(cfg, ev, chain)
    ensures Transformed(cfg, ev) == Apply(cfg.global + chain, ev)
  {
    ApplyConcat(cfg.global, chain, ev);
    hide Apply;
  }

  /** No sink gets a column that is to be dropped, in the new row or the old one. */
  lemma DroppedNeverGoes(cfg: SinkConfig, ev: Event, chain: Chain, c: string)
    requires Configured(cfg, ev, chain) && Transformed(cfg, ev).Passed?
    requires exists i :: 0 <= i < |cfg.global + chain| && c in (cfg.global + chain)[i].drop
    ensures var e := Transformed(cfg, ev).event;
            (e.newData.Some? ==> c !in e.newData.value) && (e.oldData.Some? ==> c !in e.oldData.value)
  {
    hide Apply, Through;
    ChainsCompose(cfg, ev, chain);
    ChainMeans(cfg.global + chain, ev);
    var e := Transformed(cfg, ev).event;
    if e.newData.Some? { ThroughMeans(cfg.global + chain, c, Column(ev.newData.value, c)); assert Column(e.newData.value, c) == None; }
    if e.oldData.Some? { ThroughMeans(cfg.global + chain, c, Column(ev.oldData.value, c)); assert Column(e.oldData.value, c) == None; }
  }

  // ---------------------------------------------------------------- batches

  lemma {:induction false} GoingShorter(cfg: SinkConfig, events: seq<Event>)
    ensures |WithoutOutbox(cfg, events)| <= |events|
    ensures Going(cfg, events).Some? ==> |Going(cfg, events).value| <= |events|
  {
    if events == [] {
    } else {
      GoingShorter(cfg, events[..|events| - 1]);
    }
  }

  lemma SinkCalls(cfg: SinkConfig, w: World, events: seq<Event>, n: nat)
    requires |events| <= n
    ensures Calls(w, SinkProcess(cfg, w, events).1, n)
  {
    hide Process, Going, WithoutOutbox, Calls;
    GoingShorter(cfg, events);
    var kept := WithoutOutbox(cfg, events);
    GoingShorter(cfg, kept);
    NoCalls(w);
    CallsTrans(w, w, w, 0, 0, n);
    if Going(cfg, kept).Some? {
      ProcessCalls(cfg.env, w, Going(cfg, kept).value);
      CallsTrans(w, w, SinkProcess(cfg, w, events).1, 0, |Going(cfg, kept).value|, n);
    }
  }

  lemma {:induction false} PiecesCalls(cfg: SinkConfig, w: World, events: seq<Event>, start: nat)
    requires cfg.limit > 0 && start <= |events|
    ensures Calls(w, Pieces(cfg, w, events, start).1, cfg.limit)
    decreases |events| - start
  {
    hide SinkProcess, Calls;
    if start == |events| {
      NoCalls(w);
      CallsTrans(w, w, w, 0, 0, cfg.limit);
    } else {
      var stop := Min(start + cfg.limit, |events|);
      var r := SinkProcess(cfg, w, events[start..stop]);
      SinkCalls(cfg, w, events[start..stop], cfg.limit);
      if r.0.None? {
        PiecesCalls(cfg, r.1, events, stop);
        CallsTrans(w, r.1, Pieces(cfg, r.1, events, stop).1, cfg.limit, cfg.limit, cfg.limit);
      }
    }
  }

  /** The sink is never handed more events than its limit, at once or while a batch is isolated. */
  lemma WithinLimit(cfg: SinkConfig, w: World, events: seq<Event>)
    requires cfg.limit > 0
    ensures Calls(w, Pipeline.Delivered(cfg, w, events).1, cfg.limit)
  {
    hide SinkProcess, Pieces, Calls;
    if |events| <= cfg.limit { SinkCalls(cfg, w, events, cfg.limit); } else { PiecesCalls(cfg, w, events, 0); }
  }

  // ---------------------------------------------------------------- batches that go through

  /** A backend that takes everything, with its circuit closed. */
  ghost predicate Healthy(env: Env) {
    (forall t: nat, events: seq<Event> :: env.attempt(t, events).Accepted?) && forall t: nat :: !env.open(t)
  }

  ghost predicate Transformable(cfg: SinkConfig, events: seq<Event>) {
    forall i :: 0 <= i < |events| ==> !Transformed(cfg, events[i]).Broken?
  }

  lemma {:induction false} NoneBroken(cfg: SinkConfig, events: seq<Event>)
    requires Transformable(cfg, events)
    ensures Going(cfg, WithoutOutbox(cfg, events)).Some?
  {
    hide Transformed, Going, WithoutOutbox;
    if events == [] {
      NoFates(cfg);
    } else {
      var n := |events| - 1;
      NoneBroken(cfg, events[..n]);
      OutboxNext(cfg, events, n);
      assert events[..n + 1] == events;
      var before := WithoutOutbox(cfg, events[..n]);
      if !IsOutbox(cfg, events[n].schema, events[n].table) {
        var both := before + [events[n]];
        assert both[..|before|] == before && both[..|before| + 1] == both;
        GoingNext(cfg, both, |before|, Going(cfg, before).value);
      }
    }
  }

  /** A transform that fails on an event that is not the outbox's fails the batch for good, before
      anything of it reaches the backend. */
  lemma BrokenFails(cfg: SinkConfig, w: World, events: seq<Event>, i: nat)
    requires i < |events| && cfg.outbox != Some((events[i].schema, events[i].table)) && Transformed(cfg, events[i]).Broken?
    ensures var r := SinkProcess(cfg, w, events); r.0.Some? && r.0.value.permanent && r.1 == w
  {
    OneBroken(cfg, events, i);
    hide Going, WithoutOutbox, Transformed;
  }

  lemma {:induction false} OneBroken(cfg: SinkConfig, events: seq<Event>, i: nat)
    requires i < |events| && !IsOutbox(cfg, events[i].schema, events[i].table) && Transformed(cfg, events[i]).Broken?
    ensures Going(cfg, WithoutOutbox(cfg, events)).None?
  {
    hide Transformed, Going, WithoutOutbox;
    var n := |events| - 1;
    OutboxNext(cfg, events, n);
    assert events[..n + 1] == events;
    var before := WithoutOutbox(cfg, events[..n]);
    var both := before + [events[n]];
    if i == n {
      if Going(cfg, both).Some? { GoingLast(cfg, before, events[n], Going(cfg, both).value); }
    } else {
      assert events[..n][i] == events[i];
      OneBroken(cfg, events[..n], i);
      assert both[..|before|] == before;
      BrokenStays(cfg, both, |before|);
    }
  }

  lemma SinkTakes(cfg: SinkConfig, w: World, events: seq<Event>)
    requires Healthy(cfg.env) && Transformable(cfg, events)
    ensures SinkProcess(cfg, w, events).0.None?
  {
    NoneBroken(cfg, events);
    hide Going, WithoutOutbox, Transformable;
  }

  lemma {:induction false} PiecesTaken(cfg: SinkConfig, w: World, events: seq<Event>, start: nat)
    requires Healthy(cfg.env) && Transformable(cfg, events) && cfg.limit > 0 && start <= |events|
    ensures Pieces(cfg, w, events, start).0.None?
    decreases |events| - start
  {
    hide SinkProcess, Healthy;
    if start == |events| {
    } else {
      var stop := Min(start + cfg.limit, |events|);
      SinkTakes(cfg, w, events[start..stop]);
      PiecesTaken(cfg, SinkProcess(cfg, w, events[start..stop]).1, events, stop);
    }
  }

  /** A batch goes through when every sink is healthy and no transform fails on it, unless the service
      is shutting down. */
  lemma HealthyGoesThrough(svc: Service, ws: seq<World>, events: seq<Event>)
    requires |ws| == |svc.sinks|
    requires forall i :: 0 <= i < |ws| ==> Healthy(svc.sinks[i].env) && Transformable(svc.sinks[i], Admitted(svc, events))
    ensures HandleBatch(svc, ws, events, false).0
  {
    hide Admitted, Pieces, SinkProcess, Healthy, Transformable;
    var admitted := Admitted(svc, events);
    forall i | 0 <= i < |ws| ensures Pipeline.Delivered(svc.sinks[i], ws[i], admitted).0.None? {
      var cfg := svc.sinks[i];
      if cfg.limit <= 0 || |admitted| <= cfg.limit { SinkTakes(cfg, ws[i], admitted); } else { PiecesTaken(cfg, ws[i], admitted, 0); }
    }
  }
}
