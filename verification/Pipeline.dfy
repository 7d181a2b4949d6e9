/**
  The pipeline above the dead-letter layer: excluded tables, the outbox exclusion, transforms, and
  batches cut to the sink's size, for every registered sink.
*/
module Pipeline {
  import opened Prelude
  import opened Events
  import opened Delivery
  import opened Parking
  import opened Bisection

  // ---------------------------------------------------------------- transforms

  datatype Ruling = Keep | Drop | Fault

  /** A compiled filter: evaluated on a row, and on the operation and table alone, where it may turn
      out false whatever the row. */
  datatype Filter = Filter(
    full: (Operation, string, string, Data, Data) -> Ruling,
    rejects: (Operation, string, string) -> bool)

  datatype Spec = Spec(filter: Option<Filter>, drop: set<string>, mask: map<string, Value -> Value>)

  type Chain = seq<Spec>

  datatype Applied = Passed(event: Event) | Filtered | Broken

  function Rows(data: Option<Data>): Data { if data.Some? then data.value else map[] }

  function Rule(filter: Option<Filter>, ev: Event): Ruling {
    if filter.None? then Keep
    else filter.value.full(ev.op, ev.schema, ev.table, Rows(ev.newData), Rows(ev.oldData))
  }

  /** Dropped columns go, masked ones that are there and not null are replaced. */
  function Scrubbed(data: Data, spec: Spec): Data {
    map c | c in data && c !in spec.drop :: if c in spec.mask && !data[c].Null? then spec.mask[c](data[c]) else data[c]
  }

  function ScrubbedOpt(data: Option<Data>, spec: Spec): Option<Data> {
    if data.Some? then Some(Scrubbed(data.value, spec)) else None
  }

  function ScrubbedEvent(ev: Event, spec: Spec): Event {
    ev.(newData := ScrubbedOpt(ev.newData, spec), oldData := ScrubbedOpt(ev.oldData, spec))
  }

  function Apply(chain: Chain, ev: Event): Applied
    decreases |chain|
  {
    if chain == [] then Passed(ev)
    else match Rule(chain[0].filter, ev)
      case Fault => Broken
      case Drop => Filtered
      case Keep => Apply(chain[1..], ScrubbedEvent(ev, chain[0]))
  }

  method ScrubColumns(data: Data, spec: Spec) returns (out: Data)
    ensures out == Scrubbed(data, spec)
  {
    out := data;
    var cols := spec.drop;
    while cols != {}
      invariant cols <= spec.drop
      invariant out == map c | c in data && c !in spec.drop - cols :: data[c]
      decreases cols
    {
      var col :| col in cols;
      out := out - {col};
      cols := cols - {col};
    }
    var rest := spec.mask.Keys;
    while rest != {}
      invariant rest <= spec.mask.Keys
      invariant out == map c | c in data && c !in spec.drop ::
                         if c in spec.mask && c !in rest && !data[c].Null? then spec.mask[c](data[c]) else data[c]
      decreases rest
    {
      var col :| col in rest;
      if col in out && out[col] != Null { out := out[col := spec.mask[col](out[col])]; }
      rest := rest - {col};
    }
  }

  /** A step that neither drops nor masks leaves the data alone. */
  lemma NothingToScrub(ev: Event, spec: Spec)
    requires spec.drop == {} && spec.mask == map[]
    ensures ScrubbedEvent(ev, spec) == ev
  {
    forall data: Data ensures Scrubbed(data, spec) == data {}
  }

  method ApplyChain(chain: Chain, event: Event) returns (applied: Applied)
    ensures applied == Apply(chain, event)
  {
    var ev := event;
    var i := 0;
    while i < |chain|
      invariant 0 <= i <= |chain|
      invariant Apply(chain, event) == Apply(chain[i..], ev)
    {
      hide Scrubbed;
      var step := chain[i];
      assert chain[i..][0] == step && chain[i..][1..] == chain[i + 1..];
      var ruling := Rule(step.filter, ev);
      if ruling == Fault { return Broken; }
      if ruling == Drop { return Filtered; }
      if step.drop == {} && step.mask.Keys == {} {
        assert step.mask == map[];
        NothingToScrub(ev, step);
      } else {
        var scrubbed := ev;
        if ev.newData.Some? { var d := ScrubColumns(ev.newData.value, step); scrubbed := scrubbed.(newData := Some(d)); }
        if ev.oldData.Some? { var d := ScrubColumns(ev.oldData.value, step); scrubbed := scrubbed.(oldData := Some(d)); }
        ev := scrubbed;
      }
      i := i + 1;
    }
    assert chain[|chain|..] == [];
    applied := Passed(ev);
  }

  // ---------------------------------------------------------------- one sink

  /** `outbox` is the excluded outbox table, `limit` the sink's own batch limit. */
  datatype SinkConfig = SinkConfig(
    env: Env, outbox: Option<(string, string)>, global: Chain, tables: map<string, Chain>, limit: int)

  predicate IsOutbox(cfg: SinkConfig, schema: string, table: string) { cfg.outbox == Some((schema, table)) }

  function TableChain(cfg: SinkConfig, schema: string, table: string): Chain {
    if schema + "." + table in cfg.tables then cfg.tables[schema + "." + table]
    else if table in cfg.tables then cfg.tables[table]
    else []
  }

  /** The sink-level chain, then the table's. */
  function Transformed(cfg: SinkConfig, ev: Event): Applied {
    var first := Apply(cfg.global, ev);
    if first.Passed? then Apply(TableChain(cfg, ev.schema, ev.table), first.event) else first
  }

  function WithoutOutbox(cfg: SinkConfig, events: seq<Event>): seq<Event> {
    if events == [] then []
    else
      var last := events[|events| - 1];
      WithoutOutbox(cfg, events[..|events| - 1]) + if IsOutbox(cfg, last.schema, last.table) then [] else [last]
  }

  /** What the transforms let through, or None when one of them fails. */
  function Going(cfg: SinkConfig, events: seq<Event>): Option<seq<Event>> {
    if events == [] then Some([])
    else
      var front, last := Going(cfg, events[..|events| - 1]), Transformed(cfg, events[|events| - 1]);
      if front.None? || last.Broken? then None
      else Some(front.value + if last.Passed? then [last.event] else [])
  }

  const UNPROCESSABLE := Error(true, false, false)

  /** The whole decorated sink. */
  function SinkProcess(cfg: SinkConfig, w: World, events: seq<Event>): (Option<Error>, World) {
    var out := Going(cfg, WithoutOutbox(cfg, events));
    if out.None? then (Some(UNPROCESSABLE), w)
    else
      var r := Process(cfg.env, w, out.value);
      (r.err, r.w)
  }

  lemma OutboxNext(cfg: SinkConfig, events: seq<Event>, i: nat)
    requires i < |events|
    ensures WithoutOutbox(cfg, events[..i + 1]) ==
            if IsOutbox(cfg, events[i].schema, events[i].table) then WithoutOutbox(cfg, events[..i])
            else WithoutOutbox(cfg, events[..i]) + [events[i]]
  {
    assert events[..i + 1][..i] == events[..i];
  }

  lemma GoingNext(cfg: SinkConfig, events: seq<Event>, i: nat, kept: seq<Event>)
    requires i < |events| && Going(cfg, events[..i]) == Some(kept)
    ensures var last := Transformed(cfg, events[i]);
            Going(cfg, events[..i + 1]) ==
              if last.Broken? then None else if last.Passed? then Some(kept + [last.event]) else Some(kept)
  {
    assert events[..i + 1][..i] == events[..i];
    assert kept + [] == kept;
  }

  method KeptEvents(cfg: SinkConfig, events: seq<Event>) returns (kept: seq<Event>)
    ensures kept == WithoutOutbox(cfg, events)
  {
    hide WithoutOutbox;
    NoFates(cfg);
    var i := 0;
    assert events[..0] == [];
    while i < |events|
      invariant 0 <= i <= |events|
      invariant WithoutOutbox(cfg, events[..i]) == events[..i]
    {
      OutboxNext(cfg, events, i);
      if IsOutbox(cfg, events[i].schema, events[i].table) {
        kept := KeptAfter(cfg, events, i);
        return;
      }
      assert events[..i + 1] == events[..i] + [events[i]];
      i := i + 1;
    }
    assert events[..|events|] == events;
    kept := events;
  }

  /** The copy made once event `i` is found to be the outbox's. */
  method KeptAfter(cfg: SinkConfig, events: seq<Event>, i: nat) returns (kept: seq<Event>)
    requires i < |events| && WithoutOutbox(cfg, events[..i + 1]) == events[..i]
    ensures kept == WithoutOutbox(cfg, events)
  {
    hide WithoutOutbox;
    kept := events[..i];
    var j := i + 1;
    while j < |events|
      invariant i < j <= |events|
      invariant kept == WithoutOutbox(cfg, events[..j])
    {
      OutboxNext(cfg, events, j);
      if !IsOutbox(cfg, events[j].schema, events[j].table) { kept := kept + [events[j]]; }
      j := j + 1;
    }
    assert events[..|events|] == events;
  }

  method TransformedEvents(cfg: SinkConfig, events: seq<Event>) returns (out: Option<seq<Event>>)
    ensures out == Going(cfg, events)
  {
    hide Apply, Going;
    NoFates(cfg);
    var kept: seq<Event> := [];
    var i := 0;
    assert events[..0] == [];
    while i < |events|
      invariant 0 <= i <= |events|
      invariant Going(cfg, events[..i]) == Some(kept)
    {
      GoingNext(cfg, events, i, kept);
      var applied := ApplyChain(cfg.global, events[i]);
      if applied.Passed? {
        applied := ApplyChain(TableChain(cfg, events[i].schema, events[i].table), applied.event);
      }
      if applied.Broken? {
        BrokenStays(cfg, events, i + 1);
        return None;
      }
      if applied.Passed? { kept := kept + [applied.event]; }
      i := i + 1;
    }
    assert events[..|events|] == events;
    out := Some(kept);
  }

  lemma {:induction false} BrokenStays(cfg: SinkConfig, events: seq<Event>, i: nat)
    requires i <= |events| && Going(cfg, events[..i]).None?
    ensures Going(cfg, events).None?
    decreases |events|
  {
    if i == |events| {
      assert events[..i] == events;
    } else {
      assert events[..|events| - 1][..i] == events[..i];
      BrokenStays(cfg, events[..|events| - 1], i);
    }
  }

  // ---------------------------------------------------------------- pieces

  /** The pieces of `events` from `start` on, in order, up to the first failure. */
  function Pieces(cfg: SinkConfig, w: World, events: seq<Event>, start: nat): (Option<Error>, World)
    requires cfg.limit > 0 && start <= |events|
    decreases |events| - start
  {
    if start == |events| then (None, w)
    else
      var stop := Min(start + cfg.limit, |events|);
      var r := SinkProcess(cfg, w, events[start..stop]);
      if r.0.Some? then r else Pieces(cfg, r.1, events, stop)
  }

  function Delivered(cfg: SinkConfig, w: World, events: seq<Event>): (Option<Error>, World) {
    if cfg.limit <= 0 || |events| <= cfg.limit then SinkProcess(cfg, w, events) else Pieces(cfg, w, events, 0)
  }

  method SinkProcessBatch(cfg: SinkConfig, stack: SinkStack, events: seq<Event>) returns (err: Option<Error>)
    requires stack.env == cfg.env
    modifies stack
    ensures (err, stack.View()) == SinkProcess(cfg, old(stack.View()), events)
  {
    hide Process, Going, WithoutOutbox;
    var kept := KeptEvents(cfg, events);
    if |kept| == 0 {
      NothingGoes(cfg, old(stack.View()));
      return None;
    }
    var out := TransformedEvents(cfg, kept);
    if out.None? { return Some(UNPROCESSABLE); }
    if |out.value| == 0 {
      NothingGoes(cfg, old(stack.View()));
      return None;
    }
    err := stack.ProcessBatch(out.value);
  }

  lemma NothingGoes(cfg: SinkConfig, w: World)
    ensures Going(cfg, []) == Some([]) && Process(cfg.env, w, []) == Out(None, w, [])
  {}

  method Deliver(cfg: SinkConfig, stack: SinkStack, events: seq<Event>) returns (err: Option<Error>)
    requires stack.env == cfg.env
    modifies stack
    ensures (err, stack.View()) == Delivered(cfg, old(stack.View()), events)
  {
    hide SinkProcess;
    if cfg.limit <= 0 || |events| <= cfg.limit {
      err := SinkProcessBatch(cfg, stack, events);
      return;
    }
    var start := 0;
    while start < |events|
      invariant 0 <= start <= |events|
      invariant Pieces(cfg, old(stack.View()), events, 0) == Pieces(cfg, stack.View(), events, start)
    {
      var stop := if start + cfg.limit < |events| then start + cfg.limit else |events|;
      err := SinkProcessBatch(cfg, stack, events[start..stop]);
      if err.Some? { return; }
      start := stop;
    }
    err := None;
  }

  // ---------------------------------------------------------------- accounting

  /** What became of an event on its way to one sink. */
  datatype Fate = TableExcluded | OutboxExcluded | FilteredOut | Got(event: Event) | Lettered(event: Event)

  /** The fate fits the event; what was delivered or parked is the event as the transforms left it. */
  predicate Fits(cfg: SinkConfig, ev: Event, fate: Fate) {
    match fate
    case TableExcluded => false
    case OutboxExcluded => cfg.outbox == Some((ev.schema, ev.table))
    case FilteredOut => cfg.outbox != Some((ev.schema, ev.table)) && Transformed(cfg, ev).Filtered?
    case Got(e) => cfg.outbox != Some((ev.schema, ev.table)) && Transformed(cfg, ev) == Passed(e)
    case Lettered(e) => cfg.outbox != Some((ev.schema, ev.table)) && Transformed(cfg, ev) == Passed(e)
  }

  function Gets(fates: seq<Fate>): seq<Event> {
    if fates == [] then []
    else Gets(fates[..|fates| - 1]) + if fates[|fates| - 1].Got? then [fates[|fates| - 1].event] else []
  }

  function Letters(fates: seq<Fate>): seq<Event> {
    if fates == [] then []
    else Letters(fates[..|fates| - 1]) + if fates[|fates| - 1].Lettered? then [fates[|fates| - 1].event] else []
  }

  ghost predicate AllFit(cfg: SinkConfig, events: seq<Event>, fates: seq<Fate>) {
    |fates| == |events| && forall i :: 0 <= i < |events| ==> Fits(cfg, events[i], fates[i])
  }

  lemma {:induction false} GetsConcat(a: seq<Fate>, b: seq<Fate>)
    ensures Gets(a + b) == Gets(a) + Gets(b) && Letters(a + b) == Letters(a) + Letters(b)
  {
    if b == [] {
      assert a + b == a;
    } else {
      assert (a + b)[..|a + b| - 1] == a + b[..|b| - 1];
      GetsConcat(a, b[..|b| - 1]);
    }
  }

  lemma GetsNext(fates: seq<Fate>, f: Fate)
    ensures Gets(fates + [f]) == Gets(fates) + (if f.Got? then [f.event] else [])
    ensures Letters(fates + [f]) == Letters(fates) + (if f.Lettered? then [f.event] else [])
  {
    assert (fates + [f])[..|fates|] == fates;
  }

  lemma AllFitNext(cfg: SinkConfig, events: seq<Event>, fates: seq<Fate>, fate: Fate)
    requires events != [] && AllFit(cfg, events[..|events| - 1], fates) && Fits(cfg, events[|events| - 1], fate)
    ensures AllFit(cfg, events, fates + [fate])
  {
    hide Fits;
  }

  lemma AllFitConcat(cfg: SinkConfig, a: seq<Event>, fa: seq<Fate>, b: seq<Event>, fb: seq<Fate>)
    requires AllFit(cfg, a, fa) && AllFit(cfg, b, fb)
    ensures AllFit(cfg, a + b, fa + fb)
  {
    hide Fits;
  }

  lemma GoingLast(cfg: SinkConfig, before: seq<Event>, ev: Event, going: seq<Event>)
    requires Going(cfg, before + [ev]) == Some(going)
    ensures Going(cfg, before).Some? && !Transformed(cfg, ev).Broken?
    ensures var was, last := Going(cfg, before).value, Transformed(cfg, ev);
            going == if last.Passed? then was + [last.event] else was
  {
    assert (before + [ev])[..|before|] == before;
  }

  lemma SelectLast(events: seq<Event>, verdicts: seq<Verdict>, v: Verdict)
    requires |events| == |verdicts| && events != []
    ensures var n := |events| - 1;
            Select(events, verdicts, v) == Select(events[..n], verdicts[..n], v) + if verdicts[n] == v then [events[n]] else []
  {}

  /** The verdicts on what went on, read back against the batch it came from. */
  lemma {:induction false} Weave(cfg: SinkConfig, events: seq<Event>, going: seq<Event>, verdicts: seq<Verdict>)
    returns (fates: seq<Fate>)
    requires Going(cfg, WithoutOutbox(cfg, events)) == Some(going) && |verdicts| == |going|
    ensures AllFit(cfg, events, fates)
    ensures Gets(fates) == Select(going, verdicts, Verdict.Delivered) && Letters(fates) == Select(going, verdicts, Verdict.Parked)
  {
    hide Transformed, Gets, Letters, Going, WithoutOutbox, Select, AllFit;
    if events == [] {
      fates := [];
      NoFates(cfg);
    } else {
      var n := |events| - 1;
      var ev, before := events[n], WithoutOutbox(cfg, events[..n]);
      OutboxNext(cfg, events, n);
      assert events[..n + 1] == events;
      var fate: Fate;
      if IsOutbox(cfg, ev.schema, ev.table) {
        fate := OutboxExcluded;
        fates := Weave(cfg, events[..n], going, verdicts);
      } else {
        GoingLast(cfg, before, ev, going);
        var last := Transformed(cfg, ev);
        if last.Passed? {
          var m := |going| - 1;
          assert going[..m] == Going(cfg, before).value;
          fate := if verdicts[m] == Verdict.Delivered then Got(last.event) else Lettered(last.event);
          fates := Weave(cfg, events[..n], going[..m], verdicts[..m]);
          SelectLast(going, verdicts, Verdict.Delivered);
          SelectLast(going, verdicts, Verdict.Parked);
        } else {
          fate := FilteredOut;
          fates := Weave(cfg, events[..n], going, verdicts);
        }
      }
      GetsNext(fates, fate);
      AllFitNext(cfg, events, fates, fate);
      fates := fates + [fate];
    }
  }

  // ---- what the store holds afterwards

  /** `e` is what the transforms made of an event of the batch. */
  ghost predicate FromBatch(cfg: SinkConfig, events: seq<Event>, e: Event) {
    exists i :: 0 <= i < |events| && Transformed(cfg, events[i]) == Passed(e)
  }

  /** Entries stay, or are rewritten with an event of the batch that carries their id. */
  ghost predicate Rewrites(cfg: SinkConfig, w: World, events: seq<Event>, w': World) {
    forall id | id in w.hash ::
      id in w'.hash && (w'.hash[id] == w.hash[id] || (w'.hash[id].event.id == id && FromBatch(cfg, events, w'.hash[id].event)))
  }

  ghost predicate HoldsEach(w: World, events: seq<Event>) { forall e | e in events :: Holds(w, e) }

  lemma {:induction false} ApplyKeepsId(chain: Chain, ev: Event)
    ensures Apply(chain, ev).Passed? ==> Apply(chain, ev).event.id == ev.id
    decreases |chain|
  {
    if chain == [] {
    } else {
      ApplyKeepsId(chain[1..], ScrubbedEvent(ev, chain[0]));
    }
  }

  lemma TransformedKeepsId(cfg: SinkConfig, ev: Event)
    ensures Transformed(cfg, ev).Passed? ==> Transformed(cfg, ev).event.id == ev.id
  {
    hide Apply;
    ApplyKeepsId(cfg.global, ev);
    if Apply(cfg.global, ev).Passed? { ApplyKeepsId(TableChain(cfg, ev.schema, ev.table), Apply(cfg.global, ev).event); }
  }

  /** Ids that identify the batch's events identify what becomes of them. */
  lemma SameEvent(cfg: SinkConfig, events: seq<Event>, e: Event, f: Event)
    requires SameIds(events) && FromBatch(cfg, events, e) && FromBatch(cfg, events, f) && e.id == f.id
    ensures e == f
  {
    hide Transformed;
    var i :| 0 <= i < |events| && Transformed(cfg, events[i]) == Passed(e);
    var j :| 0 <= j < |events| && Transformed(cfg, events[j]) == Passed(f);
    TransformedKeepsId(cfg, events[i]);
    TransformedKeepsId(cfg, events[j]);
    assert events[i] in events && events[j] in events;
  }

  lemma {:induction false} GoingFrom(cfg: SinkConfig, events: seq<Event>, e: Event)
    requires Going(cfg, WithoutOutbox(cfg, events)).Some? && e in Going(cfg, WithoutOutbox(cfg, events)).value
    ensures FromBatch(cfg, events, e)
  {
    hide Going, WithoutOutbox, Transformed;
    if events == [] {
      NoFates(cfg);
    } else {
      var n := |events| - 1;
      OutboxNext(cfg, events, n);
      assert events[..n + 1] == events;
      var before := WithoutOutbox(cfg, events[..n]);
      if !IsOutbox(cfg, events[n].schema, events[n].table) {
        GoingLast(cfg, before, events[n], Going(cfg, before + [events[n]]).value);
      }
      if e in Going(cfg, before).value {
        GoingFrom(cfg, events[..n], e);
        var i :| 0 <= i < n && Transformed(cfg, events[..n][i]) == Passed(e);
        assert Transformed(cfg, events[i]) == Passed(e);
      }
    }
  }

  lemma {:induction false} SelectHeld(w: World, events: seq<Event>, verdicts: seq<Verdict>)
    requires HoldsParked(w, events, verdicts)
    ensures HoldsEach(w, Select(events, verdicts, Verdict.Parked))
  {
    if events == [] {
    } else {
      hide Holds;
      var n := |events| - 1;
      SelectHeld(w, events[..n], verdicts[..n]);
      assert verdicts[n] == Verdict.Parked ==> Holds(w, events[n]);
    }
  }

  lemma {:induction false} LettersFrom(cfg: SinkConfig, events: seq<Event>, fates: seq<Fate>, e: Event)
    requires AllFit(cfg, events, fates) && e in Letters(fates)
    ensures FromBatch(cfg, events, e)
  {
    hide Transformed;
    if fates == [] {
    } else {
      var n := |fates| - 1;
      if e in Letters(fates[..n]) {
        LettersFrom(cfg, events[..n], fates[..n], e);
        var i :| 0 <= i < n && Transformed(cfg, events[..n][i]) == Passed(e);
        assert Transformed(cfg, events[i]) == Passed(e);
      } else {
        assert fates[n] == Lettered(e) && Fits(cfg, events[n], fates[n]);
      }
    }
  }

  lemma RewriteKeeps(cfg: SinkConfig, all: seq<Event>, w: World, later: seq<Event>, w': World, e: Event)
    requires SameIds(all) && FromBatch(cfg, all, e) && Holds(w, e) && Rewrites(cfg, w, later, w')
    requires forall f | FromBatch(cfg, later, f) :: FromBatch(cfg, all, f)
    ensures Holds(w', e)
  {
    hide FromBatch, SameIds;
    if w'.hash[e.id] != w.hash[e.id] { SameEvent(cfg, all, e, w'.hash[e.id].event); }
  }

  lemma FromPart(cfg: SinkConfig, a: seq<Event>, b: seq<Event>, e: Event)
    ensures FromBatch(cfg, a, e) || FromBatch(cfg, b, e) ==> FromBatch(cfg, a + b, e)
  {
    hide Transformed;
    if FromBatch(cfg, a, e) {
      var i :| 0 <= i < |a| && Transformed(cfg, a[i]) == Passed(e);
      assert (a + b)[i] == a[i];
    } else if FromBatch(cfg, b, e) {
      var i :| 0 <= i < |b| && Transformed(cfg, b[i]) == Passed(e);
      assert (a + b)[|a| + i] == b[i];
    }
  }

  /** Every event has its fate, the logs grew by what was delivered and parked, in order, and when
      ids identify the batch's events the store holds each parked one. */
  ghost predicate Accounts(cfg: SinkConfig, w: World, events: seq<Event>, w': World, fates: seq<Fate>) {
    && AllFit(cfg, events, fates) && w'.accepted == w.accepted + Gets(fates) && w'.parked == w.parked + Letters(fates)
    && Rewrites(cfg, w, events, w') && (SameIds(events) ==> HoldsEach(w', Letters(fates)))
  }

  lemma SinkAccounts(cfg: SinkConfig, w: World, events: seq<Event>) returns (fates: seq<Fate>)
    requires SinkProcess(cfg, w, events).0.None?
    ensures Accounts(cfg, w, events, SinkProcess(cfg, w, events).1, fates)
  {
    hide Process, Going, WithoutOutbox, Select, AllFit, HoldsParked, HoldsEach, SameIds, Rewrites;
    var going := Going(cfg, WithoutOutbox(cfg, events)).value;
    ProcessConserves(cfg.env, w, going);
    var out := Process(cfg.env, w, going);
    fates := Weave(cfg, events, going, out.verdicts);
    SinkRewrites(cfg, w, events);
    if SameIds(events) {
      GoingSameIds(cfg, events);
      SelectHeld(out.w, going, out.verdicts);
    }
  }

  lemma GoingSameIds(cfg: SinkConfig, events: seq<Event>)
    requires SameIds(events) && Going(cfg, WithoutOutbox(cfg, events)).Some?
    ensures SameIds(Going(cfg, WithoutOutbox(cfg, events)).value)
  {
    hide Going, WithoutOutbox, FromBatch;
    var going := Going(cfg, WithoutOutbox(cfg, events)).value;
    forall e, f | e in going && f in going && e.id == f.id ensures e == f {
      GoingFrom(cfg, events, e);
      GoingFrom(cfg, events, f);
      SameEvent(cfg, events, e, f);
    }
  }

  /** Whether or not it fails, a sink only rewrites entries with events of its batch. */
  lemma SinkRewrites(cfg: SinkConfig, w: World, events: seq<Event>)
    ensures Rewrites(cfg, w, events, SinkProcess(cfg, w, events).1)
  {
    hide Process, Going, WithoutOutbox, FromBatch;
    if Going(cfg, WithoutOutbox(cfg, events)).Some? {
      var going := Going(cfg, WithoutOutbox(cfg, events)).value;
      ProcessParks(cfg.env, w, going);
      var w' := Process(cfg.env, w, going).w;
      forall id | id in w.hash && w'.hash[id] != w.hash[id]
        ensures w'.hash[id].event.id == id && FromBatch(cfg, events, w'.hash[id].event)
      {
        var i :| 0 <= i < |going| && Under(going[i], id, w'.hash[id]);
        assert going[i] in going;
        GoingFrom(cfg, events, going[i]);
      }
    }
  }

  lemma AccountsConcat(cfg: SinkConfig, w: World, a: seq<Event>, w1: World, fa: seq<Fate>, b: seq<Event>, w2: World, fb: seq<Fate>)
    requires Accounts(cfg, w, a, w1, fa) && Accounts(cfg, w1, b, w2, fb)
    ensures Accounts(cfg, w, a + b, w2, fa + fb)
  {
    hide Gets, Letters, AllFit, Rewrites, HoldsEach, SameIds, FromBatch;
    GetsConcat(fa, fb);
    AllFitConcat(cfg, a, fa, b, fb);
    RewritesConcat(cfg, w, a, w1, b, w2);
    if SameIds(a + b) {
      SameIdsPart(a, b);
      LettersStay(cfg, a, fa, w1, b, w2);
      HeldConcat(w2, Letters(fa), Letters(fb));
    }
  }

  lemma HeldConcat(w: World, a: seq<Event>, b: seq<Event>)
    requires HoldsEach(w, a) && HoldsEach(w, b)
    ensures HoldsEach(w, a + b)
  {}

  lemma LettersStay(cfg: SinkConfig, a: seq<Event>, fa: seq<Fate>, w1: World, b: seq<Event>, w2: World)
    requires SameIds(a + b) && AllFit(cfg, a, fa) && HoldsEach(w1, Letters(fa)) && Rewrites(cfg, w1, b, w2)
    ensures HoldsEach(w2, Letters(fa))
  {
    hide Letters, AllFit, Rewrites, SameIds, FromBatch, Holds;
    forall e | e in Letters(fa) ensures Holds(w2, e) {
      LettersFrom(cfg, a, fa, e);
      FromPart(cfg, a, b, e);
      forall f | FromBatch(cfg, b, f) ensures FromBatch(cfg, a + b, f) { FromPart(cfg, a, b, f); }
      RewriteKeeps(cfg, a + b, w1, b, w2, e);
    }
  }

  lemma RewritesConcat(cfg: SinkConfig, w: World, a: seq<Event>, w1: World, b: seq<Event>, w2: World)
    requires Rewrites(cfg, w, a, w1) && Rewrites(cfg, w1, b, w2)
    ensures Rewrites(cfg, w, a + b, w2)
  {
    hide FromBatch;
    forall id | id in w.hash && w2.hash[id] != w.hash[id]
      ensures w2.hash[id].event.id == id && FromBatch(cfg, a + b, w2.hash[id].event)
    {
      FromPart(cfg, a, b, w2.hash[id].event);
    }
  }

  lemma NothingToAccount(cfg: SinkConfig, w: World)
    ensures Accounts(cfg, w, [], w, [])
  {}

  lemma {:induction false} PiecesAccount(cfg: SinkConfig, w: World, events: seq<Event>, start: nat) returns (fates: seq<Fate>)
    requires cfg.limit > 0 && start <= |events| && Pieces(cfg, w, events, start).0.None?
    ensures Accounts(cfg, w, events[start..], Pieces(cfg, w, events, start).1, fates)
    decreases |events| - start
  {
    hide SinkProcess, Accounts;
    if start == |events| {
      fates := [];
      assert events[start..] == [];
      NothingToAccount(cfg, w);
    } else {
      var stop := Min(start + cfg.limit, |events|);
      var first := SinkAccounts(cfg, w, events[start..stop]);
      var w1 := SinkProcess(cfg, w, events[start..stop]).1;
      var rest := PiecesAccount(cfg, w1, events, stop);
      fates := first + rest;
      AccountsConcat(cfg, w, events[start..stop], w1, first, events[stop..], Pieces(cfg, w1, events, stop).1, rest);
      assert events[start..] == events[start..stop] + events[stop..];
    }
  }

  /** A delivery without error accounts for every event, in stream order across the pieces. */
  lemma DeliveryAccounts(cfg: SinkConfig, w: World, events: seq<Event>) returns (fates: seq<Fate>)
    requires Delivered(cfg, w, events).0.None?
    ensures Accounts(cfg, w, events, Delivered(cfg, w, events).1, fates)
  {
    hide SinkProcess, Pieces, Accounts;
    if cfg.limit <= 0 || |events| <= cfg.limit {
      fates := SinkAccounts(cfg, w, events);
    } else {
      fates := PiecesAccount(cfg, w, events, 0);
      assert events[0..] == events;
    }
  }

  // ---------------------------------------------------------------- the service

  /** The service: excluded tables by bare or full name, and the registered sinks. */
  datatype Service = Service(excluded: set<string>, sinks: seq<SinkConfig>)

  predicate IsExcluded(svc: Service, ev: Event) { ev.table in svc.excluded || FullName(ev) in svc.excluded }

  function Admitted(svc: Service, events: seq<Event>): seq<Event> {
    if events == [] then []
    else
      var last := events[|events| - 1];
      Admitted(svc, events[..|events| - 1]) + if IsExcluded(svc, last) then [] else [last]
  }

  lemma AdmittedNext(svc: Service, events: seq<Event>, i: nat)
    requires i < |events|
    ensures Admitted(svc, events[..i + 1]) ==
            if IsExcluded(svc, events[i]) then Admitted(svc, events[..i]) else Admitted(svc, events[..i]) + [events[i]]
  {
    assert events[..i + 1][..i] == events[..i];
  }

  lemma AdmittedNone(svc: Service)
    ensures Admitted(svc, []) == []
  {}

  /** admit copies only from the first dropped event on. */
  method Admit(svc: Service, events: seq<Event>) returns (kept: seq<Event>)
    ensures kept == Admitted(svc, events)
  {
    hide Admitted;
    AdmittedNone(svc);
    var copied := false;
    kept := events;
    var i := 0;
    assert events[..0] == [];
    while i < |events|
      invariant 0 <= i <= |events|
      invariant if copied then kept == Admitted(svc, events[..i]) else kept == events && Admitted(svc, events[..i]) == events[..i]
    {
      AdmittedNext(svc, events, i);
      if IsExcluded(svc, events[i]) {
        if !copied {
          kept := events[..i];
          copied := true;
        }
      } else if copied {
        kept := kept + [events[i]];
      } else {
        assert events[..i + 1] == events[..i] + [events[i]];
      }
      i := i + 1;
    }
    assert events[..|events|] == events;
  }

  /** Each sink's result of one batch; sinks do not see each other, so parallel delivery is the same. */
  function Results(svc: Service, ws: seq<World>, events: seq<Event>): seq<(Option<Error>, World)>
    requires |ws| == |svc.sinks|
  {
    seq(|ws|, i requires 0 <= i < |ws| => Delivered(svc.sinks[i], ws[i], events))
  }

  /** handleBatch: refused while shutting down, else an error as soon as one sink has one. */
  function HandleBatch(svc: Service, ws: seq<World>, events: seq<Event>, stopping: bool): (bool, seq<World>)
    requires |ws| == |svc.sinks|
  {
    var admitted := Admitted(svc, events);
    if stopping then (false, ws)
    else if admitted == [] then (true, ws)
    else
      var results := Results(svc, ws, admitted);
      (forall i :: 0 <= i < |results| ==> results[i].0.None?, seq(|ws|, i requires 0 <= i < |ws| => results[i].1))
  }

  predicate FitsService(svc: Service, cfg: SinkConfig, ev: Event, fate: Fate) {
    if ev.table in svc.excluded || ev.schema + "." + ev.table in svc.excluded then fate.TableExcluded? else Fits(cfg, ev, fate)
  }

  /** The fates of the admitted events, read back against the whole batch. */
  lemma {:induction false} WeaveExcluded(svc: Service, cfg: SinkConfig, events: seq<Event>, fates: seq<Fate>) returns (all: seq<Fate>)
    requires AllFit(cfg, Admitted(svc, events), fates)
    ensures |all| == |events| && forall i :: 0 <= i < |events| ==> FitsService(svc, cfg, events[i], all[i])
    ensures Gets(all) == Gets(fates) && Letters(all) == Letters(fates)
  {
    hide Admitted, Gets, Letters, AllFit, FitsService;
    if events == [] {
      all := [];
      NoFates(cfg);
      NoneAdmitted(svc, cfg, fates);
    } else {
      var n := |events| - 1;
      var ev, before := events[n], Admitted(svc, events[..n]);
      AdmittedNext(svc, events, n);
      assert events[..n + 1] == events;
      var fate: Fate;
      if IsExcluded(svc, ev) {
        fate := TableExcluded;
        all := WeaveExcluded(svc, cfg, events[..n], fates);
      } else {
        AllFitLast(cfg, before, ev, fates);
        var m := |fates| - 1;
        fate := fates[m];
        all := WeaveExcluded(svc, cfg, events[..n], fates[..m]);
        assert fates == fates[..m] + [fate];
        GetsNext(fates[..m], fate);
      }
      assert FitsService(svc, cfg, ev, fate) by { FitsIf(svc, cfg, ev, fate); }
      GetsNext(all, fate);
      all := all + [fate];
    }
  }

  lemma NoneAdmitted(svc: Service, cfg: SinkConfig, fates: seq<Fate>)
    requires AllFit(cfg, Admitted(svc, []), fates)
    ensures fates == []
  {}

  lemma AllFitLast(cfg: SinkConfig, before: seq<Event>, ev: Event, fates: seq<Fate>)
    requires AllFit(cfg, before + [ev], fates)
    ensures fates != [] && AllFit(cfg, before, fates[..|fates| - 1]) && Fits(cfg, ev, fates[|fates| - 1])
  {
    hide Fits;
    assert (before + [ev])[|before|] == ev && forall i :: 0 <= i < |before| ==> (before + [ev])[i] == before[i];
  }

  lemma FitsIf(svc: Service, cfg: SinkConfig, ev: Event, fate: Fate)
    requires if IsExcluded(svc, ev) then fate.TableExcluded? else Fits(cfg, ev, fate)
    ensures FitsService(svc, cfg, ev, fate)
  {}

  lemma {:induction false} AdmittedFrom(svc: Service, events: seq<Event>, ev: Event)
    requires ev in Admitted(svc, events)
    ensures ev in events && !IsExcluded(svc, ev)
  {
    if events == [] {
    } else {
      var n := |events| - 1;
      if ev in Admitted(svc, events[..n]) { AdmittedFrom(svc, events[..n], ev); }
    }
  }

  lemma AdmittedSameIds(svc: Service, events: seq<Event>)
    requires SameIds(events)
    ensures SameIds(Admitted(svc, events))
  {
    hide Admitted;
    forall a, b | a in Admitted(svc, events) && b in Admitted(svc, events) && a.id == b.id ensures a == b {
      AdmittedFrom(svc, events, a);
      AdmittedFrom(svc, events, b);
    }
  }

  /** Every event is accounted for end to end: if handleBatch reports success, then for each sink
      every event of the batch is of an excluded table, of the excluded outbox table, filtered out by
      a transform, in a batch the backend accepted, or parked; what was accepted, like what was
      parked, is in stream order; and when ids identify the batch's events, the sink's dead-letter
      store holds each parked one. */
  lemma EveryEventIsAccountedFor(svc: Service, ws: seq<World>, events: seq<Event>, stopping: bool, i: nat) returns (fates: seq<Fate>)
    requires |ws| == |svc.sinks| && i < |ws| && HandleBatch(svc, ws, events, stopping).0
    ensures |fates| == |events| && forall j :: 0 <= j < |events| ==> FitsService(svc, svc.sinks[i], events[j], fates[j])
    ensures var w' := HandleBatch(svc, ws, events, stopping).1[i];
            && w'.accepted == ws[i].accepted + Gets(fates) && w'.parked == ws[i].parked + Letters(fates)
            && (SameIds(events) ==> HoldsEach(w', Letters(fates)))
  {
    hide Admitted, Delivered, AllFit, FitsService, Gets, Letters, SameIds, HoldsEach, Rewrites;
    var admitted := Admitted(svc, events);
    if SameIds(events) { AdmittedSameIds(svc, events); }
    if admitted == [] {
      NoFates(svc.sinks[i]);
      fates := WeaveExcluded(svc, svc.sinks[i], events, []);
      HeldNone(ws[i]);
    } else {
      assert Results(svc, ws, admitted)[i].0.None?;
      var some := DeliveryAccounts(svc.sinks[i], ws[i], admitted);
      fates := WeaveExcluded(svc, svc.sinks[i], events, some);
    }
  }

  lemma HeldNone(w: World)
    ensures HoldsEach(w, [])
  {}

  lemma NoFates(cfg: SinkConfig)
    ensures AllFit(cfg, [], []) && Gets([]) == [] && Letters([]) == []
    ensures WithoutOutbox(cfg, []) == [] && Going(cfg, []) == Some([])
    ensures Select([], [], Verdict.Delivered) == [] && Select([], [], Verdict.Parked) == []
  {}

  // ---------------------------------------------------------------- Wants

  /** The contract of partial evaluation: false with the row unknown means no row passes. */
  ghost predicate FilterSound(f: Filter) {
    forall op, schema, table, n, o :: f.rejects(op, schema, table) ==> !f.full(op, schema, table, n, o).Keep?
  }

  ghost predicate ChainSound(chain: Chain) {
    forall i :: 0 <= i < |chain| && chain[i].filter.Some? ==> FilterSound(chain[i].filter.value)
  }

  predicate StepRejects(spec: Spec, op: Operation, schema: string, table: string) {
    spec.filter.Some? && spec.filter.value.rejects(op, schema, table)
  }

  method RejectsAll(chain: Chain, schema: string, table: string, op: Operation) returns (r: bool)
    ensures r <==> exists i :: 0 <= i < |chain| && StepRejects(chain[i], op, schema, table)
  {
    var i := 0;
    while i < |chain|
      invariant 0 <= i <= |chain|
      invariant forall j :: 0 <= j < i ==> !StepRejects(chain[j], op, schema, table)
    {
      if chain[i].filter.Some? && chain[i].filter.value.rejects(op, schema, table) { return true; }
      i := i + 1;
    }
    return false;
  }

  ghost predicate Rejects(chain: Chain, op: Operation, schema: string, table: string) {
    exists i :: 0 <= i < |chain| && StepRejects(chain[i], op, schema, table)
  }

  /** The stack's answer, the backend asked last. */
  method Wants(cfg: SinkConfig, schema: string, table: string, op: Operation, backend: bool) returns (r: bool)
    ensures r == (!IsOutbox(cfg, schema, table) && !Rejects(cfg.global, op, schema, table)
                  && !Rejects(TableChain(cfg, schema, table), op, schema, table) && backend)
  {
    if IsOutbox(cfg, schema, table) { return false; }
    var g := RejectsAll(cfg.global, schema, table, op);
    if g { return false; }
    var t := RejectsAll(TableChain(cfg, schema, table), schema, table, op);
    if t { return false; }
    return backend;
  }

  predicate SameKind(a: Event, b: Event) { a.op == b.op && a.schema == b.schema && a.table == b.table }

  /** Transforms keep an event's operation and table; a chain that rejects them lets none pass. */
  lemma {:induction false} ChainKeeps(chain: Chain, ev: Event)
    requires ChainSound(chain)
    ensures var r := Apply(chain, ev);
            r.Passed? ==> SameKind(r.event, ev) && !Rejects(chain, ev.op, ev.schema, ev.table)
    decreases |chain|
  {
    hide FilterSound, ScrubbedEvent;
    if chain == [] || !Rule(chain[0].filter, ev).Keep? {
    } else {
      Scrubs(ev, chain[0]);
      ChainKeeps(chain[1..], ScrubbedEvent(ev, chain[0]));
      KeepsNotRejects(chain[0], ev);
      if Rejects(chain, ev.op, ev.schema, ev.table) {
        var i :| 0 <= i < |chain| && StepRejects(chain[i], ev.op, ev.schema, ev.table);
        assert StepRejects(chain[1..][i - 1], ev.op, ev.schema, ev.table);
      }
    }
  }

  lemma Scrubs(ev: Event, spec: Spec)
    ensures SameKind(ScrubbedEvent(ev, spec), ev)
  {}

  lemma KeepsNotRejects(spec: Spec, ev: Event)
    requires spec.filter.Some? ==> FilterSound(spec.filter.value)
    ensures Rule(spec.filter, ev).Keep? ==> !StepRejects(spec, ev.op, ev.schema, ev.table)
  {}

  ghost predicate Sound(cfg: SinkConfig) {
    ChainSound(cfg.global) && forall name | name in cfg.tables :: ChainSound(cfg.tables[name])
  }

  /** The decorators above the backend refuse the operation on the table. */
  ghost predicate Refuses(cfg: SinkConfig, op: Operation, schema: string, table: string) {
    || IsOutbox(cfg, schema, table)
    || Rejects(cfg.global, op, schema, table)
    || Rejects(TableChain(cfg, schema, table), op, schema, table)
  }

  lemma TransformedKeeps(cfg: SinkConfig, ev: Event)
    requires Sound(cfg)
    ensures var r := Transformed(cfg, ev);
            r.Passed? ==> SameKind(r.event, ev) && !Rejects(cfg.global, ev.op, ev.schema, ev.table)
                          && !Rejects(TableChain(cfg, ev.schema, ev.table), ev.op, ev.schema, ev.table)
  {
    hide Apply, Rejects, ChainSound;
    ChainKeeps(cfg.global, ev);
    var first := Apply(cfg.global, ev);
    if first.Passed? {
      NoChain();
      ChainKeeps(TableChain(cfg, ev.schema, ev.table), first.event);
    }
  }

  lemma NoChain()
    ensures ChainSound([])
  {}

  /** A negative Wants is sound: when the decorators refuse an operation on a table, no batch,
      whatever its rows, passes an event of that operation and table on towards the backend. */
  lemma {:induction false} RefusedNeverGoes(cfg: SinkConfig, events: seq<Event>, ev: Event)
    requires Sound(cfg) && Going(cfg, WithoutOutbox(cfg, events)).Some?
    requires Refuses(cfg, ev.op, ev.schema, ev.table)
    ensures ev !in Going(cfg, WithoutOutbox(cfg, events)).value
  {
    if events == [] {
    } else {
      var n := |events| - 1;
      var last, before := events[n], WithoutOutbox(cfg, events[..n]);
      assert WithoutOutbox(cfg, events) == if IsOutbox(cfg, last.schema, last.table) then before else before + [last];
      hide Going, WithoutOutbox, Transformed, Rejects, Sound;
      if !IsOutbox(cfg, last.schema, last.table) {
        GoingLast(cfg, before, last, Going(cfg, before + [last]).value);
        TransformedKeeps(cfg, last);
      }
      RefusedNeverGoes(cfg, events[..n], ev);
    }
  }

  /** A log grew, but not by `ev`. */
  ghost predicate Lacks(log: seq<Event>, log': seq<Event>, ev: Event) {
    |log| <= |log'| && log'[..|log|] == log && ev !in log'[|log|..]
  }

  lemma LacksTrans(a: seq<Event>, b: seq<Event>, c: seq<Event>, ev: Event)
    requires Lacks(a, b, ev) && Lacks(b, c, ev)
    ensures Lacks(a, c, ev)
  {
    assert c[..|a|] == c[..|b|][..|a|];
    assert c[|a|..] == c[..|b|][|a|..] + c[|b|..];
  }

  /** Between the two, `ev` was not in any batch the backend was handed, and was not parked. */
  ghost predicate Avoids(w: World, w': World, ev: Event) {
    Lacks(w.tried, w'.tried, ev) && Lacks(w.accepted, w'.accepted, ev) && Lacks(w.parked, w'.parked, ev)
  }

  lemma AvoidsTrans(a: World, b: World, c: World, ev: Event)
    requires Avoids(a, b, ev) && Avoids(b, c, ev)
    ensures Avoids(a, c, ev)
  {
    hide Lacks;
    LacksTrans(a.tried, b.tried, c.tried, ev);
    LacksTrans(a.accepted, b.accepted, c.accepted, ev);
    LacksTrans(a.parked, b.parked, c.parked, ev);
  }

  lemma AvoidsSame(w: World, ev: Event)
    ensures Avoids(w, w, ev)
  {
    assert w.tried[|w.tried|..] == [] && w.accepted[|w.accepted|..] == [] && w.parked[|w.parked|..] == [];
  }

  /** So none is handed to the backend, in whatever attempt, and none is parked, whether the sink's
      call fails or not ... */
  lemma RefusedNeverArrives(cfg: SinkConfig, w: World, events: seq<Event>, ev: Event)
    requires Sound(cfg) && Refuses(cfg, ev.op, ev.schema, ev.table)
    ensures Avoids(w, SinkProcess(cfg, w, events).1, ev)
  {
    hide Going, WithoutOutbox, Process, Sound, Refuses;
    AvoidsSame(w, ev);
    if Going(cfg, WithoutOutbox(cfg, events)).Some? {
      RefusedNeverGoes(cfg, events, ev);
      ProcessOnly(cfg.env, w, Going(cfg, WithoutOutbox(cfg, events)).value);
    }
  }

  /** ... over all pieces of a delivery ... */
  lemma {:induction false} RefusedNeverPieced(cfg: SinkConfig, w: World, events: seq<Event>, start: nat, ev: Event)
    requires Sound(cfg) && Refuses(cfg, ev.op, ev.schema, ev.table) && cfg.limit > 0 && start <= |events|
    ensures Avoids(w, Pieces(cfg, w, events, start).1, ev)
    decreases |events| - start
  {
    hide SinkProcess, Sound, Refuses, Avoids;
    if start == |events| {
      AvoidsSame(w, ev);
    } else {
      var stop := Min(start + cfg.limit, |events|);
      RefusedNeverArrives(cfg, w, events[start..stop], ev);
      var r := SinkProcess(cfg, w, events[start..stop]);
      if r.0.None? {
        RefusedNeverPieced(cfg, r.1, events, stop, ev);
        AvoidsTrans(w, r.1, Pieces(cfg, r.1, events, stop).1, ev);
      }
    }
  }

  lemma RefusedNeverDelivered(cfg: SinkConfig, w: World, events: seq<Event>, ev: Event)
    requires Sound(cfg) && Refuses(cfg, ev.op, ev.schema, ev.table)
    ensures Avoids(w, Delivered(cfg, w, events).1, ev)
  {
    hide SinkProcess, Pieces, Sound, Refuses, Avoids;
    if cfg.limit <= 0 || |events| <= cfg.limit {
      RefusedNeverArrives(cfg, w, events, ev);
    } else {
      RefusedNeverPieced(cfg, w, events, 0, ev);
    }
  }

  /** ... and over the whole of handleBatch, for every sink and every outcome. */
  lemma RefusedNeverHandled(svc: Service, ws: seq<World>, events: seq<Event>, stopping: bool, i: nat, ev: Event)
    requires |ws| == |svc.sinks| && i < |ws|
    requires Sound(svc.sinks[i]) && Refuses(svc.sinks[i], ev.op, ev.schema, ev.table)
    ensures Avoids(ws[i], HandleBatch(svc, ws, events, stopping).1[i], ev)
  {
    hide Admitted, Delivered, Sound, Refuses, Avoids;
    AvoidsSame(ws[i], ev);
    RefusedNeverDelivered(svc.sinks[i], ws[i], Admitted(svc, events), ev);
  }
}
