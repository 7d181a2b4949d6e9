/**
  The Meilisearch sink's batch planner: events become runs per index, deduplicated by document id,
  and the runs mean what the events mean one by one.
*/
module MeiliPlan {
  import opened Prelude
  import opened Events
  import opened DocStore

  // ---------------------------------------------------------------- configuration

  datatype TableConfig = TableConfig(index: string, primaryKey: string)

  /** Keyed by "schema.table" or by the bare table name. */
  type Config = map<string, TableConfig>

  const DEFAULT_PRIMARY_KEY := "id"

  function Lookup(cfg: Config, ev: Event): Option<TableConfig> {
    if FullName(ev) in cfg then Some(cfg[FullName(ev)])
    else if ev.table in cfg then Some(cfg[ev.table])
    else None
  }

  function IndexOf(cfg: Config, ev: Event): Option<string> {
    var tc := Lookup(cfg, ev);
    if tc.Some? && tc.value.index != "" then Some(tc.value.index) else None
  }

  function KeyField(tc: TableConfig): string { if tc.primaryKey != "" then tc.primaryKey else DEFAULT_PRIMARY_KEY }

  function PrimaryKey(cfg: Config, ev: Event): string {
    var tc := Lookup(cfg, ev);
    if tc.Some? then KeyField(tc.value) else DEFAULT_PRIMARY_KEY
  }

  /** Tables that feed one index agree on its key; the sink does not start otherwise. */
  ghost predicate Agreed(cfg: Config) {
    forall a, b | a in cfg && b in cfg && cfg[a].index == cfg[b].index != "" :: KeyField(cfg[a]) == KeyField(cfg[b])
  }

  ghost function IndexKey(cfg: Config, index: string): string {
    if exists a :: a in cfg && cfg[a].index == index then
      var a :| a in cfg && cfg[a].index == index; KeyField(cfg[a])
    else DEFAULT_PRIMARY_KEY
  }

  // ---------------------------------------------------------------- what an event asks of its index

  type Index = Store

  /** Meilisearch knows no merge that drops fields. */
  type IndexOp = op: Op | !op.Merge? witness Clear

  datatype Request = Skipped | Refused | Mapped(index: string, op: IndexOp)

  function RequestOf(cfg: Config, ev: Event): Request {
    var index, pk := IndexOf(cfg, ev), PrimaryKey(cfg, ev);
    if index.None? then Skipped
    else if ev.op.Truncate? then Mapped(index.value, Clear)
    else if ev.op.Delete? then
      if ev.oldData.None? || pk !in ev.oldData.value || ev.oldData.value[pk].Null? then Skipped
      else Mapped(index.value, Del(ev.oldData.value[pk].text))
    else if ev.newData.None? then Skipped
    else if pk !in ev.newData.value || ev.newData.value[pk].Null? then Refused
    else
      var id := ev.newData.value[pk].text;
      Mapped(index.value, if ev.op.Update? then Patch(id, ev.newData.value) else Put(id, ev.newData.value))
  }

  /** The operations of a batch on one index, in stream order. */
  function OpsFor(cfg: Config, events: seq<Event>, index: string): seq<IndexOp> {
    if events == [] then []
    else
      var last := RequestOf(cfg, events[|events| - 1]);
      OpsFor(cfg, events[..|events| - 1], index) + if last.Mapped? && last.index == index then [last.op] else []
  }

  // ---------------------------------------------------------------- runs

  datatype Kind = Replace | Partial | Remove | Wipe

  /** One task: consecutive operations of one kind. `pos` finds a document id in `docs` or `ids`. */
  datatype Run = Run(kind: Kind, pk: string, docs: seq<Data>, ids: seq<string>, pos: map<string, nat>)

  function KindOf(op: IndexOp): Kind {
    match op
    case Put(_, _) => Replace
    case Patch(_, _) => Partial
    case Del(_) => Remove
    case Clear => Wipe
  }

  function WithDoc(r: Run, id: string, data: Data): Run
    requires id in r.pos ==> r.pos[id] < |r.docs|
  {
    if id in r.pos then
      var at := r.pos[id];
      r.(docs := r.docs[at := if r.kind.Partial? then r.docs[at] + data else data])
    else r.(pos := r.pos[id := |r.docs|], docs := r.docs + [data])
  }

  function WithId(r: Run, id: string): Run {
    if id in r.pos then r else r.(pos := r.pos[id := |r.ids|], ids := r.ids + [id])
  }

  /** The document id Meilisearch reads from a document. */
  function IdOf(pk: string, data: Data): Option<string> {
    if pk in data && data[pk].Val? then Some(data[pk].text) else None
  }

  ghost predicate RunOk(r: Run) {
    && (r.kind.Replace? || r.kind.Partial? ==>
          && (forall id | id in r.pos :: r.pos[id] < |r.docs|)
          && (forall i :: 0 <= i < |r.docs| ==>
                IdOf(r.pk, r.docs[i]).Some? && IdOf(r.pk, r.docs[i]).value in r.pos && r.pos[IdOf(r.pk, r.docs[i]).value] == i)
          && (forall id | id in r.pos :: IdOf(r.pk, r.docs[r.pos[id]]) == Some(id)))
    && (r.kind.Remove? ==> forall id :: id in r.pos <==> id in r.ids)
  }

  /** An operation carries the id its document has. */
  predicate OpOk(pk: string, op: IndexOp) { op.Put? || op.Patch? ==> IdOf(pk, op.data) == Some(op.id) }

  function Extended(r: Run, op: IndexOp): (r': Run)
    requires RunOk(r) && r.kind == KindOf(op) && OpOk(r.pk, op)
    ensures RunOk(r') && r'.kind == r.kind && r'.pk == r.pk
  {
    match op
    case Put(id, data) => WithDoc(r, id, data)
    case Patch(id, data) => WithDoc(r, id, data)
    case Del(id) => WithId(r, id)
    case Clear => r
  }

  function EmptyRun(kind: Kind, pk: string): Run { Run(kind, pk, [], [], map[]) }

  predicate Joins(runs: seq<Run>, kind: Kind) { runs != [] && runs[|runs| - 1].kind == kind && !kind.Wipe? }

  ghost predicate RunsOk(pk: string, runs: seq<Run>) {
    forall i :: 0 <= i < |runs| ==> RunOk(runs[i]) && runs[i].pk == pk
  }

  /** The trailing run takes the operation, or a new one starts. */
  function Appended(pk: string, runs: seq<Run>, op: IndexOp): (runs': seq<Run>)
    requires RunsOk(pk, runs) && OpOk(pk, op)
    ensures RunsOk(pk, runs') && runs' != []
  {
    if Joins(runs, KindOf(op)) then runs[..|runs| - 1] + [Extended(runs[|runs| - 1], op)]
    else runs + [Extended(EmptyRun(KindOf(op), pk), op)]
  }

  ghost predicate OpsOk(pk: string, ops: seq<IndexOp>) { forall i :: 0 <= i < |ops| ==> OpOk(pk, ops[i]) }

  function Planned(pk: string, ops: seq<IndexOp>): (runs: seq<Run>)
    requires OpsOk(pk, ops)
    ensures RunsOk(pk, runs)
  {
    if ops == [] then [] else Appended(pk, Planned(pk, ops[..|ops| - 1]), ops[|ops| - 1])
  }

  // ---------------------------------------------------------------- what a run means

  /** AddDocuments and UpdateDocuments take the documents in order. */
  function TakeDocs(m: Index, pk: string, docs: seq<Data>, partial: bool): Index {
    if docs == [] then m
    else
      var before, doc := TakeDocs(m, pk, docs[..|docs| - 1], partial), docs[|docs| - 1];
      var id := IdOf(pk, doc);
      if id.None? then before
      else if partial then Apply(before, Patch(id.value, doc)) else Apply(before, Put(id.value, doc))
  }

  function ApplyRun(m: Index, r: Run): Index {
    match r.kind
    case Replace => TakeDocs(m, r.pk, r.docs, false)
    case Partial => TakeDocs(m, r.pk, r.docs, true)
    case Remove => m - set id | id in r.ids
    case Wipe => map[]
  }

  function ApplyRuns(m: Index, runs: seq<Run>): Index {
    if runs == [] then m else ApplyRun(ApplyRuns(m, runs[..|runs| - 1]), runs[|runs| - 1])
  }

  function At(m: Index, id: string): Option<Data> { if id in m then Some(m[id]) else None }

  /** What a document operation leaves at `id`, given what was there. */
  function Left(was: Option<Data>, doc: Data, partial: bool): Data {
    if partial && was.Some? then was.value + doc else doc
  }

  /** Documents of distinct ids do not see each other. */
  lemma {:induction false} TakeDocsAt(m: Index, pk: string, docs: seq<Data>, partial: bool, id: string)
    requires forall i :: 0 <= i < |docs| ==> IdOf(pk, docs[i]).Some?
    requires forall i, j :: 0 <= i < j < |docs| ==> IdOf(pk, docs[i]) != IdOf(pk, docs[j])
    ensures forall i :: 0 <= i < |docs| && IdOf(pk, docs[i]) == Some(id) ==>
              At(TakeDocs(m, pk, docs, partial), id) == Some(Left(At(m, id), docs[i], partial))
    ensures (forall i :: 0 <= i < |docs| ==> IdOf(pk, docs[i]) != Some(id)) ==>
              At(TakeDocs(m, pk, docs, partial), id) == At(m, id)
  {
    if docs == [] {
    } else {
      TakeDocsAt(m, pk, docs[..|docs| - 1], partial, id);
      hide IdOf;
      var n := |docs| - 1;
      if IdOf(pk, docs[n]) == Some(id) {
        assert At(TakeDocs(m, pk, docs[..n], partial), id) == At(m, id);
        assert map[] + docs[n] == docs[n];
      } else if i :| 0 <= i < |docs| && IdOf(pk, docs[i]) == Some(id) {
        assert docs[..n][i] == docs[i];
      }
    }
  }

  predicate Documents(r: Run) { r.kind.Replace? || r.kind.Partial? }

  lemma RunAt(m: Index, r: Run, id: string)
    requires RunOk(r) && Documents(r)
    ensures At(ApplyRun(m, r), id) ==
            if id in r.pos then Some(Left(At(m, id), r.docs[r.pos[id]], r.kind.Partial?)) else At(m, id)
  {
    hide IdOf, Left, At;
    forall i, j | 0 <= i < j < |r.docs| ensures IdOf(r.pk, r.docs[i]) != IdOf(r.pk, r.docs[j]) {
      assert r.pos[IdOf(r.pk, r.docs[i]).value] == i;
    }
    TakeDocsAt(m, r.pk, r.docs, r.kind.Partial?, id);
  }

  lemma SameIndex(a: Index, b: Index)
    requires forall id: string :: At(a, id) == At(b, id)
    ensures a == b
  {
    forall id: string ensures id in a <==> id in b { assert At(a, id) == At(b, id); }
    forall id | id in a ensures a[id] == b[id] { assert At(a, id) == At(b, id); }
  }

  /** Adding an operation to a run is doing it after the run. */
  lemma DocMeans(m: Index, r: Run, id: string, data: Data, k: string)
    requires RunOk(r) && Documents(r) && IdOf(r.pk, data) == Some(id)
    ensures At(ApplyRun(m, WithDoc(r, id, data)), k) ==
            At(Apply(ApplyRun(m, r), if r.kind.Partial? then Patch(id, data) else Put(id, data)), k)
  {
    hide ApplyRun;
    var op := if r.kind.Partial? then Patch(id, data) else Put(id, data);
    assert RunOk(Extended(r, op)) && Extended(r, op) == WithDoc(r, id, data);
    RunAt(m, r, k);
    RunAt(m, WithDoc(r, id, data), k);
    RunAt(m, r, id);
    hide RunOk, IdOf;
    if k == id {
      var was := At(m, id);
      if id in r.pos {
        var doc := r.docs[r.pos[id]];
        assert was.Some? ==> (was.value + doc) + data == was.value + (doc + data);
      } else {
        assert map[] + data == data;
      }
    }
  }

  lemma ExtendedMeans(m: Index, r: Run, op: IndexOp)
    requires RunOk(r) && r.kind == KindOf(op) && !r.kind.Wipe? && OpOk(r.pk, op)
    ensures ApplyRun(m, Extended(r, op)) == Apply(ApplyRun(m, r), op)
  {
    if op.Del? {
      assert (set id | id in WithId(r, op.id).ids) == (set id | id in r.ids) + {op.id};
    } else {
      forall k: string ensures At(ApplyRun(m, Extended(r, op)), k) == At(Apply(ApplyRun(m, r), op), k) {
        DocMeans(m, r, op.id, op.data, k);
      }
      hide ApplyRun, Apply, RunOk, Extended;
      SameIndex(ApplyRun(m, Extended(r, op)), Apply(ApplyRun(m, r), op));
    }
  }

  lemma AppendedMeans(m: Index, pk: string, runs: seq<Run>, op: IndexOp)
    requires RunsOk(pk, runs) && OpOk(pk, op)
    ensures ApplyRuns(m, Appended(pk, runs, op)) == Apply(ApplyRuns(m, runs), op)
  {
    hide RunOk, Extended, Apply;
    var runs' := Appended(pk, runs, op);
    var n := |runs'| - 1;
    if Joins(runs, KindOf(op)) {
      assert runs'[..n] == runs[..n];
      ExtendedMeans(ApplyRuns(m, runs[..n]), runs[n], op);
    } else {
      assert runs'[..n] == runs;
      FirstMeans(ApplyRuns(m, runs), pk, op);
    }
  }

  lemma FirstMeans(m: Index, pk: string, op: IndexOp)
    requires OpOk(pk, op)
    ensures RunOk(EmptyRun(KindOf(op), pk))
    ensures ApplyRun(m, Extended(EmptyRun(KindOf(op), pk), op)) == Apply(m, op)
  {
    EmptyRunMeans(m, KindOf(op), pk);
    if !op.Clear? {
      hide RunOk, ApplyRun, Extended, Apply;
      ExtendedMeans(m, EmptyRun(KindOf(op), pk), op);
    }
  }

  lemma EmptyRunMeans(m: Index, kind: Kind, pk: string)
    ensures RunOk(EmptyRun(kind, pk)) && (!kind.Wipe? ==> ApplyRun(m, EmptyRun(kind, pk)) == m)
  {}

  /** Coalescing preserves meaning, for one index ... */
  lemma {:induction false} PlannedMeans(m: Index, pk: string, ops: seq<IndexOp>)
    requires OpsOk(pk, ops)
    ensures ApplyRuns(m, Planned(pk, ops)) == ApplyAll(m, ops)
  {
    hide RunOk, Appended, Apply;
    if ops == [] {
    } else {
      PlannedMeans(m, pk, ops[..|ops| - 1]);
      AppendedMeans(m, pk, Planned(pk, ops[..|ops| - 1]), ops[|ops| - 1]);
    }
  }

  /** ... and a batch cut short between two tasks has applied a prefix of its operations. */
  lemma {:induction false} PlannedPrefix(pk: string, ops: seq<IndexOp>, j: nat) returns (n: nat)
    requires OpsOk(pk, ops) && j <= |Planned(pk, ops)|
    ensures n <= |ops| && Planned(pk, ops)[..j] == Planned(pk, ops[..n])
  {
    hide RunOk, Extended;
    if j == |Planned(pk, ops)| {
      n := |ops|;
      assert ops[..n] == ops && Planned(pk, ops)[..j] == Planned(pk, ops);
    } else {
      var front := ops[..|ops| - 1];
      assert Planned(pk, ops)[..j] == Planned(pk, front)[..j];
      n := PlannedPrefix(pk, front, j);
      assert front[..n] == ops[..n];
    }
  }

  /** Each task does what a stretch of the operations does. */
  lemma {:induction false} RunMeans(pk: string, ops: seq<IndexOp>, j: nat) returns (lo: nat, hi: nat)
    requires OpsOk(pk, ops) && j < |Planned(pk, ops)|
    ensures lo <= hi <= |ops| && (j == |Planned(pk, ops)| - 1 ==> hi == |ops|)
    ensures forall m: Index :: ApplyRun(m, Planned(pk, ops)[j]) == ApplyAll(m, ops[lo..hi])
  {
    hide RunOk, RunsOk, OpOk, OpsOk, Planned, Appended, Extended, Apply, ApplyRun, ApplyAll;
    LastPlanned(pk, ops);
    var n := |ops| - 1;
    var front, op := ops[..n], ops[n];
    var before := Planned(pk, front);
    AppendedAt(pk, before, op, j);
    if j < |before| && !(Joins(before, KindOf(op)) && j == |before| - 1) {
      lo, hi := RunMeans(pk, front, j);
      assert front[lo..hi] == ops[lo..hi];
    } else if Joins(before, KindOf(op)) {
      lo, hi := RunMeans(pk, front, j);
      hi := |ops|;
      forall m: Index ensures ApplyRun(m, Planned(pk, ops)[j]) == ApplyAll(m, ops[lo..hi]) {
        ExtendedMeans(m, before[j], op);
        assert front[lo..n] == ops[lo..n];
        LastApplied(m, ops, lo);
      }
    } else {
      lo, hi := n, |ops|;
      forall m: Index ensures ApplyRun(m, Planned(pk, ops)[j]) == ApplyAll(m, ops[lo..hi]) {
        FirstMeans(m, pk, op);
        LastApplied(m, ops, n);
        NoOps(m);
        assert ops[n..n] == [];
      }
    }
  }

  lemma LastPlanned(pk: string, ops: seq<IndexOp>)
    requires OpsOk(pk, ops) && Planned(pk, ops) != []
    ensures ops != []
    ensures var n := |ops| - 1;
            OpsOk(pk, ops[..n]) && OpOk(pk, ops[n]) && Planned(pk, ops) == Appended(pk, Planned(pk, ops[..n]), ops[n])
  {
    hide RunOk, Appended, OpOk;
  }

  lemma AppendedAt(pk: string, runs: seq<Run>, op: IndexOp, j: nat)
    requires RunsOk(pk, runs) && OpOk(pk, op) && j < |Appended(pk, runs, op)|
    ensures var joins, out := Joins(runs, KindOf(op)), Appended(pk, runs, op);
            && |out| == (if joins then |runs| else |runs| + 1)
            && (if joins && j == |runs| - 1 then
                  RunOk(runs[j]) && runs[j].kind == KindOf(op) && runs[j].pk == pk && out[j] == Extended(runs[j], op)
                else if j < |runs| then out[j] == runs[j]
                else out[j] == Extended(EmptyRun(KindOf(op), pk), op))
  {
    hide RunOk, Extended, OpOk;
  }

  lemma LastApplied(m: Index, ops: seq<IndexOp>, lo: nat)
    requires lo < |ops|
    ensures ApplyAll(m, ops[lo..]) == Apply(ApplyAll(m, ops[lo..|ops| - 1]), ops[|ops| - 1])
    ensures ops[lo..] == ops[lo..|ops|]
  {
    assert ops[lo..][..|ops| - 1 - lo] == ops[lo..|ops| - 1];
  }

  // ---------------------------------------------------------------- whole batches

  type Indexes = map<string, Index>

  function IndexAt(store: Indexes, index: string): Index { if index in store then store[index] else map[] }

  /** The events one at a time. */
  function ApplyEvents(cfg: Config, store: Indexes, events: seq<Event>): Indexes {
    if events == [] then store
    else
      var before, last := ApplyEvents(cfg, store, events[..|events| - 1]), RequestOf(cfg, events[|events| - 1]);
      if last.Mapped? then before[last.index := Apply(IndexAt(before, last.index), last.op)] else before
  }

  lemma {:induction false} EventsAt(cfg: Config, store: Indexes, events: seq<Event>, index: string)
    ensures IndexAt(ApplyEvents(cfg, store, events), index) == ApplyAll(IndexAt(store, index), OpsFor(cfg, events, index))
  {
    if events == [] {
    } else {
      hide Apply, RequestOf;
      var front, last := events[..|events| - 1], RequestOf(cfg, events[|events| - 1]);
      EventsAt(cfg, store, front, index);
      if last.Mapped? && last.index == index {
        var ops := OpsFor(cfg, events, index);
        assert ops[..|ops| - 1] == OpsFor(cfg, front, index);
      } else {
        assert OpsFor(cfg, events, index) == OpsFor(cfg, front, index);
      }
    }
  }

  lemma MappedOk(cfg: Config, ev: Event)
    requires Agreed(cfg) && RequestOf(cfg, ev).Mapped?
    ensures IndexOf(cfg, ev) == Some(RequestOf(cfg, ev).index)
    ensures PrimaryKey(cfg, ev) == IndexKey(cfg, RequestOf(cfg, ev).index)
    ensures OpOk(PrimaryKey(cfg, ev), RequestOf(cfg, ev).op)
  {
    var name := if FullName(ev) in cfg then FullName(ev) else ev.table;
    assert name in cfg && cfg[name].index == RequestOf(cfg, ev).index;
  }

  lemma {:induction false} OpsForOk(cfg: Config, events: seq<Event>, index: string)
    requires Agreed(cfg)
    ensures OpsOk(IndexKey(cfg, index), OpsFor(cfg, events, index))
  {
    hide Agreed, RequestOf, OpOk, IndexKey;
    if events == [] {
    } else {
      OpsForOk(cfg, events[..|events| - 1], index);
      var ev := events[|events| - 1];
      if RequestOf(cfg, ev).Mapped? { MappedOk(cfg, ev); }
    }
  }

  ghost function RunsFor(cfg: Config, events: seq<Event>, index: string): seq<Run>
    requires Agreed(cfg)
  {
    OpsForOk(cfg, events, index);
    Planned(IndexKey(cfg, index), OpsFor(cfg, events, index))
  }

  /** What plan leaves in its result: per index its runs, each index once, in first-seen order. */
  ghost predicate PlanOf(cfg: Config, events: seq<Event>, order: seq<string>, runs: map<string, seq<Run>>)
    requires Agreed(cfg)
  {
    && (forall i, j :: 0 <= i < j < |order| ==> order[i] != order[j])
    && (forall index :: index in order <==> index in runs)
    && (forall index :: index in runs <==> OpsFor(cfg, events, index) != [])
    && (forall index | index in runs :: runs[index] == RunsFor(cfg, events, index))
  }

  /** Process enqueues index by index, each index's runs in order. */
  function ApplyPlan(store: Indexes, order: seq<string>, runs: map<string, seq<Run>>): Indexes {
    if order == [] then store
    else
      var before, index := ApplyPlan(store, order[..|order| - 1], runs), order[|order| - 1];
      if index in runs then before[index := ApplyRuns(IndexAt(before, index), runs[index])] else before
  }

  lemma {:induction false} PlanAt(store: Indexes, order: seq<string>, runs: map<string, seq<Run>>, index: string)
    requires forall i, j :: 0 <= i < j < |order| ==> order[i] != order[j]
    requires forall i :: 0 <= i < |order| ==> order[i] in runs
    ensures IndexAt(ApplyPlan(store, order, runs), index) ==
            if index in order then ApplyRuns(IndexAt(store, index), runs[index]) else IndexAt(store, index)
  {
    if order == [] {
    } else {
      hide ApplyRuns;
      PlanAt(store, order[..|order| - 1], runs, index);
    }
  }

  /** Coalescing preserves meaning: the runs, index by index, leave every index as the events do one
      at a time in stream order. */
  lemma CoalescingPreservesMeaning(cfg: Config, store: Indexes, events: seq<Event>, order: seq<string>, runs: map<string, seq<Run>>, index: string)
    requires Agreed(cfg) && PlanOf(cfg, events, order, runs)
    ensures IndexAt(ApplyPlan(store, order, runs), index) == IndexAt(ApplyEvents(cfg, store, events), index)
  {
    hide ApplyPlan, ApplyEvents, ApplyRuns, OpsFor, Agreed;
    PlanAt(store, order, runs, index);
    EventsAt(cfg, store, events, index);
    OpsForOk(cfg, events, index);
    PlannedMeans(IndexAt(store, index), IndexKey(cfg, index), OpsFor(cfg, events, index));
  }

  // ---------------------------------------------------------------- the planner itself

  datatype Result = Ok(plan: BatchPlan) | Err

  class BatchPlan {
    var order: seq<string>
    var runs: map<string, seq<Run>>

    constructor ()
      ensures order == [] && runs == map[]
    {
      order, runs := [], map[];
    }

    /** The trailing run of the index is one the kind may join. */
    method RunFor(index: string, kind: Kind, pk: string)
      modifies this
      ensures var was := if index in old(runs) then old(runs)[index] else [];
              runs == old(runs)[index := Found(pk, was, kind)]
      ensures order == if index in old(runs) then old(order) else old(order) + [index]
    {
      var mine := if index in runs then runs[index] else [];
      if index !in runs { order := order + [index]; }
      if |mine| > 0 && mine[|mine| - 1].kind == kind && kind != Wipe {
        assert runs[index := mine] == runs;
        return;
      }
      runs := runs[index := mine + [EmptyRun(kind, pk)]];
    }

    /** addDoc on the index's trailing run. */
    method AddDoc(index: string, id: string, data: Data)
      requires index in runs && runs[index] != []
      requires var r := runs[index][|runs[index]| - 1]; id in r.pos ==> r.pos[id] < |r.docs|
      modifies this
      ensures order == old(order)
      ensures var was := old(runs)[index];
              runs == old(runs)[index := was[..|was| - 1] + [WithDoc(was[|was| - 1], id, data)]]
    {
      var mine := runs[index];
      var r := mine[|mine| - 1];
      if id in r.pos {
        var at := r.pos[id];
        if r.kind == Partial {
          var merged := MergeFields(r.docs[at], data);
          r := r.(docs := r.docs[at := merged]);
        } else {
          r := r.(docs := r.docs[at := data]);
        }
      } else {
        r := r.(pos := r.pos[id := |r.docs|], docs := r.docs + [data]);
      }
      runs := runs[index := mine[..|mine| - 1] + [r]];
    }

    /** addID on the index's trailing run. */
    method AddID(index: string, id: string)
      requires index in runs && runs[index] != []
      modifies this
      ensures order == old(order)
      ensures var was := old(runs)[index];
              runs == old(runs)[index := was[..|was| - 1] + [WithId(was[|was| - 1], id)]]
    {
      var mine := runs[index];
      var r := mine[|mine| - 1];
      if id in r.pos {
        assert mine[..|mine| - 1] + [r] == mine;
        assert runs[index := mine] == runs;
        return;
      }
      r := r.(pos := r.pos[id := |r.ids|], ids := r.ids + [id]);
      runs := runs[index := mine[..|mine| - 1] + [r]];
    }

    /** runFor and addDoc together: the index's runs take a document. */
    method TakeDoc(index: string, pk: string, op: IndexOp)
      requires op.Put? || op.Patch?
      requires OpOk(pk, op) && RunsOk(pk, Was(runs, index))
      modifies this
      ensures runs == old(runs)[index := Appended(pk, Was(old(runs), index), op)]
      ensures order == if index in old(runs) then old(order) else old(order) + [index]
    {
      hide RunsOk, WithDoc, Found, Appended, OpOk;
      ghost var was := Was(runs, index);
      RunFor(index, KindOf(op), pk);
      TrailingDoc(pk, was, KindOf(op), op.id);
      AddDoc(index, op.id, op.data);
      TakenIsAppended(pk, was, op);
    }

    method TakeId(index: string, pk: string, id: string)
      requires RunsOk(pk, Was(runs, index))
      modifies this
      ensures runs == old(runs)[index := Appended(pk, Was(old(runs), index), Del(id))]
      ensures order == if index in old(runs) then old(order) else old(order) + [index]
    {
      hide RunsOk, WithId, Found, Appended;
      ghost var was := Was(runs, index);
      RunFor(index, Remove, pk);
      AddID(index, id);
      TakenIsAppended(pk, was, Del(id));
    }

    method TakeClear(index: string, pk: string)
      requires RunsOk(pk, Was(runs, index))
      modifies this
      ensures runs == old(runs)[index := Appended(pk, Was(old(runs), index), Clear)]
      ensures order == if index in old(runs) then old(order) else old(order) + [index]
    {
      hide RunOk;
      RunFor(index, Wipe, pk);
    }

    /** The body of plan's loop for one event. */
    method Take(cfg: Config, event: Event) returns (ok: bool)
      requires var q, pk := RequestOf(cfg, event), PrimaryKey(cfg, event);
               q.Mapped? ==> OpOk(pk, q.op) && RunsOk(pk, Was(runs, q.index))
      modifies this
      ensures ok <==> !RequestOf(cfg, event).Refused?
      ensures var q := RequestOf(cfg, event);
              if q.Mapped? then
                && runs == old(runs)[q.index := Appended(PrimaryKey(cfg, event), Was(old(runs), q.index), q.op)]
                && order == if q.index in old(runs) then old(order) else old(order) + [q.index]
              else runs == old(runs) && order == old(order)
    {
      hide RunsOk, Appended, Was, OpOk, PrimaryKey, IndexOf;
      var index, primaryKey := IndexOf(cfg, event), PrimaryKey(cfg, event);
      if index.None? { return true; }
      match event.op
      case Truncate =>
        TakeClear(index.value, primaryKey);
        return true;
      case Delete =>
        if event.oldData.None? || primaryKey !in event.oldData.value || event.oldData.value[primaryKey].Null? {
          return true;
        }
        TakeId(index.value, primaryKey, event.oldData.value[primaryKey].text);
        return true;
      case _ =>
        if event.newData.None? { return true; }
        var data := event.newData.value;
        if primaryKey !in data || data[primaryKey].Null? { return false; }
        var id := data[primaryKey].text;
        TakeDoc(index.value, primaryKey, if event.op == Update then Patch(id, data) else Put(id, data));
        return true;
    }
  }

  /** Two partial updates of one document: later fields win, fields only the earlier carried stay. */
  method MergeFields(earlier: Data, later: Data) returns (merged: Data)
    ensures merged == earlier + later
  {
    merged := map[];
    var rest := earlier.Keys;
    while rest != {}
      invariant rest <= earlier.Keys
      invariant merged == map k | k in earlier && k !in rest :: earlier[k]
      decreases rest
    {
      var k :| k in rest;
      merged := merged[k := earlier[k]];
      rest := rest - {k};
    }
    assert merged == earlier;
    rest := later.Keys;
    while rest != {}
      invariant rest <= later.Keys
      invariant merged == earlier + map k | k in later && k !in rest :: later[k]
      decreases rest
    {
      var k :| k in rest;
      merged := merged[k := later[k]];
      rest := rest - {k};
    }
    assert (map k | k in later :: later[k]) == later;
  }

  lemma OpsForNext(cfg: Config, events: seq<Event>, i: nat, index: string)
    requires i < |events|
    ensures OpsFor(cfg, events[..i + 1], index) == OpsFor(cfg, events[..i], index) +
              var q := RequestOf(cfg, events[i]); if q.Mapped? && q.index == index then [q.op] else []
  {
    assert events[..i + 1][..i] == events[..i];
  }

  /** The batch up to and including event `i` leaves the other indexes' runs alone ... */
  lemma OtherRuns(cfg: Config, events: seq<Event>, i: nat, index: string)
    requires Agreed(cfg) && i < |events|
    requires var q := RequestOf(cfg, events[i]); !(q.Mapped? && q.index == index)
    ensures OpsFor(cfg, events[..i + 1], index) == OpsFor(cfg, events[..i], index)
    ensures RunsFor(cfg, events[..i + 1], index) == RunsFor(cfg, events[..i], index)
  {
    hide OpsFor, Planned, Agreed, RequestOf;
    OpsForNext(cfg, events, i, index);
  }

  /** ... and appends to its own. */
  lemma OwnRuns(cfg: Config, events: seq<Event>, i: nat)
    requires Agreed(cfg) && i < |events| && RequestOf(cfg, events[i]).Mapped?
    ensures var q, pk := RequestOf(cfg, events[i]), PrimaryKey(cfg, events[i]);
            && OpsFor(cfg, events[..i + 1], q.index) != []
            && RunsOk(pk, RunsFor(cfg, events[..i], q.index)) && OpOk(pk, q.op)
            && RunsFor(cfg, events[..i + 1], q.index) == Appended(pk, RunsFor(cfg, events[..i], q.index), q.op)
  {
    hide OpsFor, Appended, Agreed, RequestOf, OpOk, RunsOk, IndexKey;
    var q := RequestOf(cfg, events[i]);
    MappedOk(cfg, events[i]);
    OpsForNext(cfg, events, i, q.index);
    var ops, was := OpsFor(cfg, events[..i + 1], q.index), OpsFor(cfg, events[..i], q.index);
    OpsForOk(cfg, events[..i + 1], q.index);
    OpsForOk(cfg, events[..i], q.index);
    assert ops[..|ops| - 1] == was && ops[|ops| - 1] == q.op;
  }

  ghost function Was(runs: map<string, seq<Run>>, index: string): seq<Run> { if index in runs then runs[index] else [] }

  lemma PlannedSoFar(cfg: Config, events: seq<Event>, order: seq<string>, runs: map<string, seq<Run>>, index: string)
    requires Agreed(cfg) && PlanOf(cfg, events, order, runs)
    ensures Was(runs, index) == RunsFor(cfg, events, index)
  {
    hide OpsFor, Agreed, Appended;
  }

  lemma PlanSkips(cfg: Config, events: seq<Event>, i: nat, order: seq<string>, runs: map<string, seq<Run>>)
    requires Agreed(cfg) && i < |events| && PlanOf(cfg, events[..i], order, runs) && RequestOf(cfg, events[i]).Skipped?
    ensures PlanOf(cfg, events[..i + 1], order, runs)
  {
    hide OpsFor, RunsFor, Agreed, RequestOf;
    forall index: string
      ensures OpsFor(cfg, events[..i + 1], index) == OpsFor(cfg, events[..i], index)
      ensures RunsFor(cfg, events[..i + 1], index) == RunsFor(cfg, events[..i], index)
    {
      OtherRuns(cfg, events, i, index);
    }
  }

  lemma PlanAppends(cfg: Config, events: seq<Event>, i: nat, order: seq<string>, runs: map<string, seq<Run>>,
                    order': seq<string>, runs': map<string, seq<Run>>)
    requires Agreed(cfg) && i < |events| && PlanOf(cfg, events[..i], order, runs) && RequestOf(cfg, events[i]).Mapped?
    requires var q := RequestOf(cfg, events[i]);
             && runs' == runs[q.index := RunsFor(cfg, events[..i + 1], q.index)]
             && order' == if q.index in runs then order else order + [q.index]
    ensures PlanOf(cfg, events[..i + 1], order', runs')
  {
    hide OpsFor, RunsFor, Agreed, RequestOf, Appended;
    var q := RequestOf(cfg, events[i]);
    OwnRuns(cfg, events, i);
    forall index: string | index != q.index
      ensures OpsFor(cfg, events[..i + 1], index) == OpsFor(cfg, events[..i], index)
      ensures RunsFor(cfg, events[..i + 1], index) == RunsFor(cfg, events[..i], index)
    {
      OtherRuns(cfg, events, i, index);
    }
  }

  // ---------------------------------------------------------------- what events mean, from the configuration

  /** The table is configured, under its full name or else its bare one, to feed `index` with documents
      whose id is in field `pk`. */
  predicate Feeds(cfg: Config, ev: Event, index: string, pk: string) {
    && index != ""
    && (if ev.schema + "." + ev.table in cfg then Names(cfg[ev.schema + "." + ev.table], index, pk)
        else ev.table in cfg && Names(cfg[ev.table], index, pk))
  }

  predicate Names(tc: TableConfig, index: string, pk: string) {
    tc.index == index && ((tc.primaryKey == "" && pk == "id") || (tc.primaryKey != "" && pk == tc.primaryKey))
  }

  /** The document id a row carries: its key field, unless that is missing or null. */
  ghost predicate Carries(row: Option<Data>, pk: string, id: string) {
    row.Some? && pk in row.value && row.value[pk].Val? && row.value[pk].text == id
  }

  predicate IsRow(op: Operation) { op.Insert? || op.Read? || op.Update? }

  /** One more event, on its own index: an insert or read leaves exactly the new row under its key, an
      update sets what it carries and keeps every other field, a delete removes the old row's document,
      a truncate all of them; a row or delete without its data or key does nothing. */
  lemma EventMeans(cfg: Config, store: Indexes, events: seq<Event>, ev: Event, index: string, pk: string)
    requires Feeds(cfg, ev, index, pk)
    ensures var m, m' := IndexAt(ApplyEvents(cfg, store, events), index), IndexAt(ApplyEvents(cfg, store, events + [ev]), index);
            && (ev.op.Truncate? ==> m' == map[])
            && (forall id | Carries(ev.oldData, pk, id) && ev.op.Delete? :: m' == m - {id})
            && (forall id | Carries(ev.newData, pk, id) && IsRow(ev.op) ::
                  && id in m' && (forall other | other != id :: At(m', other) == At(m, other))
                  && (if ev.op.Update? then forall f :: Fetch(m'[id], f) == if f in ev.newData.value then Some(ev.newData.value[f]) else Look(m, Field(id, f))
                      else m'[id] == ev.newData.value))
            && (IsRow(ev.op) && (forall id :: !Carries(ev.newData, pk, id)) ==> m' == m)
            && (ev.op.Delete? && (forall id :: !Carries(ev.oldData, pk, id)) ==> m' == m)
  {
    hide ApplyEvents, Apply;
    OneEvent(cfg, store, events, ev);
    hide Lookup;
    RequestIs(cfg, ev, index, pk);
    DelApplies(IndexAt(ApplyEvents(cfg, store, events), index));
    if IsRow(ev.op) && ev.newData.Some? && pk in ev.newData.value && ev.newData.value[pk].Val? {
      RowApplies(IndexAt(ApplyEvents(cfg, store, events), index), ev.newData.value[pk].text, ev.newData.value);
      assert Carries(ev.newData, pk, ev.newData.value[pk].text);
    } else if ev.op.Delete? && ev.oldData.Some? && pk in ev.oldData.value && ev.oldData.value[pk].Val? {
      assert Carries(ev.oldData, pk, ev.oldData.value[pk].text);
    }
  }

  lemma OneEvent(cfg: Config, store: Indexes, events: seq<Event>, ev: Event)
    ensures var before, q := ApplyEvents(cfg, store, events), RequestOf(cfg, ev);
            ApplyEvents(cfg, store, events + [ev]) == if q.Mapped? then before[q.index := Apply(IndexAt(before, q.index), q.op)] else before
  {
    assert (events + [ev])[..|events|] == events;
  }

  lemma RequestIs(cfg: Config, ev: Event, index: string, pk: string)
    requires Feeds(cfg, ev, index, pk)
    ensures IndexOf(cfg, ev) == Some(index) && PrimaryKey(cfg, ev) == pk
  {}

  lemma RowApplies(m: Index, id: string, data: Data)
    ensures Apply(m, Put(id, data)) == m[id := data] && Apply(m, Patch(id, data)) == m[id := Held(m, id) + data]
  {}

  lemma DelApplies(m: Index)
    ensures Apply(m, Clear) == map[] && forall id :: Apply(m, Del(id)) == m - {id}
  {}

  /** Nothing happens to an index the event's table does not feed. */
  lemma OtherIndexes(cfg: Config, store: Indexes, events: seq<Event>, ev: Event, index: string)
    requires forall pk :: !Feeds(cfg, ev, index, pk)
    ensures IndexAt(ApplyEvents(cfg, store, events + [ev]), index) == IndexAt(ApplyEvents(cfg, store, events), index)
  {
    hide ApplyEvents, Apply;
    OneEvent(cfg, store, events, ev);
    if RequestOf(cfg, ev).Mapped? { assert Feeds(cfg, ev, RequestOf(cfg, ev).index, PrimaryKey(cfg, ev)); }
  }

  /** A row for some index that lacks its document key. */
  ghost predicate LacksKey(cfg: Config, ev: Event) {
    IsRow(ev.op) && ev.newData.Some? && exists index, pk :: Feeds(cfg, ev, index, pk) && !(pk in ev.newData.value && ev.newData.value[pk].Val?)
  }

  lemma RefusedIff(cfg: Config, ev: Event)
    ensures RequestOf(cfg, ev).Refused? <==> LacksKey(cfg, ev)
  {
    if RequestOf(cfg, ev).Refused? {
      assert Feeds(cfg, ev, IndexOf(cfg, ev).value, PrimaryKey(cfg, ev));
    }
    if LacksKey(cfg, ev) {
      var index, pk :| Feeds(cfg, ev, index, pk) && !(pk in ev.newData.value && ev.newData.value[pk].Val?);
      RequestIs(cfg, ev, index, pk);
    }
  }

  /** plan fails exactly when some event has a row without its document key; otherwise the runs are
      those of PlanOf. */
  method Plan(cfg: Config, events: seq<Event>) returns (result: Result)
    requires Agreed(cfg)
    ensures result.Err? <==> exists i :: 0 <= i < |events| && LacksKey(cfg, events[i])
    ensures result.Ok? ==> fresh(result.plan) && PlanOf(cfg, events, result.plan.order, result.plan.runs)
  {
    hide PlanOf, RunsFor, RunsOk, OpOk, OpsFor, Appended, RequestOf, Agreed, PrimaryKey, IndexOf, Was, LacksKey;
    var p := new BatchPlan();
    NothingPlanned(cfg);
    var i := 0;
    assert events[..0] == [];
    while i < |events|
      invariant 0 <= i <= |events| && fresh(p)
      invariant forall j :: 0 <= j < i ==> !LacksKey(cfg, events[j])
      invariant PlanOf(cfg, events[..i], p.order, p.runs)
    {
      ghost var order, runs, q := p.order, p.runs, RequestOf(cfg, events[i]);
      RefusedIff(cfg, events[i]);
      if q.Mapped? {
        PlannedSoFar(cfg, events[..i], order, runs, q.index);
        OwnRuns(cfg, events, i);
      }
      var ok := p.Take(cfg, events[i]);
      if !ok { return Err; }
      if q.Mapped? {
        PlanAppends(cfg, events, i, order, runs, p.order, p.runs);
      } else {
        PlanSkips(cfg, events, i, order, runs);
      }
      i := i + 1;
    }
    assert events[..|events|] == events;
    result := Ok(p);
  }

  lemma NothingPlanned(cfg: Config)
    requires Agreed(cfg)
    ensures PlanOf(cfg, [], [], map[])
  {
    hide Agreed;
  }

  function Found(pk: string, was: seq<Run>, kind: Kind): (now: seq<Run>)
    ensures now != []
  {
    if Joins(was, kind) then was else was + [EmptyRun(kind, pk)]
  }

  lemma TrailingDoc(pk: string, was: seq<Run>, kind: Kind, id: string)
    requires RunsOk(pk, was) && (kind.Replace? || kind.Partial?)
    ensures var now := Found(pk, was, kind); var r := now[|now| - 1]; id in r.pos ==> r.pos[id] < |r.docs|
  {}

  /** Letting the trailing run take the operation after runFor found or started it is Appended. */
  lemma TakenIsAppended(pk: string, was: seq<Run>, op: IndexOp)
    requires RunsOk(pk, was) && OpOk(pk, op) && !op.Clear?
    ensures var now := Found(pk, was, KindOf(op)); var r := now[|now| - 1];
            && (op.Del? ==> now[..|now| - 1] + [WithId(r, op.id)] == Appended(pk, was, op))
            && (!op.Del? ==> (op.id in r.pos ==> r.pos[op.id] < |r.docs|)
                             && now[..|now| - 1] + [WithDoc(r, op.id, op.data)] == Appended(pk, was, op))
  {
    hide RunOk, RunsOk, Extended;
    FoundOk(pk, was, KindOf(op));
    var now := Found(pk, was, KindOf(op));
    var r := now[|now| - 1];
    assert now[..|now| - 1] + [Extended(r, op)] == Appended(pk, was, op);
    ExtendedIs(r, op);
  }

  lemma FoundOk(pk: string, was: seq<Run>, kind: Kind)
    requires RunsOk(pk, was)
    ensures var now := Found(pk, was, kind); var r := now[|now| - 1]; !kind.Wipe? ==> RunOk(r) && r.kind == kind && r.pk == pk
  {}

  lemma ExtendedIs(r: Run, op: IndexOp)
    requires RunOk(r) && r.kind == KindOf(op) && OpOk(r.pk, op)
    ensures op.Del? ==> Extended(r, op) == WithId(r, op.id)
    ensures op.Put? || op.Patch? ==> (op.id in r.pos ==> r.pos[op.id] < |r.docs|) && Extended(r, op) == WithDoc(r, op.id, op.data)
  {
  }
}
