/**
  A store of flat documents under replay: at-least-once delivery in order leaves what exactly-once
  delivery would.
*/
module DocStore {
  import opened Prelude
  import opened Events

  type Store = map<string, Data>

  /** `Patch` keeps fields it does not name (Meilisearch partial update); `Merge` also removes the
      fields it sets to null (section 2 of RFC 7386). Both create a missing document. */
  datatype Op = Put(id: string, data: Data) | Patch(id: string, data: Data) | Merge(id: string, data: Data) | Del(id: string) | Clear

  function Held(st: Store, id: string): Data { if id in st then st[id] else map[] }

  function Merged(doc: Data, patch: Data): Data {
    map f | f in doc.Keys + patch.Keys && !(f in patch && patch[f].Null?) :: if f in patch then patch[f] else doc[f]
  }

  function Apply(st: Store, op: Op): Store {
    match op
    case Put(id, data) => st[id := data]
    case Patch(id, data) => st[id := Held(st, id) + data]
    case Merge(id, data) => st[id := Merged(Held(st, id), data)]
    case Del(id) => st - {id}
    case Clear => map[]
  }

  function ApplyAll(st: Store, ops: seq<Op>): Store {
    if ops == [] then st else Apply(ApplyAll(st, ops[..|ops| - 1]), ops[|ops| - 1])
  }

  lemma {:induction false} ApplyAllConcat(st: Store, a: seq<Op>, b: seq<Op>)
    ensures ApplyAll(st, a + b) == ApplyAll(ApplyAll(st, a), b)
  {
    if b == [] {
      assert a + b == a;
    } else {
      var n := |b| - 1;
      assert (a + b)[..|a + b| - 1] == a + b[..n];
      ApplyAllConcat(st, a, b[..n]);
    }
  }

  // ---------------------------------------------------------------- cells

  /** What can be told about a store: whether a document is there, and what a field holds. */
  datatype Cell = Doc(id: string) | Field(id: string, field: string)

  function Look(st: Store, c: Cell): Option<Value> {
    match c
    case Doc(id) => if id in st then Some(Null) else None
    case Field(id, f) => if id in st && f in st[id] then Some(st[id][f]) else None
  }

  /** An operation sets a cell to a value of its own, or leaves it. */
  function Sets(op: Op, c: Cell): Option<Option<Value>> {
    if op.Clear? then Some(None)
    else if op.id != c.id then None
    else match op
      case Del(_) => Some(None)
      case Put(_, data) => Some(if c.Doc? then Some(Null) else Fetch(data, c.field))
      case Patch(_, data) => if c.Doc? then Some(Some(Null)) else if c.field in data then Some(Some(data[c.field])) else None
      case Merge(_, data) =>
        if c.Doc? then Some(Some(Null))
        else if c.field in data then Some(if data[c.field].Null? then None else Some(data[c.field])) else None
  }

  function Fetch(data: Data, f: string): Option<Value> { if f in data then Some(data[f]) else None }

  function SetsAll(ops: seq<Op>, c: Cell): Option<Option<Value>> {
    if ops == [] then None
    else
      var last := Sets(ops[|ops| - 1], c);
      if last.Some? then last else SetsAll(ops[..|ops| - 1], c)
  }

  lemma SetsCell(st: Store, op: Op, c: Cell)
    ensures Look(Apply(st, op), c) == if Sets(op, c).Some? then Sets(op, c).value else Look(st, c)
  {}

  lemma {:induction false} SetsCells(st: Store, ops: seq<Op>, c: Cell)
    ensures Look(ApplyAll(st, ops), c) == if SetsAll(ops, c).Some? then SetsAll(ops, c).value else Look(st, c)
  {
    if ops == [] {
    } else {
      hide Look, Sets, Apply;
      SetsCells(st, ops[..|ops| - 1], c);
      SetsCell(ApplyAll(st, ops[..|ops| - 1]), ops[|ops| - 1], c);
    }
  }

  lemma SameStore(a: Store, b: Store)
    requires forall c: Cell :: Look(a, c) == Look(b, c)
    ensures a == b
  {
    forall id: string ensures id in a <==> id in b { assert Look(a, Doc(id)) == Look(b, Doc(id)); }
    forall id | id in a ensures a[id] == b[id] {
      forall f: string ensures (f in a[id] <==> f in b[id]) && (f in a[id] ==> a[id][f] == b[id][f]) {
        assert Look(a, Field(id, f)) == Look(b, Field(id, f));
      }
    }
  }

  /** Operations leave a cell alone exactly when each of them does. */
  lemma {:induction false} SetsAllIff(ops: seq<Op>, c: Cell)
    ensures SetsAll(ops, c).None? <==> forall op | op in ops :: Sets(op, c).None?
  {
    hide Sets;
    if ops == [] {
    } else {
      var n := |ops| - 1;
      SetsAllIff(ops[..n], c);
      assert ops == ops[..n] + [ops[n]];
    }
  }

  /** Operations that are all to come make no difference, in whatever order and however often they
      were applied before. */
  lemma Absorbs(st: Store, some: seq<Op>, ops: seq<Op>)
    requires forall op | op in some :: op in ops
    ensures ApplyAll(ApplyAll(st, some), ops) == ApplyAll(st, ops)
  {
    hide Look, ApplyAll, SetsAll, Sets;
    var before := ApplyAll(st, some);
    forall c: Cell ensures Look(ApplyAll(before, ops), c) == Look(ApplyAll(st, ops), c) {
      SetsCells(st, some, c);
      SetsCells(before, ops, c);
      SetsCells(st, ops, c);
      SetsAllIff(ops, c);
      SetsAllIff(some, c);
    }
    SameStore(ApplyAll(before, ops), ApplyAll(st, ops));
  }

  /** Repeating operations right after themselves changes nothing. */
  lemma Idempotent(st: Store, ops: seq<Op>)
    ensures ApplyAll(ApplyAll(st, ops), ops) == ApplyAll(st, ops)
  {
    hide ApplyAll;
    Absorbs(st, ops, ops);
  }

  // ---------------------------------------------------------------- replay

  /** One process's life: it applies the operations from a confirmed position up to `full` in order,
      and then any of those after it, as a batch does that fails somewhere. */
  datatype Session = Session(start: nat, full: nat, extra: seq<Op>)

  ghost predicate SessionOk(ops: seq<Op>, s: Session) {
    s.start <= s.full <= |ops| && forall op | op in s.extra :: op in ops[s.full..]
  }

  /** Each session starts at or after the one before did, and no later than that one got whole. */
  ghost predicate Resumes(sessions: seq<Session>, ops: seq<Op>) {
    && (forall i :: 0 <= i < |sessions| ==> SessionOk(ops, sessions[i]))
    && (sessions != [] ==> sessions[0].start == 0)
    && (forall i, j {:trigger sessions[i], sessions[j]} :: 0 <= i < |sessions| && 0 <= j < |sessions| && j == i + 1 ==>
          sessions[i].start <= sessions[j].start <= sessions[i].full)
  }

  function AfterSession(st: Store, ops: seq<Op>, s: Session): Store
    requires s.start <= s.full <= |ops|
  {
    ApplyAll(ApplyAll(st, ops[s.start..s.full]), s.extra)
  }

  ghost function AfterSessions(st: Store, ops: seq<Op>, sessions: seq<Session>): Store
    requires forall i :: 0 <= i < |sessions| ==> SessionOk(ops, sessions[i])
  {
    if sessions == [] then st
    else
      assert SessionOk(ops, sessions[|sessions| - 1]);
      AfterSession(AfterSessions(st, ops, sessions[..|sessions| - 1]), ops, sessions[|sessions| - 1])
  }

  lemma NoSessions(st: Store, ops: seq<Op>)
    ensures Resumes([], ops) && AfterSessions(st, ops, []) == st
  {}

  lemma OneMoreSession(st: Store, ops: seq<Op>, before: seq<Session>, session: Session)
    requires Resumes(before, ops) && SessionOk(ops, session)
    requires if before == [] then session.start == 0
             else before[|before| - 1].start <= session.start <= before[|before| - 1].full
    ensures Resumes(before + [session], ops)
    ensures AfterSessions(st, ops, before + [session]) == AfterSession(AfterSessions(st, ops, before), ops, session)
  {
    hide AfterSession, SessionOk;
    assert (before + [session])[..|before|] == before;
  }

  /** Starting again anywhere the next session may start, and going on to the end, makes up for
      everything. */
  lemma {:induction false} Recovers(st: Store, ops: seq<Op>, sessions: seq<Session>, at: nat)
    requires Resumes(sessions, ops)
    requires if sessions == [] then at == 0
             else sessions[|sessions| - 1].start <= at <= sessions[|sessions| - 1].full
    ensures at <= |ops| && ApplyAll(AfterSessions(st, ops, sessions), ops[at..]) == ApplyAll(st, ops)
  {
    hide ApplyAll;
    if sessions == [] {
      assert ops[0..] == ops;
    } else {
      var before, last := sessions[..|sessions| - 1], sessions[|sessions| - 1];
      assert SessionOk(ops, last);
      var x := AfterSessions(st, ops, before);
      assert before != [] ==> before[|before| - 1] == sessions[|sessions| - 2];
      Recovers(st, ops, before, last.start);
      assert forall op | op in ops[last.full..] :: op in ops[at..] by {
        assert ops[at..] == ops[at..last.full] + ops[last.full..];
      }
      Absorbs(ApplyAll(x, ops[last.start..last.full]), last.extra, ops[at..]);
      ReplayTail(x, ops, last.start, at, last.full);
    }
  }

  lemma ReplayTail(x: Store, ops: seq<Op>, start: nat, at: nat, stop: nat)
    requires start <= at <= stop <= |ops|
    ensures ApplyAll(ApplyAll(x, ops[start..stop]), ops[at..]) == ApplyAll(x, ops[start..])
  {
    hide ApplyAll;
    var p, q, r := ops[start..at], ops[at..stop], ops[stop..];
    assert ops[start..stop] == p + q && ops[at..] == q + r && ops[start..] == p + (q + r);
    ApplyAllConcat(x, p, q);
    ApplyAllConcat(x, p, q + r);
    ApplyAllConcat(ApplyAll(x, p), q, r);
    ApplyAllConcat(ApplyAll(x, p + q), q, r);
    Idempotent(ApplyAll(x, p), q);
  }

  /** Replay is harmless: whatever crashed or failed where, once a session gets everything applied the
      store is what applying every operation once, in order, leaves. */
  lemma {:induction false} ReplayIsHarmless(st: Store, ops: seq<Op>, sessions: seq<Session>)
    requires Resumes(sessions, ops) && sessions != [] && sessions[|sessions| - 1].full == |ops|
    ensures AfterSessions(st, ops, sessions) == ApplyAll(st, ops)
  {
    hide ApplyAll;
    assert SessionOk(ops, sessions[|sessions| - 1]);
    Recovers(st, ops, sessions, |ops|);
    NoOps(AfterSessions(st, ops, sessions));
    assert ops[|ops|..] == [];
  }

  lemma NoOps(st: Store)
    ensures ApplyAll(st, []) == st
  {}
}
