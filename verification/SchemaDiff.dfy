/**
  What changed between two descriptions of one table: the decoder's schema diff.
*/
module SchemaDiff {
  import opened Prelude

  /** `flags` marks the replica identity's columns in its lowest bit. */
  datatype Column = Column(name: string, oid: nat, flags: nat)

  datatype Relation = Relation(schema: string, table: string, identity: char, columns: seq<Column>)

  datatype ColumnDef = ColumnDef(name: string, oid: nat, partOfKey: bool)

  datatype TypeChange = TypeChange(name: string, before: ColumnDef, after: ColumnDef)

  datatype Kind = TableRenamed | ColumnAdded | ColumnDropped | ColumnTypeChanged | ReplicaIdentityChanged | KeyChanged

  datatype Change = Change(
    added: seq<ColumnDef>, dropped: seq<ColumnDef>, changed: seq<TypeChange>,
    keys: seq<string>, previousKeys: seq<string>, kinds: seq<Kind>)

  // ---------------------------------------------------------------- what the loops compute

  function Def(col: Column): ColumnDef { ColumnDef(col.name, col.oid, col.flags % 2 == 1) }

  /** The column a name stands for: the last one that carries it. */
  function Find(cols: seq<Column>, name: string): Option<Column> {
    if cols == [] then None
    else if cols[|cols| - 1].name == name then Some(cols[|cols| - 1])
    else Find(cols[..|cols| - 1], name)
  }

  /** The columns of `cols` that `other` does not have, in order. */
  function Missing(cols: seq<Column>, other: seq<Column>): seq<ColumnDef> {
    if cols == [] then []
    else
      var last := cols[|cols| - 1];
      Missing(cols[..|cols| - 1], other) + if Find(other, last.name).None? then [Def(last)] else []
  }

  /** The columns of `cols` that `before` has with another type, in order. */
  function Retyped(cols: seq<Column>, before: seq<Column>): seq<TypeChange> {
    if cols == [] then []
    else
      var last := cols[|cols| - 1];
      var was := Find(before, last.name);
      Retyped(cols[..|cols| - 1], before) +
        if was.Some? && was.value.oid != last.oid then [TypeChange(last.name, Def(was.value), Def(last))] else []
  }

  function Keys(cols: seq<Column>): seq<string> {
    if cols == [] then []
    else Keys(cols[..|cols| - 1]) + if cols[|cols| - 1].flags % 2 == 1 then [cols[|cols| - 1].name] else []
  }

  // ---------------------------------------------------------------- the diff

  method KeyColumns(rel: Relation) returns (keys: seq<string>)
    ensures keys == Keys(rel.columns)
  {
    keys := [];
    var i := 0;
    while i < |rel.columns|
      invariant 0 <= i <= |rel.columns| && keys == Keys(rel.columns[..i])
    {
      assert rel.columns[..i + 1][..i] == rel.columns[..i];
      if rel.columns[i].flags % 2 == 1 { keys := keys + [rel.columns[i].name]; }
      i := i + 1;
    }
    assert rel.columns[..|rel.columns|] == rel.columns;
  }

  method EqualStrings(a: seq<string>, b: seq<string>) returns (equal: bool)
    ensures equal <==> a == b
  {
    if |a| != |b| { return false; }
    for i := 0 to |a|
      invariant a[..i] == b[..i]
    {
      if a[i] != b[i] { return false; }
    }
    return true;
  }

  method ByName(cols: seq<Column>) returns (m: map<string, Column>)
    ensures forall name: string :: Found(m, name) == Find(cols, name)
  {
    m := map[];
    var i := 0;
    while i < |cols|
      invariant 0 <= i <= |cols|
      invariant forall name: string :: Found(m, name) == Find(cols[..i], name)
    {
      assert cols[..i + 1][..i] == cols[..i];
      m := m[cols[i].name := cols[i]];
      i := i + 1;
    }
    assert cols[..|cols|] == cols;
  }

  function Found(m: map<string, Column>, name: string): Option<Column> { if name in m then Some(m[name]) else None }

  method CompareColumns(cur: seq<Column>, prev: seq<Column>) returns (added: seq<ColumnDef>, changed: seq<TypeChange>)
    ensures added == Missing(cur, prev) && changed == Retyped(cur, prev)
  {
    hide Find;
    var prevCols := ByName(prev);
    added, changed := [], [];
    var i := 0;
    while i < |cur|
      invariant 0 <= i <= |cur|
      invariant added == Missing(cur[..i], prev) && changed == Retyped(cur[..i], prev)
    {
      assert cur[..i + 1][..i] == cur[..i];
      var col := cur[i];
      assert Found(prevCols, col.name) == Find(prev, col.name);
      if col.name !in prevCols {
        added := added + [Def(col)];
      } else if prevCols[col.name].oid != col.oid {
        changed := changed + [TypeChange(col.name, Def(prevCols[col.name]), Def(col))];
      }
      i := i + 1;
    }
    assert cur[..|cur|] == cur;
  }

  method DroppedColumns(prev: seq<Column>, cur: seq<Column>) returns (dropped: seq<ColumnDef>)
    ensures dropped == Missing(prev, cur)
  {
    hide Find;
    var curCols := ByName(cur);
    dropped := [];
    var i := 0;
    while i < |prev|
      invariant 0 <= i <= |prev| && dropped == Missing(prev[..i], cur)
    {
      assert prev[..i + 1][..i] == prev[..i];
      assert Found(curCols, prev[i].name) == Find(cur, prev[i].name);
      if prev[i].name !in curCols { dropped := dropped + [Def(prev[i])]; }
      i := i + 1;
    }
    assert prev[..|prev|] == prev;
  }

  function Noted(kinds: seq<Kind>, seen: bool, kind: Kind): seq<Kind> { if seen then kinds + [kind] else kinds }

  function KindsOf(prev: Relation, cur: Relation): seq<Kind> {
    var renamed := Noted([], prev.schema != cur.schema || prev.table != cur.table, TableRenamed);
    var added := Noted(renamed, Missing(cur.columns, prev.columns) != [], ColumnAdded);
    var dropped := Noted(added, Missing(prev.columns, cur.columns) != [], ColumnDropped);
    var retyped := Noted(dropped, Retyped(cur.columns, prev.columns) != [], ColumnTypeChanged);
    var identity := Noted(retyped, prev.identity != cur.identity, ReplicaIdentityChanged);
    Noted(identity, prev.identity == cur.identity && Keys(prev.columns) != Keys(cur.columns), KeyChanged)
  }

  function Diff(prev: Relation, cur: Relation): Option<Change> {
    if KindsOf(prev, cur) == [] then None
    else Some(Change(Missing(cur.columns, prev.columns), Missing(prev.columns, cur.columns),
                     Retyped(cur.columns, prev.columns), Keys(cur.columns), Keys(prev.columns), KindsOf(prev, cur)))
  }

  method DiffRelation(prev: Relation, cur: Relation) returns (change: Option<Change>)
    ensures change == Diff(prev, cur)
  {
    hide Missing, Retyped, Keys;
    var kinds: seq<Kind> := [];
    if prev.schema != cur.schema || prev.table != cur.table { kinds := kinds + [TableRenamed]; }
    var keys := KeyColumns(cur);
    var previousKeys := KeyColumns(prev);
    var added, changed := CompareColumns(cur.columns, prev.columns);
    var dropped := DroppedColumns(prev.columns, cur.columns);
    if |added| > 0 { kinds := kinds + [ColumnAdded]; }
    if |dropped| > 0 { kinds := kinds + [ColumnDropped]; }
    if |changed| > 0 { kinds := kinds + [ColumnTypeChanged]; }
    var sameKeys := EqualStrings(previousKeys, keys);
    if prev.identity != cur.identity {
      kinds := kinds + [ReplicaIdentityChanged];
    } else if !sameKeys {
      kinds := kinds + [KeyChanged];
    }
    if |kinds| == 0 { return None; }
    return Some(Change(added, dropped, changed, keys, previousKeys, kinds));
  }

  method Breaking(change: Change) returns (breaking: bool)
    ensures breaking <==> !AllAdded(change.kinds)
  {
    for i := 0 to |change.kinds|
      invariant forall j :: 0 <= j < i ==> change.kinds[j].ColumnAdded?
    {
      match change.kinds[i]
      case ColumnAdded =>
      case _ => return true;
    }
    return false;
  }

  // ---------------------------------------------------------------- exactness

  ghost predicate DistinctNames(cols: seq<Column>) {
    forall i, j :: 0 <= i < j < |cols| ==> cols[i].name != cols[j].name
  }

  /** The relation's name-to-type map. */
  function TypeOf(cols: seq<Column>, name: string): Option<nat> {
    var col := Find(cols, name);
    if col.Some? then Some(col.value.oid) else None
  }

  ghost predicate SameTypes(a: seq<Column>, b: seq<Column>) { forall name: string :: TypeOf(a, name) == TypeOf(b, name) }

  lemma {:induction false} FindIs(cols: seq<Column>, name: string)
    ensures Find(cols, name).Some? ==> Find(cols, name).value in cols && Find(cols, name).value.name == name
    ensures Find(cols, name).None? ==> forall c | c in cols :: c.name != name
  {
    if cols == [] {
    } else {
      FindIs(cols[..|cols| - 1], name);
      assert cols == cols[..|cols| - 1] + [cols[|cols| - 1]];
    }
  }

  lemma FindOnly(cols: seq<Column>, col: Column)
    requires DistinctNames(cols) && col in cols
    ensures Find(cols, col.name) == Some(col)
  {
    FindIs(cols, col.name);
  }

  /** A definition is listed exactly for the columns the other relation lacks. */
  lemma {:induction false} MissingIff(cols: seq<Column>, other: seq<Column>, d: ColumnDef)
    ensures d in Missing(cols, other) <==> exists c :: c in cols && Find(other, c.name).None? && Def(c) == d
  {
    if cols == [] {
    } else {
      var n := |cols| - 1;
      hide Find, Def;
      MissingIff(cols[..n], other, d);
      assert cols == cols[..n] + [cols[n]];
      assert forall c :: c in cols <==> c in cols[..n] || c == cols[n];
    }
  }

  lemma {:induction false} RetypedIff(cols: seq<Column>, before: seq<Column>, t: TypeChange)
    ensures t in Retyped(cols, before) <==>
            exists c :: c in cols && Find(before, c.name).Some? && Find(before, c.name).value.oid != c.oid
                        && t == TypeChange(c.name, Def(Find(before, c.name).value), Def(c))
  {
    if cols == [] {
    } else {
      var n := |cols| - 1;
      hide Find, Def;
      RetypedIff(cols[..n], before, t);
      assert cols == cols[..n] + [cols[n]];
      assert forall c :: c in cols <==> c in cols[..n] || c == cols[n];
    }
  }

  ghost predicate DropsName(dropped: seq<ColumnDef>, name: string) { exists d :: d in dropped && d.name == name }

  ghost predicate Lists(added: seq<ColumnDef>, name: string, oid: nat) { exists d :: d in added && d.name == name && d.oid == oid }

  ghost predicate Retypes(changed: seq<TypeChange>, name: string, oid: nat) {
    exists t :: t in changed && t.name == name && t.after.oid == oid
  }

  /** Applying the lists to the old name-to-type map: drop, retype, add. */
  ghost predicate TakesTo(change: Change, name: string, before: Option<nat>, after: Option<nat>) {
    match after
    case None =>
      (before.None? || DropsName(change.dropped, name)) && forall oid :: !Lists(change.added, name, oid)
    case Some(oid) =>
      || Lists(change.added, name, oid)
      || Retypes(change.changed, name, oid)
      || (before == after && !DropsName(change.dropped, name)
          && (forall other :: other != oid ==> !Retypes(change.changed, name, other)))
  }

  lemma NameMissing(cols: seq<Column>, other: seq<Column>, name: string)
    ensures DropsName(Missing(cols, other), name) <==> TypeOf(cols, name).Some? && TypeOf(other, name).None?
  {
    FindIs(cols, name);
    if Find(cols, name).Some? && Find(other, name).None? {
      MissingIff(cols, other, Def(Find(cols, name).value));
    }
    if DropsName(Missing(cols, other), name) {
      var d :| d in Missing(cols, other) && d.name == name;
      MissingIff(cols, other, d);
    }
  }

  lemma NameListed(cols: seq<Column>, other: seq<Column>, name: string, oid: nat)
    requires DistinctNames(cols)
    ensures Lists(Missing(cols, other), name, oid) <==> TypeOf(cols, name) == Some(oid) && TypeOf(other, name).None?
  {
    FindIs(cols, name);
    if TypeOf(cols, name) == Some(oid) && Find(other, name).None? {
      MissingIff(cols, other, Def(Find(cols, name).value));
    }
    if Lists(Missing(cols, other), name, oid) {
      var d :| d in Missing(cols, other) && d.name == name && d.oid == oid;
      MissingIff(cols, other, d);
      var c :| c in cols && Find(other, c.name).None? && Def(c) == d;
      FindOnly(cols, c);
    }
  }

  lemma NameRetyped(cols: seq<Column>, before: seq<Column>, name: string, oid: nat)
    requires DistinctNames(cols)
    ensures Retypes(Retyped(cols, before), name, oid) <==>
            TypeOf(cols, name) == Some(oid) && TypeOf(before, name).Some? && TypeOf(before, name) != Some(oid)
  {
    FindIs(cols, name);
    if TypeOf(cols, name) == Some(oid) && TypeOf(before, name).Some? && TypeOf(before, name) != Some(oid) {
      var c := Find(cols, name).value;
      RetypedIff(cols, before, TypeChange(c.name, Def(Find(before, c.name).value), Def(c)));
    }
    if Retypes(Retyped(cols, before), name, oid) {
      var t :| t in Retyped(cols, before) && t.name == name && t.after.oid == oid;
      RetypedIff(cols, before, t);
      var c :| c in cols && Find(before, c.name).Some? && Find(before, c.name).value.oid != c.oid
               && t == TypeChange(c.name, Def(Find(before, c.name).value), Def(c));
      FindOnly(cols, c);
    }
  }

  /** The lists take the old name-to-type map to the new one, and to no other. */
  lemma DiffIsExact(prev: Relation, cur: Relation, name: string, after: Option<nat>)
    requires DistinctNames(prev.columns) && DistinctNames(cur.columns) && Diff(prev, cur).Some?
    ensures TakesTo(Diff(prev, cur).value, name, TypeOf(prev.columns, name), after) <==> after == TypeOf(cur.columns, name)
  {
    hide Missing, Retyped, TypeOf;
    NameMissing(prev.columns, cur.columns, name);
    forall oid: nat
      ensures Lists(Missing(cur.columns, prev.columns), name, oid) <==>
              TypeOf(cur.columns, name) == Some(oid) && TypeOf(prev.columns, name).None?
      ensures Retypes(Retyped(cur.columns, prev.columns), name, oid) <==>
              TypeOf(cur.columns, name) == Some(oid) && TypeOf(prev.columns, name).Some? && TypeOf(prev.columns, name) != Some(oid)
    {
      NameListed(cur.columns, prev.columns, name, oid);
      NameRetyped(cur.columns, prev.columns, name, oid);
    }
    hide Lists, Retypes, DropsName;
    if TypeOf(cur.columns, name).Some? && TypeOf(prev.columns, name).Some? && TypeOf(prev.columns, name) != TypeOf(cur.columns, name) {
      assert Retypes(Retyped(cur.columns, prev.columns), name, TypeOf(cur.columns, name).value);
    }
  }

  lemma NoneMissing(cols: seq<Column>, other: seq<Column>)
    ensures Missing(cols, other) == [] <==> forall name: string :: TypeOf(cols, name).Some? ==> TypeOf(other, name).Some?
  {
    hide Missing, TypeOf;
    if Missing(cols, other) == [] {
      forall name: string | TypeOf(cols, name).Some? ensures TypeOf(other, name).Some? { NameMissing(cols, other, name); }
    } else {
      var d := Missing(cols, other)[0];
      assert d in Missing(cols, other);
      NameMissing(cols, other, d.name);
    }
  }

  lemma NoneRetyped(cols: seq<Column>, before: seq<Column>)
    requires DistinctNames(cols)
    ensures Retyped(cols, before) == [] <==>
            forall name: string :: TypeOf(cols, name).Some? && TypeOf(before, name).Some? ==> TypeOf(cols, name) == TypeOf(before, name)
  {
    hide Retyped, TypeOf;
    if Retyped(cols, before) == [] {
      forall name: string | TypeOf(cols, name).Some? && TypeOf(before, name).Some? ensures TypeOf(cols, name) == TypeOf(before, name) {
        NameRetyped(cols, before, name, TypeOf(cols, name).value);
      }
    } else {
      var t := Retyped(cols, before)[0];
      assert t in Retyped(cols, before);
      assert Retypes(Retyped(cols, before), t.name, t.after.oid);
      NameRetyped(cols, before, t.name, t.after.oid);
    }
  }

  /** No change is reported exactly when names, types, replica identity and key columns agree. */
  lemma NoChangeIff(prev: Relation, cur: Relation)
    requires DistinctNames(prev.columns) && DistinctNames(cur.columns)
    ensures Diff(prev, cur).None? <==>
            && prev.schema == cur.schema && prev.table == cur.table && prev.identity == cur.identity
            && SameTypes(prev.columns, cur.columns) && Keys(prev.columns) == Keys(cur.columns)
  {
    hide Missing, Retyped, Keys, TypeOf;
    NoneMissing(cur.columns, prev.columns);
    NoneMissing(prev.columns, cur.columns);
    NoneRetyped(cur.columns, prev.columns);
    if Missing(cur.columns, prev.columns) == [] && Missing(prev.columns, cur.columns) == [] && Retyped(cur.columns, prev.columns) == [] {
      forall name: string ensures TypeOf(prev.columns, name) == TypeOf(cur.columns, name) {
        assert TypeOf(prev.columns, name).Some? <==> TypeOf(cur.columns, name).Some?;
      }
    }
  }

  /** Swapping the descriptions swaps added and dropped, turns type changes round, and swaps the key
      lists. */
  lemma SwapSwaps(prev: Relation, cur: Relation, t: TypeChange)
    requires DistinctNames(prev.columns) && DistinctNames(cur.columns) && Diff(prev, cur).Some?
    ensures Diff(cur, prev).Some?
    ensures var d, r := Diff(prev, cur).value, Diff(cur, prev).value;
            && d.added == r.dropped && d.dropped == r.added && d.keys == r.previousKeys && d.previousKeys == r.keys
            && (t in d.changed <==> TypeChange(t.name, t.after, t.before) in r.changed)
  {
    NoChangeIff(prev, cur);
    NoChangeIff(cur, prev);
    hide Missing, Retyped, Keys;
    var u := TypeChange(t.name, t.after, t.before);
    if t in Retyped(cur.columns, prev.columns) { RetypedTurns(cur.columns, prev.columns, t); }
    if u in Retyped(prev.columns, cur.columns) { RetypedTurns(prev.columns, cur.columns, u); }
  }

  lemma RetypedTurns(a: seq<Column>, b: seq<Column>, t: TypeChange)
    requires DistinctNames(a) && DistinctNames(b) && t in Retyped(a, b)
    ensures TypeChange(t.name, t.after, t.before) in Retyped(b, a)
  {
    RetypedIff(a, b, t);
    var c :| c in a && Find(b, c.name).Some? && Find(b, c.name).value.oid != c.oid
             && t == TypeChange(c.name, Def(Find(b, c.name).value), Def(c));
    FindOnly(a, c);
    FindIs(b, c.name);
    RetypedIff(b, a, TypeChange(t.name, t.after, t.before));
  }

  ghost predicate Additive(prev: Relation, cur: Relation) {
    && prev.schema == cur.schema && prev.table == cur.table && prev.identity == cur.identity
    && Keys(prev.columns) == Keys(cur.columns)
    && (forall name: string :: TypeOf(prev.columns, name).Some? ==> TypeOf(cur.columns, name) == TypeOf(prev.columns, name))
  }

  /** A change is not breaking exactly when everything that was there is still there as it was. */
  lemma BreakingIff(prev: Relation, cur: Relation)
    requires DistinctNames(prev.columns) && DistinctNames(cur.columns) && Diff(prev, cur).Some?
    ensures AllAdded(Diff(prev, cur).value.kinds) <==> Additive(prev, cur)
  {
    hide Missing, Retyped, Keys, TypeOf;
    NoneMissing(prev.columns, cur.columns);
    NoneRetyped(cur.columns, prev.columns);
    OnlyAdded(prev, cur);
  }

  lemma OnlyAdded(prev: Relation, cur: Relation)
    ensures AllAdded(KindsOf(prev, cur)) <==>
            && prev.schema == cur.schema && prev.table == cur.table && prev.identity == cur.identity
            && Keys(prev.columns) == Keys(cur.columns)
            && Missing(prev.columns, cur.columns) == [] && Retyped(cur.columns, prev.columns) == []
  {
    hide Missing, Retyped, Keys;
    NotedIff([], prev.schema != cur.schema || prev.table != cur.table, TableRenamed);
    var renamed := Noted([], prev.schema != cur.schema || prev.table != cur.table, TableRenamed);
    NotedIff(renamed, Missing(cur.columns, prev.columns) != [], ColumnAdded);
    var added := Noted(renamed, Missing(cur.columns, prev.columns) != [], ColumnAdded);
    NotedIff(added, Missing(prev.columns, cur.columns) != [], ColumnDropped);
    var dropped := Noted(added, Missing(prev.columns, cur.columns) != [], ColumnDropped);
    NotedIff(dropped, Retyped(cur.columns, prev.columns) != [], ColumnTypeChanged);
    var retyped := Noted(dropped, Retyped(cur.columns, prev.columns) != [], ColumnTypeChanged);
    NotedIff(retyped, prev.identity != cur.identity, ReplicaIdentityChanged);
    var identity := Noted(retyped, prev.identity != cur.identity, ReplicaIdentityChanged);
    NotedIff(identity, prev.identity == cur.identity && Keys(prev.columns) != Keys(cur.columns), KeyChanged);
    hide Noted;
  }

  ghost predicate AllAdded(kinds: seq<Kind>) { forall i :: 0 <= i < |kinds| ==> kinds[i].ColumnAdded? }

  lemma NotedIff(kinds: seq<Kind>, seen: bool, kind: Kind)
    ensures AllAdded(Noted(kinds, seen, kind)) <==> AllAdded(kinds) && (seen ==> kind.ColumnAdded?)
  {
    if seen { assert (kinds + [kind])[|kinds|] == kind && forall i :: 0 <= i < |kinds| ==> (kinds + [kind])[i] == kinds[i]; }
  }

  // ---------------------------------------------------------------- what is reported, from the columns

  predicate InKey(c: Column) { c.flags % 2 == 1 }

  /** Where the flagged columns stand, all of them and in order. */
  ghost predicate Places(cols: seq<Column>, at: seq<nat>) {
    && (forall i :: 0 <= i < |at| ==> at[i] < |cols| && InKey(cols[at[i]]))
    && (forall i, j :: 0 <= i < j < |at| ==> at[i] < at[j])
    && (forall x: nat | x < |cols| && InKey(cols[x]) :: x in at)
  }

  lemma PlacesNext(cols: seq<Column>, at: seq<nat>)
    requires cols != [] && Places(cols[..|cols| - 1], at)
    ensures var n := |cols| - 1; Places(cols, at + if InKey(cols[n]) then [n] else [])
  {
    hide InKey;
    var n := |cols| - 1;
    assert forall i :: 0 <= i < |at| ==> cols[..n][at[i]] == cols[at[i]];
    forall x: nat | x < n && InKey(cols[x]) ensures x in at { assert cols[..n][x] == cols[x]; }
  }

  /** The key columns are the names of exactly the flagged columns, in the table's order. */
  lemma {:induction false} KeysMean(cols: seq<Column>) returns (at: seq<nat>)
    ensures Places(cols, at) && |at| == |Keys(cols)| && forall i :: 0 <= i < |at| ==> Keys(cols)[i] == cols[at[i]].name
  {
    if cols == [] {
      at := [];
    } else {
      var n := |cols| - 1;
      var before := KeysMean(cols[..n]);
      PlacesNext(cols, before);
      at := before + if InKey(cols[n]) then [n] else [];
      assert Keys(cols) == Keys(cols[..n]) + if InKey(cols[n]) then [cols[n].name] else [];
      hide InKey, Keys;
      assert forall i :: 0 <= i < |before| ==> cols[..n][before[i]] == cols[before[i]];
    }
  }

  /** Each kind is reported exactly when its own part of the description changed, and the key lists are
      the new one and the old one. */
  lemma KindsMean(prev: Relation, cur: Relation)
    requires DistinctNames(prev.columns) && DistinctNames(cur.columns) && Diff(prev, cur).Some?
    ensures var kinds := Diff(prev, cur).value.kinds;
            && (TableRenamed in kinds <==> prev.schema != cur.schema || prev.table != cur.table)
            && (ColumnAdded in kinds <==> exists name: string :: TypeOf(cur.columns, name).Some? && TypeOf(prev.columns, name).None?)
            && (ColumnDropped in kinds <==> exists name: string :: TypeOf(prev.columns, name).Some? && TypeOf(cur.columns, name).None?)
            && (ColumnTypeChanged in kinds <==>
                  exists name: string :: TypeOf(cur.columns, name).Some? && TypeOf(prev.columns, name).Some? && TypeOf(cur.columns, name) != TypeOf(prev.columns, name))
            && (ReplicaIdentityChanged in kinds <==> prev.identity != cur.identity)
            && (KeyChanged in kinds <==> prev.identity == cur.identity && Keys(prev.columns) != Keys(cur.columns))
            && Diff(prev, cur).value.keys == Keys(cur.columns) && Diff(prev, cur).value.previousKeys == Keys(prev.columns)
  {
    hide Missing, Retyped, Keys, TypeOf;
    NoneMissing(cur.columns, prev.columns);
    NoneMissing(prev.columns, cur.columns);
    NoneRetyped(cur.columns, prev.columns);
  }

  predicate Describes(d: ColumnDef, c: Column) { d.name == c.name && d.oid == c.oid && (d.partOfKey <==> c.flags % 2 == 1) }

  /** An added column is described as it is now, with its place in the key ... */
  lemma AddedMean(prev: Relation, cur: Relation, d: ColumnDef)
    requires Diff(prev, cur).Some?
    ensures d in Diff(prev, cur).value.added <==>
            exists c :: c in cur.columns && Describes(d, c) && forall p | p in prev.columns :: p.name != c.name
  {
    MissingIff(cur.columns, prev.columns, d);
    forall c: Column ensures Find(prev.columns, c.name).None? <==> forall p | p in prev.columns :: p.name != c.name {
      FindIs(prev.columns, c.name);
    }
    hide Missing, Retyped, Keys, Find;
  }

  predicate Turns(t: TypeChange, p: Column, c: Column) {
    c.name == p.name == t.name && c.oid != p.oid && Describes(t.before, p) && Describes(t.after, c)
  }

  /** ... and a type change as the column was and as it is. */
  lemma ChangedMean(prev: Relation, cur: Relation, t: TypeChange)
    requires DistinctNames(prev.columns) && Diff(prev, cur).Some?
    ensures t in Diff(prev, cur).value.changed <==> exists c, p :: c in cur.columns && p in prev.columns && Turns(t, p, c)
  {
    RetypedIff(cur.columns, prev.columns, t);
    hide Missing, Retyped, Keys, Find;
    if t in Diff(prev, cur).value.changed {
      var c :| c in cur.columns && Find(prev.columns, c.name).Some? && Find(prev.columns, c.name).value.oid != c.oid
               && t == TypeChange(c.name, Def(Find(prev.columns, c.name).value), Def(c));
      FindIs(prev.columns, c.name);
      assert Turns(t, Find(prev.columns, c.name).value, c);
    }
    if c, p :| c in cur.columns && p in prev.columns && Turns(t, p, c) { FindOnly(prev.columns, p); }
  }
}
