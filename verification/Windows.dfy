/**
  Exactly which changes between a chunk's watermarks the backfill copes with.
*/
module Windows {
  import opened Prelude
  import opened Coordinator
  import opened SourceTable
  import opened Convergence
  import opened Mirroring

  // ---------------------------------------------------------------- rows that survive

  /** A chunk's low watermark, what follows it, and its high watermark. */
  predicate IsWindow(wal: seq<Entry>) {
    |wal| >= 2 && wal[0].Mark? && !wal[0].high && wal[|wal| - 1] == Mark(wal[0].id, true)
  }

  ghost predicate SurvivorOk(e: Env, from: Option<Key>, sel: nat, rows: seq<Row>, r: Row)
    requires IsWindow(e.wal)
  {
    1 <= sel < |e.wal| && Page(e, from, sel, rows) && r in Surviving(rows, SeenIn(e, 1, |e.wal| - 1)) ==>
      ValueAt(e, r.key, |e.wal| - 1) == Some(r.doc)
  }

  /** Whatever the table held and whenever the select ran, the surviving rows are what the source
      holds at the high watermark. */
  ghost predicate WindowSafe(wal: seq<Entry>, table: string, size: nat)
    requires IsWindow(wal)
  {
    forall base: map<Key, Doc>, from: Option<Key>, sel: nat, rows: seq<Row>, r: Row ::
      SurvivorOk(Env(wal, base, table, size), from, sel, rows, r)
  }

  predicate SeesAt(wal: seq<Entry>, table: string, k: Key, x: nat) { 1 <= x < |wal| && k in SeenAt(table, wal[x]) }

  predicate ChangesAt(wal: seq<Entry>, table: string, k: Key, x: nat) {
    1 <= x < |wal| && wal[x].Changed? && wal[x].table == table && Touches(wal[x].change, k)
  }

  /** Every key a change in the window touches is one the coordinator sees there. */
  ghost predicate AllTouchesSeen(wal: seq<Entry>, table: string) {
    forall k: Key, x: nat | ChangesAt(wal, table, k, x) :: exists y: nat :: SeesAt(wal, table, k, y)
  }

  lemma {:induction false} SeenInIff(e: Env, hi: nat, k: Key)
    requires hi <= |e.wal|
    ensures k in SeenIn(e, 1, hi) <==> exists x: nat :: x < hi && SeesAt(e.wal, e.table, k, x)
    decreases hi
  {
    if hi <= 1 {
    } else {
      SeenInIff(e, hi - 1, k);
      assert SeesAt(e.wal, e.table, k, hi - 1) <==> k in SeenAt(e.table, e.wal[hi - 1]);
    }
  }

  lemma SafeIfSeen(e: Env, from: Option<Key>, sel: nat, rows: seq<Row>, r: Row)
    requires IsWindow(e.wal) && AllTouchesSeen(e.wal, e.table)
    ensures SurvivorOk(e, from, sel, rows, r)
  {
    hide ValueAt, SeenIn, Surviving;
    var hi := |e.wal| - 1;
    SurvivingIff(rows, SeenIn(e, 1, hi), r);
    SeenInIff(e, hi, r.key);
    if 1 <= sel < |e.wal| && Page(e, from, sel, rows) && r in Surviving(rows, SeenIn(e, 1, hi)) {
      forall x: nat | sel <= x < hi ensures !TouchedAt(e, x, r.key) {
        assert TouchedAt(e, x, r.key) ==> ChangesAt(e.wal, e.table, r.key, x);
      }
      StillThere(e, r.key, sel, hi);
    }
  }

  /** A key that is touched and never seen is gone. */
  lemma {:induction false} UnseenGone(e: Env, k: Key, x: nat, hi: nat)
    requires 1 <= x < hi <= |e.wal| && TouchedAt(e, x, k)
    requires forall y: nat :: !SeesAt(e.wal, e.table, k, y)
    ensures ValueAt(e, k, hi) == None
    decreases hi
  {
    assert !SeesAt(e.wal, e.table, k, hi - 1);
    if x == hi - 1 {
    } else {
      UnseenGone(e, k, x, hi - 1);
    }
  }

  /** A touched key nobody sees makes a window unsafe: a row with that key survives its deletion. */
  lemma UnsafeIfUnseen(wal: seq<Entry>, table: string, size: nat, k: Key, x: nat)
    requires size > 0 && IsWindow(wal) && ChangesAt(wal, table, k, x)
    requires forall y: nat :: !SeesAt(wal, table, k, y)
    ensures !SurvivorOk(Env(wal, map[k := DOC], table, size), None, 1, [Row(k, DOC)], Row(k, DOC))
  {
    var e, r, hi := Env(wal, map[k := DOC], table, size), Row(k, DOC), |wal| - 1;
    UnseenGone(e, k, x, hi);
    SeenInIff(e, hi, k);
    assert [r] == [Row(k, DOC)] && r in [r];
    SurvivingIff([r], SeenIn(e, 1, hi), r);
    OneRowPage(e, k, DOC);
  }

  lemma OneRowPage(e: Env, k: Key, doc: Doc)
    requires e.size > 0 && |e.wal| > 0 && e.wal[0].Mark? && e.base == map[k := doc]
    ensures Page(e, None, 1, [Row(k, doc)]) && InRange(e, None, [Row(k, doc)], k)
  {
    forall j: Key ensures ValueAt(e, j, 1) == if j == k then Some(doc) else None {
      assert ValueAt(e, j, 1) == ValueAt(e, j, 0);
    }
    assert Row(k, doc) in [Row(k, doc)];
  }

  /** A window is safe exactly when no key is changed in it unseen: no update changes a key, the
      table is not truncated, and every delete carries its key (or the key is seen otherwise). */
  lemma WindowSafeIff(wal: seq<Entry>, table: string, size: nat)
    requires size > 0 && IsWindow(wal)
    ensures WindowSafe(wal, table, size) <==> AllTouchesSeen(wal, table)
  {
    hide SurvivorOk, SeesAt, ChangesAt;
    if AllTouchesSeen(wal, table) {
      forall base: map<Key, Doc>, from: Option<Key>, sel: nat, rows: seq<Row>, r: Row
        ensures SurvivorOk(Env(wal, base, table, size), from, sel, rows, r)
      {
        SafeIfSeen(Env(wal, base, table, size), from, sel, rows, r);
      }
    } else {
      var k: Key, x: nat :| ChangesAt(wal, table, k, x) && !(exists y: nat :: SeesAt(wal, table, k, y));
      UnsafeIfUnseen(wal, table, size, k, x);
    }
  }

  // ---------------------------------------------------------------- the mirror after the window

  /** The mirror after the first `x` entries of the log. */
  function MirrorAt(e: Env, mirror: map<Key, Doc>, x: nat): map<Key, Doc>
    requires x <= |e.wal|
  {
    if x == 0 then mirror
    else if IsOurs(e, x - 1) then ApplyChange(MirrorAt(e, mirror, x - 1), e.wal[x - 1].change)
    else MirrorAt(e, mirror, x - 1)
  }

  /** What a mirror may hold at the low watermark: of each row nothing yet, or what the source holds. */
  ghost predicate Faithful(e: Env, mirror: map<Key, Doc>) {
    forall k: Key :: SinkAt(mirror, k).None? || SinkAt(mirror, k) == ValueAt(e, k, 0)
  }

  /** The mirror after the window's changes and then the surviving rows. */
  function Mirrored(e: Env, mirror: map<Key, Doc>, rows: seq<Row>): map<Key, Doc>
    requires IsWindow(e.wal)
  {
    ApplyRows(MirrorAt(e, mirror, |e.wal| - 1), Surviving(rows, SeenIn(e, 1, |e.wal| - 1)))
  }

  ghost predicate KeyMirrored(e: Env, mirror: map<Key, Doc>, from: Option<Key>, sel: nat, rows: seq<Row>, k: Key)
    requires IsWindow(e.wal)
  {
    1 <= sel < |e.wal| && Page(e, from, sel, rows) && Faithful(e, mirror) && InRange(e, from, rows, k) ==>
      SinkAt(Mirrored(e, mirror, rows), k) == ValueAt(e, k, |e.wal| - 1)
  }

  /** Whatever the table and the mirror held and whenever the select ran, every key of the chunk's
      range ends up in the mirror as it is in the source at the high watermark. */
  ghost predicate WindowConverges(wal: seq<Entry>, table: string, size: nat)
    requires IsWindow(wal)
  {
    forall base: map<Key, Doc>, mirror: map<Key, Doc>, from: Option<Key>, sel: nat, rows: seq<Row>, k: Key ::
      KeyMirrored(Env(wal, base, table, size), mirror, from, sel, rows, k)
  }

  // ---------------------------------------------------------------- what the entries alone tell about a key

  /** `Open` as long as no change settled the key whatever it held: whether something touched it, and
      whether the source lost it unnoticed. `Settled` when one did: what the source and the mirror
      hold from then on. */
  datatype Standing = Open(touched: bool, lost: bool) | Settled(source: Option<Doc>, mirror: Option<Doc>)

  function Stepped(st: Standing, ch: Change, k: Key): Standing {
    if !Touches(ch, k) then st
    else match ch
      case Put(_, doc) => Settled(Some(doc), Some(doc))
      case Del(_) => Settled(None, None)
      case Truncate => Settled(None, None)
      case Rekey(_, n, doc) =>
        if k == n then Settled(Some(doc), Some(doc))
        else if st.Open? then Open(true, true) else st.(source := None)
      case DelUnkeyed(_) => if st.Open? then Open(true, true) else st.(source := None)
      case Patch(_, doc) =>
        if st.Open? then st.(touched := true) else Settled(Some(Patched(st.source, doc)), Some(Patched(st.mirror, doc)))
  }

  /** The standing of key `k` after the first `x` entries. */
  function StandingAt(wal: seq<Entry>, table: string, k: Key, x: nat): Standing
    requires x <= |wal|
  {
    if x == 0 then Open(false, false)
    else if wal[x - 1].Changed? && wal[x - 1].table == table then Stepped(StandingAt(wal, table, k, x - 1), wal[x - 1].change, k)
    else StandingAt(wal, table, k, x - 1)
  }

  /** The key is left alone, or it is seen, a change settles it, and what source and mirror make of
      the changes after that is the same: a later rekey away or keyless delete undoes it, unless
      patches since set again every field the mirror still holds. */
  ghost predicate Told(wal: seq<Entry>, table: string, k: Key)
    requires IsWindow(wal)
  {
    var st := StandingAt(wal, table, k, |wal| - 1);
    || st == Open(false, false)
    || ((exists y: nat :: SeesAt(wal, table, k, y)) && st.Settled? && st.source == st.mirror)
  }

  ghost predicate AllTold(wal: seq<Entry>, table: string)
    requires IsWindow(wal)
  {
    forall k: Key :: Told(wal, table, k)
  }

  // ---------------------------------------------------------------- the standing is what happens

  /** A settled key is what its standing says; an untouched one is as it was. */
  lemma {:induction false} StandingHolds(e: Env, mirror: map<Key, Doc>, k: Key, x: nat)
    requires x <= |e.wal|
    ensures var st := StandingAt(e.wal, e.table, k, x);
            && (st.Settled? ==> ValueAt(e, k, x) == st.source && SinkAt(MirrorAt(e, mirror, x), k) == st.mirror)
            && (st == Open(false, false) ==> ValueAt(e, k, x) == ValueAt(e, k, 0) && SinkAt(MirrorAt(e, mirror, x), k) == SinkAt(mirror, k))
    decreases x
  {
    if x == 0 {
    } else {
      StandingHolds(e, mirror, k, x - 1);
      if IsOurs(e, x - 1) { OneChange(MirrorAt(e, mirror, x - 1), e.wal[x - 1].change, k); }
    }
  }

  /** What one change does to a mirror's key. */
  lemma OneChange(sink: map<Key, Doc>, ch: Change, k: Key)
    ensures var v := SinkAt(ApplyChange(sink, ch), k);
            match ch
            case Put(key, doc) => v == if k == key then Some(doc) else SinkAt(sink, k)
            case Patch(key, doc) => v == if k == key then Some(Patched(SinkAt(sink, k), doc)) else SinkAt(sink, k)
            case Del(key) => v == if k == key then None else SinkAt(sink, k)
            case Truncate => v == None
            case Rekey(_, n, doc) => v == if k == n then Some(doc) else SinkAt(sink, k)
            case DelUnkeyed(_) => v == SinkAt(sink, k)
  {}

  lemma {:induction false} UntouchedIsOpen(wal: seq<Entry>, table: string, k: Key, x: nat)
    requires x <= |wal| && |wal| > 0 && wal[0].Mark?
    ensures StandingAt(wal, table, k, x) == Open(false, false) <==> forall y: nat | y < x :: !ChangesAt(wal, table, k, y)
    decreases x
  {
    if x == 0 {
    } else {
      UntouchedIsOpen(wal, table, k, x - 1);
      assert ChangesAt(wal, table, k, x - 1) <==>
             x > 1 && wal[x - 1].Changed? && wal[x - 1].table == table && Touches(wal[x - 1].change, k);
    }
  }

  // ---------------------------------------------------------------- told keys are mirrored

  lemma ToldIsMirrored(e: Env, mirror: map<Key, Doc>, from: Option<Key>, sel: nat, rows: seq<Row>, k: Key)
    requires IsWindow(e.wal) && Told(e.wal, e.table, k)
    ensures KeyMirrored(e, mirror, from, sel, rows, k)
  {
    if 1 <= sel < |e.wal| && Page(e, from, sel, rows) && Faithful(e, mirror) && InRange(e, from, rows, k) {
      var hi := |e.wal| - 1;
      StandingHolds(e, mirror, k, hi);
      if StandingAt(e.wal, e.table, k, hi) == Open(false, false) {
        AloneIsMirrored(e, mirror, from, sel, rows, k);
      } else {
        SeenIsNotOverwritten(e, mirror, rows, k);
      }
    }
  }

  lemma SeenIsNotOverwritten(e: Env, mirror: map<Key, Doc>, rows: seq<Row>, k: Key)
    requires IsWindow(e.wal) && exists y: nat :: SeesAt(e.wal, e.table, k, y)
    ensures SinkAt(Mirrored(e, mirror, rows), k) == SinkAt(MirrorAt(e, mirror, |e.wal| - 1), k)
  {
    hide ApplyRows, SeenIn, MirrorAt, Surviving;
    var hi := |e.wal| - 1;
    SeenInIff(e, hi, k);
    var y: nat :| SeesAt(e.wal, e.table, k, y);
    assert y < hi;
    var left := Surviving(rows, SeenIn(e, 1, hi));
    RowsAtKey(MirrorAt(e, mirror, hi), left, k);
    forall r | r in left ensures r.key != k { SurvivingIff(rows, SeenIn(e, 1, hi), r); }
  }

  lemma AloneIsMirrored(e: Env, mirror: map<Key, Doc>, from: Option<Key>, sel: nat, rows: seq<Row>, k: Key)
    requires IsWindow(e.wal) && 1 <= sel < |e.wal| && Page(e, from, sel, rows) && Faithful(e, mirror) && InRange(e, from, rows, k)
    requires StandingAt(e.wal, e.table, k, |e.wal| - 1) == Open(false, false)
    ensures SinkAt(Mirrored(e, mirror, rows), k) == ValueAt(e, k, |e.wal| - 1)
  {
    var hi := |e.wal| - 1;
    StandingHolds(e, mirror, k, hi);
    UntouchedIsOpen(e.wal, e.table, k, hi);
    SeenInIff(e, hi, k);
    hide ApplyRows, SeenIn, MirrorAt, Surviving, ValueAt, StandingAt;
    forall x: nat | 0 <= x < hi ensures !TouchedAt(e, x, k) {
      assert TouchedAt(e, x, k) ==> ChangesAt(e.wal, e.table, k, x);
    }
    StillThere(e, k, 0, sel);
    StillThere(e, k, 0, hi);
    UnseenIfAlone(e, k);
    var left := Surviving(rows, SeenIn(e, 1, hi));
    RowsAtKey(MirrorAt(e, mirror, hi), left, k);
    forall r | r in left && r.key == k ensures Some(r.doc) == ValueAt(e, k, sel) { SurvivingIff(rows, SeenIn(e, 1, hi), r); }
    if ValueAt(e, k, sel).Some? {
      SurvivingIff(rows, SeenIn(e, 1, hi), Row(k, ValueAt(e, k, sel).value));
    }
  }

  /** A seen key is a touched one. */
  lemma UnseenIfAlone(e: Env, k: Key)
    requires IsWindow(e.wal) && forall y: nat | y < |e.wal| - 1 :: !ChangesAt(e.wal, e.table, k, y)
    ensures k !in SeenIn(e, 1, |e.wal| - 1)
  {
    SeenInIff(e, |e.wal| - 1, k);
    if x: nat :| x < |e.wal| - 1 && SeesAt(e.wal, e.table, k, x) {
      assert ChangesAt(e.wal, e.table, k, x);
    }
  }

  // ---------------------------------------------------------------- and only told keys are

  ghost predicate Fails(wal: seq<Entry>, table: string, size: nat)
    requires IsWindow(wal)
  {
    exists base: map<Key, Doc>, mirror: map<Key, Doc>, from: Option<Key>, sel: nat, rows: seq<Row>, k: Key ::
      !KeyMirrored(Env(wal, base, table, size), mirror, from, sel, rows, k)
  }

  /** A touched key nobody sees survives in the mirror. */
  lemma UnseenFails(wal: seq<Entry>, table: string, size: nat, k: Key, x: nat)
    requires size > 0 && IsWindow(wal) && ChangesAt(wal, table, k, x) && forall y: nat :: !SeesAt(wal, table, k, y)
    ensures Fails(wal, table, size)
  {
    var e, r, hi := Env(wal, map[k := DOC], table, size), Row(k, DOC), |wal| - 1;
    OneRowPage(e, k, DOC);
    UnseenGone(e, k, x, hi);
    SeenInIff(e, hi, k);
    SurvivingIff([r], SeenIn(e, 1, hi), r);
    hide ApplyRows, SeenIn, MirrorAt, Surviving, ValueAt, Page;
    assert r in [r];
    RowsAtKey(MirrorAt(e, map[], hi), Surviving([r], SeenIn(e, 1, hi)), k);
    assert !KeyMirrored(e, map[], None, 1, [r], k);
  }

  lemma NoRowPage(e: Env)
    requires e.size > 0 && |e.wal| > 0 && e.wal[0].Mark? && e.base == map[]
    ensures Page(e, None, 1, []) && forall k: Key :: InRange(e, None, [], k)
  {
    forall j: Key ensures ValueAt(e, j, 1) == None {
      assert ValueAt(e, j, 1) == ValueAt(e, j, 0);
    }
  }

  /** A key that is settled differently in source and mirror. */
  lemma SettledApartFails(wal: seq<Entry>, table: string, size: nat, k: Key)
    requires size > 0 && IsWindow(wal)
    requires var st := StandingAt(wal, table, k, |wal| - 1); st.Settled? && st.source != st.mirror
    ensures Fails(wal, table, size)
  {
    var e, hi := Env(wal, map[], table, size), |wal| - 1;
    NoRowPage(e);
    StandingHolds(e, map[], k, hi);
    hide SeenIn, MirrorAt, ValueAt, Page, StandingAt;
    assert Surviving([], SeenIn(e, 1, hi)) == [];
    assert !KeyMirrored(e, map[], None, 1, [], k);
  }

  predicate HasField(v: Option<Doc>, f: string) { v.Some? && f in v.value }

  ghost predicate Unpatched(wal: seq<Entry>, f: string) {
    forall x | 0 <= x < |wal| && wal[x].Changed? && wal[x].change.Patch? :: f !in wal[x].change.doc
  }

  lemma {:induction false} LongerThan(names: set<string>) returns (n: nat)
    ensures forall f | f in names :: |f| < n
    decreases names
  {
    if names == {} {
      n := 0;
    } else {
      var f :| f in names;
      n := LongerThan(names - {f});
      n := if |f| < n then n else |f| + 1;
    }
  }

  lemma {:induction false} PatchesShorter(wal: seq<Entry>) returns (n: nat)
    ensures forall x, f | 0 <= x < |wal| && wal[x].Changed? && wal[x].change.Patch? && f in wal[x].change.doc :: |f| < n
  {
    if wal == [] {
      n := 0;
    } else {
      var i := |wal| - 1;
      n := PatchesShorter(wal[..i]);
      if wal[i].Changed? && wal[i].change.Patch? {
        var m := LongerThan(wal[i].change.doc.Keys);
        n := if m < n then n else m;
      }
      forall x, f | 0 <= x < |wal| && wal[x].Changed? && wal[x].change.Patch? && f in wal[x].change.doc ensures |f| < n {
        if x < i { assert wal[..i][x] == wal[x]; }
      }
    }
  }

  lemma FreshField(wal: seq<Entry>) returns (f: string)
    ensures Unpatched(wal, f)
  {
    var n := PatchesShorter(wal);
    f := seq(n, _ => 'f');
    forall x | 0 <= x < |wal| && wal[x].Changed? && wal[x].change.Patch? ensures f !in wal[x].change.doc {
      assert |f| == n;
    }
  }

  /** While a key is open, a field no patch sets stays with the mirror as it was, and with the source
      until the row is lost. */
  lemma {:induction false} OpenTracks(e: Env, mirror: map<Key, Doc>, k: Key, f: string, x: nat)
    requires x <= |e.wal| && Unpatched(e.wal, f) && HasField(ValueAt(e, k, 0), f)
    ensures var st := StandingAt(e.wal, e.table, k, x);
            st.Open? ==>
              && (HasField(ValueAt(e, k, x), f) <==> !st.lost)
              && (HasField(SinkAt(MirrorAt(e, mirror, x), k), f) <==> HasField(SinkAt(mirror, k), f))
    decreases x
  {
    if x == 0 {
    } else {
      OpenTracks(e, mirror, k, f, x - 1);
      if IsOurs(e, x - 1) { OneChange(MirrorAt(e, mirror, x - 1), e.wal[x - 1].change, k); }
    }
  }

  /** A key that is touched and never settled: partial rows alone, or partial rows and a loss. */
  lemma OpenFails(wal: seq<Entry>, table: string, size: nat, k: Key)
    requires size > 0 && IsWindow(wal) && StandingAt(wal, table, k, |wal| - 1).Open? && exists y: nat :: SeesAt(wal, table, k, y)
    ensures Fails(wal, table, size)
  {
    var f := FreshField(wal);
    var doc: Doc := map[f := "1"];
    var e, hi := Env(wal, map[k := doc], table, size), |wal| - 1;
    var mirror: map<Key, Doc> := if StandingAt(wal, table, k, hi).lost then e.base else map[];
    assert ValueAt(e, k, 0) == Some(doc);
    OpenTracks(e, mirror, k, f, hi);
    OneRowPage(e, k, doc);
    SeenIsNotOverwritten(e, mirror, [Row(k, doc)], k);
    assert Faithful(e, mirror);
    hide Mirrored, SeenIn, MirrorAt, ValueAt, Page, StandingAt, Faithful;
    assert !KeyMirrored(e, mirror, None, 1, [Row(k, doc)], k);
  }

  lemma UntoldFails(wal: seq<Entry>, table: string, size: nat, k: Key)
    requires size > 0 && IsWindow(wal) && !Told(wal, table, k)
    ensures Fails(wal, table, size)
  {
    hide StandingAt, Fails;
    UntouchedIsOpen(wal, table, k, |wal| - 1);
    if forall y: nat :: !SeesAt(wal, table, k, y) {
      var x: nat :| x < |wal| - 1 && ChangesAt(wal, table, k, x);
      UnseenFails(wal, table, size, k, x);
    } else if StandingAt(wal, table, k, |wal| - 1).Open? {
      OpenFails(wal, table, size, k);
    } else {
      SettledApartFails(wal, table, size, k);
    }
  }

  /** A chunk's window converges, whatever the table and the mirror held and whenever the select ran,
      exactly when its entries tell all about every key they touch. */
  lemma WindowConvergesIff(wal: seq<Entry>, table: string, size: nat)
    requires size > 0 && IsWindow(wal)
    ensures WindowConverges(wal, table, size) <==> AllTold(wal, table)
  {
    hide KeyMirrored, Told;
    if AllTold(wal, table) {
      forall base: map<Key, Doc>, mirror: map<Key, Doc>, from: Option<Key>, sel: nat, rows: seq<Row>, k: Key
        ensures KeyMirrored(Env(wal, base, table, size), mirror, from, sel, rows, k)
      {
        ToldIsMirrored(Env(wal, base, table, size), mirror, from, sel, rows, k);
      }
    } else {
      var k: Key :| !Told(wal, table, k);
      UntoldFails(wal, table, size, k);
    }
  }

  // ---------------------------------------------------------------- reading the condition

  /** A window that converges is in particular safe: no stale row survives it. */
  lemma ToldIsSeen(wal: seq<Entry>, table: string)
    requires IsWindow(wal) && AllTold(wal, table)
    ensures AllTouchesSeen(wal, table)
  {
    forall k: Key, x: nat | ChangesAt(wal, table, k, x) ensures exists y: nat :: SeesAt(wal, table, k, y) {
      assert Told(wal, table, k);
      UntouchedIsOpen(wal, table, k, |wal| - 1);
      hide StandingAt;
      assert x < |wal| - 1;
    }
  }

  /** Whole rows and keyed deletes alone always converge. */
  lemma PlainConverges(wal: seq<Entry>, table: string)
    requires IsWindow(wal)
    requires forall x: nat | x < |wal| && wal[x].Changed? && wal[x].table == table :: wal[x].change.Put? || wal[x].change.Del?
    ensures AllTold(wal, table)
  {
    forall k: Key ensures Told(wal, table, k) { PlainTold(wal, table, k, |wal| - 1); }
  }

  lemma {:induction false} PlainTold(wal: seq<Entry>, table: string, k: Key, x: nat)
    requires x < |wal| && wal[0].Mark?
    requires forall y: nat | y < |wal| && wal[y].Changed? && wal[y].table == table :: wal[y].change.Put? || wal[y].change.Del?
    ensures var st := StandingAt(wal, table, k, x);
            st == Open(false, false) || ((exists y: nat :: SeesAt(wal, table, k, y)) && st.Settled? && st.source == st.mirror)
    decreases x
  {
    if x == 0 {
    } else {
      PlainTold(wal, table, k, x - 1);
      if ChangesAt(wal, table, k, x - 1) { assert SeesAt(wal, table, k, x - 1); }
    }
  }

  /** A partial row alone tells nothing of the other columns. */
  lemma PatchIsUntold()
    ensures var wal := [Mark(0, false), Changed("t", Patch(1, map["b" := "2"])), Mark(0, true)]; !Told(wal, "t", 1)
  {
    var wal := [Mark(0, false), Changed("t", Patch(1, map["b" := "2"])), Mark(0, true)];
    assert StandingAt(wal, "t", 1, 0) == Open(false, false);
    assert StandingAt(wal, "t", 1, 1) == Open(false, false);
    assert StandingAt(wal, "t", 1, 2) == Open(true, false);
  }

  /** A rekey after a put undoes it, although the key was seen ... */
  lemma RekeyAfterPutIsUntold()
    ensures var wal := [Mark(0, false), Changed("t", Put(1, DOC)), Changed("t", Rekey(1, 2, DOC)), Mark(0, true)];
            AllTouchesSeen(wal, "t") && !Told(wal, "t", 1)
  {
    var wal := [Mark(0, false), Changed("t", Put(1, DOC)), Changed("t", Rekey(1, 2, DOC)), Mark(0, true)];
    assert StandingAt(wal, "t", 1, 0) == Open(false, false);
    assert StandingAt(wal, "t", 1, 1) == Open(false, false);
    assert StandingAt(wal, "t", 1, 2) == Settled(Some(DOC), Some(DOC));
    assert StandingAt(wal, "t", 1, 3) == Settled(None, Some(DOC));
    assert SeesAt(wal, "t", 1, 1) && SeesAt(wal, "t", 2, 2);
  }

  /** ... and a put after it settles the key again. */
  lemma PutAfterRekeyIsTold()
    ensures var wal := [Mark(0, false), Changed("t", Rekey(1, 2, DOC)), Changed("t", Put(1, DOC)), Mark(0, true)];
            AllTold(wal, "t")
  {
    var wal := [Mark(0, false), Changed("t", Rekey(1, 2, DOC)), Changed("t", Put(1, DOC)), Mark(0, true)];
    assert SeesAt(wal, "t", 1, 2) && SeesAt(wal, "t", 2, 1);
    forall k: Key ensures Told(wal, "t", k) {
      assert StandingAt(wal, "t", k, 0) == Open(false, false);
      assert StandingAt(wal, "t", k, 1) == Open(false, false);
      assert StandingAt(wal, "t", k, 2) ==
        if k == 2 then Settled(Some(DOC), Some(DOC)) else if k == 1 then Open(true, true) else Open(false, false);
    }
  }
}
