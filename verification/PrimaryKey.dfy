/**
  The text under which the coordinator remembers a row: its primary-key columns, printed and joined
  with a separator character.
*/
module PrimaryKey {
  import opened Prelude
  import opened Events

  const SEPARATOR: char := '\U{1F}'

  /** How a value prints. */
  function Print(v: Value): string { if v.Null? then "<nil>" else v.text }

  function Join(parts: seq<string>): string
    requires parts != []
  {
    if |parts| == 1 then parts[0] else Join(parts[..|parts| - 1]) + [SEPARATOR] + parts[|parts| - 1]
  }

  predicate HasAll(data: Data, pkCols: seq<string>) { forall i :: 0 <= i < |pkCols| ==> pkCols[i] in data }

  function Parts(data: Data, pkCols: seq<string>): (parts: seq<string>)
    requires HasAll(data, pkCols)
    ensures |parts| == |pkCols|
  {
    seq(|pkCols|, i requires 0 <= i < |pkCols| => Print(data[pkCols[i]]))
  }

  /** None when a key column is missing from the data. */
  method KeyFromData(data: Data, pkCols: seq<string>) returns (key: Option<string>)
    requires pkCols != []
    ensures key.Some? <==> HasAll(data, pkCols)
    ensures key.Some? ==> key.value == Join(Parts(data, pkCols))
  {
    var parts: seq<string> := [];
    for i := 0 to |pkCols|
      invariant |parts| == i
      invariant forall j :: 0 <= j < i ==> pkCols[j] in data && parts[j] == Print(data[pkCols[j]])
    {
      if pkCols[i] !in data { return None; }
      parts := parts + [Print(data[pkCols[i]])];
    }
    assert parts == Parts(data, pkCols);
    var text := parts[0];
    for i := 1 to |parts|
      invariant text == Join(parts[..i])
    {
      assert parts[..i + 1][..i] == parts[..i];
      text := text + [SEPARATOR] + parts[i];
    }
    assert parts[..|parts|] == parts;
    key := Some(text);
  }

  // ---------------------------------------------------------------- when the text identifies the row

  function Count(s: string): nat {
    if s == [] then 0 else Count(s[..|s| - 1]) + if s[|s| - 1] == SEPARATOR then 1 else 0
  }

  lemma {:induction false} CountConcat(a: string, b: string)
    ensures Count(a + b) == Count(a) + Count(b)
  {
    if b == [] {
      assert a + b == a;
    } else {
      assert (a + b)[..|a + b| - 1] == a + b[..|b| - 1];
      CountConcat(a, b[..|b| - 1]);
    }
  }

  lemma {:induction false} NoneIffZero(s: string)
    ensures Count(s) == 0 <==> SEPARATOR !in s
  {
    if s == [] {
    } else {
      NoneIffZero(s[..|s| - 1]);
      assert s == s[..|s| - 1] + [s[|s| - 1]];
    }
  }

  function CountAll(parts: seq<string>): nat {
    if parts == [] then 0 else CountAll(parts[..|parts| - 1]) + Count(parts[|parts| - 1])
  }

  lemma {:induction false} JoinCount(parts: seq<string>)
    requires parts != []
    ensures Count(Join(parts)) == CountAll(parts) + |parts| - 1
  {
    if |parts| == 1 {
      assert parts[..0] == [] && CountAll(parts[..0]) == 0;
    } else {
      var front, last := parts[..|parts| - 1], parts[|parts| - 1];
      JoinCount(front);
      CountConcat(Join(front) + [SEPARATOR], last);
      CountConcat(Join(front), [SEPARATOR]);
      assert Count([SEPARATOR]) == 1;
    }
  }

  predicate Clean(parts: seq<string>) { forall i :: 0 <= i < |parts| ==> SEPARATOR !in parts[i] }

  lemma {:induction false} CleanIffZero(parts: seq<string>)
    ensures CountAll(parts) == 0 <==> Clean(parts)
  {
    if parts == [] {
    } else {
      CleanIffZero(parts[..|parts| - 1]);
      NoneIffZero(parts[|parts| - 1]);
      assert forall i :: 0 <= i < |parts| - 1 ==> parts[..|parts| - 1][i] == parts[i];
    }
  }

  lemma SeparatorBefore(a: string, x: string, i: nat)
    requires SEPARATOR !in x && i < |a| + 1 + |x|
    ensures (a + [SEPARATOR] + x)[i] == SEPARATOR ==> i <= |a|
  {
    if i > |a| { assert (a + [SEPARATOR] + x)[i] == x[i - |a| - 1]; }
  }

  /** The last part begins after the last separator. */
  lemma LastPart(a: string, x: string, b: string, y: string)
    requires a + [SEPARATOR] + x == b + [SEPARATOR] + y && SEPARATOR !in x && SEPARATOR !in y
    ensures a == b && x == y
  {
    var t, u := a + [SEPARATOR] + x, b + [SEPARATOR] + y;
    assert t[|a|] == SEPARATOR && u[|b|] == SEPARATOR && |t| == |a| + 1 + |x| == |u| == |b| + 1 + |y|;
    SeparatorBefore(a, x, |b|);
    SeparatorBefore(b, y, |a|);
    assert a == t[..|a|] && b == u[..|b|];
    assert x == t[|a| + 1..] && y == u[|b| + 1..];
  }

  lemma {:induction false} CleanDetermined(p: seq<string>, q: seq<string>)
    requires p != [] && |p| == |q| && Clean(p) && Clean(q) && Join(p) == Join(q)
    ensures p == q
  {
    if |p| <= 1 {
    } else {
      var n := |p| - 1;
      LastPart(Join(p[..n]), p[n], Join(q[..n]), q[n]);
      CleanDetermined(p[..n], q[..n]);
      assert p == p[..n] + [p[n]] && q == q[..n] + [q[n]];
    }
  }

  /** A separator can move from one part to its neighbour. */
  lemma Ambiguous(p: seq<string>, i: nat) returns (q: seq<string>)
    requires |p| > 1 && i < |p| && SEPARATOR in p[i]
    ensures |q| == |p| && q != p && Join(q) == Join(p)
  {
    var k :| 0 <= k < |p[i]| && p[i][k] == SEPARATOR;
    var x, y := p[i][..k], p[i][k + 1..];
    assert p[i] == x + [SEPARATOR] + y;
    if i + 1 < |p| {
      q := p[i := x][i + 1 := y + [SEPARATOR] + p[i + 1]];
      assert q[i] != p[i];
      Regrouped(p, q, i, x, y);
    } else {
      q := p[i - 1 := p[i - 1] + [SEPARATOR] + x][i := y];
      assert q[i] != p[i];
      Regrouped(q, p, i - 1, p[i - 1], x);
    }
  }

  /** Splitting part `i` at a separator and giving the rest to the next part joins alike. */
  lemma {:induction false} Regrouped(p: seq<string>, q: seq<string>, i: nat, x: string, y: string)
    requires |p| == |q| && i + 1 < |p| && p[i] == x + [SEPARATOR] + y
    requires q == p[i := x][i + 1 := y + [SEPARATOR] + p[i + 1]]
    ensures Join(p) == Join(q)
    decreases |p|
  {
    var n := |p| - 1;
    if i + 1 < n {
      assert q[..n] == p[..n][i := x][i + 1 := y + [SEPARATOR] + p[..n][i + 1]];
      Regrouped(p[..n], q[..n], i, x, y);
    } else {
      JoinEnds(p[..n], x + [SEPARATOR] + y);
      JoinEnds(q[..n], x);
      assert p[..n][..i] == q[..n][..i];
      var front := Prefix(p[..n][..i]);
      hide Join;
      assert (front + (x + [SEPARATOR] + y)) + [SEPARATOR] + p[n] == (front + x) + [SEPARATOR] + (y + [SEPARATOR] + p[n]);
    }
  }

  function Prefix(parts: seq<string>): string { if parts == [] then [] else Join(parts) + [SEPARATOR] }

  lemma JoinEnds(parts: seq<string>, last: string)
    requires parts != [] && parts[|parts| - 1] == last
    ensures Join(parts) == Prefix(parts[..|parts| - 1]) + last
  {}

  lemma CleanIdentifies(p: seq<string>, q: seq<string>)
    requires p != [] && Clean(p) && |q| == |p| && Join(q) == Join(p)
    ensures q == p
  {
    hide Join, Count, CountAll, Clean;
    JoinCount(p);
    JoinCount(q);
    CleanIffZero(p);
    CleanIffZero(q);
    CleanDetermined(p, q);
  }

  ghost predicate Identifies(p: seq<string>)
    requires p != []
  {
    forall q: seq<string> | |q| == |p| && Join(q) == Join(p) :: q == p
  }

  /** The text of a row's key belongs to no other key exactly when there is one key column or no
      part contains the separator. */
  lemma IdentifiesIff(p: seq<string>)
    requires p != []
    ensures Identifies(p) <==> |p| == 1 || Clean(p)
  {
    if |p| == 1 {
    } else if Clean(p) {
      hide Join, Clean;
      forall q: seq<string> | |q| == |p| && Join(q) == Join(p) ensures q == p { CleanIdentifies(p, q); }
    } else {
      hide Join;
      var i :| 0 <= i < |p| && SEPARATOR in p[i];
      var q := Ambiguous(p, i);
    }
  }

  // ---------------------------------------------------------------- from texts to rows

  /** Key columns are not null and have a type each; a value of a given type is what it prints. */
  ghost predicate Typed(data: Data, pkCols: seq<string>, kinds: seq<nat>) {
    |kinds| == |pkCols| &&
    forall i :: 0 <= i < |pkCols| ==> pkCols[i] in data && data[pkCols[i]].Val? && data[pkCols[i]].kind == kinds[i]
  }

  ghost predicate SameKey(a: Data, b: Data, pkCols: seq<string>)
    requires HasAll(a, pkCols) && HasAll(b, pkCols)
  {
    forall i :: 0 <= i < |pkCols| ==> a[pkCols[i]] == b[pkCols[i]]
  }

  /** No row with another key has the row's key text. */
  ghost predicate IdentifiesRow(data: Data, pkCols: seq<string>, kinds: seq<nat>)
    requires pkCols != [] && Typed(data, pkCols, kinds)
  {
    forall other: Data | Typed(other, pkCols, kinds) && Join(Parts(other, pkCols)) == Join(Parts(data, pkCols)) ::
      SameKey(other, data, pkCols)
  }

  /** The row with the given texts in its key columns. */
  function WithParts(data: Data, pkCols: seq<string>, kinds: seq<nat>, parts: seq<string>): Data
    requires |pkCols| == |kinds| == |parts|
  {
    if pkCols == [] then data
    else
      var n := |pkCols| - 1;
      WithParts(data, pkCols[..n], kinds[..n], parts[..n])[pkCols[n] := Val(kinds[n], parts[n])]
  }

  lemma {:induction false} WithPartsHas(data: Data, pkCols: seq<string>, kinds: seq<nat>, parts: seq<string>, i: nat)
    requires |pkCols| == |kinds| == |parts| && i < |pkCols|
    requires forall a, b :: 0 <= a < b < |pkCols| ==> pkCols[a] != pkCols[b]
    ensures var other := WithParts(data, pkCols, kinds, parts); pkCols[i] in other && other[pkCols[i]] == Val(kinds[i], parts[i])
  {
    var n := |pkCols| - 1;
    if i == n {
    } else {
      WithPartsHas(data, pkCols[..n], kinds[..n], parts[..n], i);
    }
  }

  lemma RowWithParts(data: Data, pkCols: seq<string>, kinds: seq<nat>, parts: seq<string>) returns (other: Data)
    requires |pkCols| == |kinds| == |parts| && forall a, b :: 0 <= a < b < |pkCols| ==> pkCols[a] != pkCols[b]
    ensures Typed(other, pkCols, kinds) && Parts(other, pkCols) == parts
  {
    other := WithParts(data, pkCols, kinds, parts);
    forall i | 0 <= i < |pkCols| ensures pkCols[i] in other && other[pkCols[i]] == Val(kinds[i], parts[i]) {
      WithPartsHas(data, pkCols, kinds, parts, i);
    }
    assert Parts(other, pkCols) == parts;
  }

  lemma SameParts(a: Data, b: Data, pkCols: seq<string>, kinds: seq<nat>)
    requires Typed(a, pkCols, kinds) && Typed(b, pkCols, kinds)
    ensures Parts(a, pkCols) == Parts(b, pkCols) <==> SameKey(a, b, pkCols)
  {
    if Parts(a, pkCols) == Parts(b, pkCols) {
      forall i | 0 <= i < |pkCols| ensures a[pkCols[i]] == b[pkCols[i]] {
        assert Parts(a, pkCols)[i] == Parts(b, pkCols)[i];
      }
    }
  }

  /** The text under which the coordinator remembers a row identifies it exactly when it has one key
      column or none of its key values contains the separator. */
  lemma IdentifiesRowIff(data: Data, pkCols: seq<string>, kinds: seq<nat>)
    requires pkCols != [] && Typed(data, pkCols, kinds)
    requires forall a, b :: 0 <= a < b < |pkCols| ==> pkCols[a] != pkCols[b]
    ensures IdentifiesRow(data, pkCols, kinds) <==> |pkCols| == 1 || Clean(Parts(data, pkCols))
  {
    hide Join, Clean, Parts;
    var p := Parts(data, pkCols);
    IdentifiesIff(p);
    if Identifies(p) {
      forall other: Data | Typed(other, pkCols, kinds) && Join(Parts(other, pkCols)) == Join(p) ensures SameKey(other, data, pkCols) {
        SameParts(other, data, pkCols, kinds);
      }
    } else {
      var q :| |q| == |p| && Join(q) == Join(p) && q != p;
      var other := RowWithParts(data, pkCols, kinds, q);
      SameParts(other, data, pkCols, kinds);
    }
  }
}
