/**
  Where the backfill stops converging, and a run that does converge.
*/
module Limits {
  import opened Prelude
  import opened Coordinator
  import opened SourceTable
  import opened Convergence
  import opened Sync
  import Horizon

  /** One row, one chunk around one live change. */
  function OneWindow(ch: Change): Env {
    Env([Mark(0, false), Changed("t", ch), Mark(0, true)], map[1 := DOC], "t", 2)
  }

  const ROWS := [Row(1, DOC)]

  function At(inflight: set<nat>, chunk: Chunk, written: nat, st: Stream, lane: Lane, past: Past): Sys {
    Sys(Coord(map[0 := chunk], inflight, true, 0, 1), written, st, lane, false, PENDING, PENDING, past, [])
  }

  /** The stream is up, and the lane has registered its chunk and written the low watermark. */
  lemma LowWritten(ch: Change) returns (s: Sys)
    ensures Reachable(OneWindow(ch), s)
    ensures s == At({0}, Chunk("t", false, {}, [], 0, None, 0, false, 0), 1,
                    Stream(true, false, false, 0, [], false, 0, 0, map[]),
                    Lane(true, None, None, false, [], false, LowOut(0), 0, []), Past(map[0 := None], map[0 := 0], map[], map[]))
  {
    hide Reachable, Exec;
    GetsReady(OneWindow(ch));
    FirstLow(OneWindow(ch), 0);
    s := Lowered(0);
  }

  const FULL := Past(map[0 := None], map[0 := 0], map[0 := Pick(1, ROWS)], map[0 := 2])

  /** ... then selected the row, after which the change and the high watermark were written ... */
  lemma HighWritten(ch: Change) returns (s: Sys)
    ensures Reachable(OneWindow(ch), s)
    ensures s == At({0}, Chunk("t", false, {}, ROWS, 1, Some(1), 0, false, 0), 3,
                    Stream(true, false, false, 0, [], false, 0, 0, map[]),
                    Lane(true, None, Some(1), true, [0], false, NotStarting, 0, []), FULL)
  {
    hide Reachable, Exec;
    var e := OneWindow(ch);
    s := LowWritten(ch);
    FirstPage(ch);
    hide Page;
    s := OneMore(e, s, Select(1, ROWS));
    s := OneMore(e, s, Write);
    s := OneMore(e, s, EmitHigh);
  }

  lemma FirstPage(ch: Change)
    ensures Page(OneWindow(ch), None, 1, ROWS)
  {
    var e := OneWindow(ch);
    forall k: Key ensures ValueAt(e, k, 1) == if k == 1 then Some(DOC) else None {
      assert ValueAt(e, k, 1) == ValueAt(e, k, 0);
    }
    assert Row(1, DOC) in ROWS;
  }

  const WAITING := Lane(true, None, Some(1), true, [0], false, NotStarting, 0, [])

  /** ... and the stream passed the low watermark ... */
  lemma LowStreamed(ch: Change) returns (s: Sys)
    ensures Reachable(OneWindow(ch), s)
    ensures s == At({0}, Chunk("t", true, {}, ROWS, 1, Some(1), 0, false, 0), 3,
                    Stream(true, false, false, 1, [Unit(0, [])], false, 0, 0, map[]), WAITING, FULL)
  {
    hide Reachable, Exec, Surviving;
    s := HighWritten(ch);
    s := OneMore(OneWindow(ch), s, Handle);
  }

  /** ... the change ... */
  lemma ChangeStreamed(ch: Change) returns (s: Sys)
    ensures Reachable(OneWindow(ch), s)
    ensures s == At({0}, Chunk("t", true, SeenAt("t", Changed("t", ch)), ROWS, 1, Some(1), 0, false, 0), 3,
                    Stream(true, false, false, 2, [Unit(0, []), Unit(1, [])], false, 0, 0, map[]), WAITING, FULL)
  {
    hide Reachable, Exec, Surviving;
    s := LowStreamed(ch);
    s := OneMore(OneWindow(ch), s, Handle);
    assert s.co.chunks.Keys == {0};
    assert s.co.chunks[0].seen == SeenAt("t", Changed("t", ch));
    assert s.co.chunks == map[0 := s.co.chunks[0]];
  }

  /** ... and the high watermark. */
  lemma AllStreamed(ch: Change) returns (s: Sys)
    ensures var seen := SeenAt("t", Changed("t", ch)); var rows := Surviving(ROWS, seen);
            && Reachable(OneWindow(ch), s)
            && s == At({0}, Chunk("t", false, seen, [], 1, Some(1), |rows|, false, 0), 3,
                       Stream(true, false, false, 3, [Unit(0, []), Unit(1, []), Unit(2, rows)], false, 0, 0, map[]),
                       WAITING, FULL)
                    .(released := if rows == [] then [] else [0])
  {
    hide Reachable, Exec, Surviving, SeenAt;
    s := ChangeStreamed(ch);
    s := OneMore(OneWindow(ch), s, Handle);
  }

  /** Delivering them finishes the table, with this in the sink. */
  lemma OneWindowEnds(ch: Change) returns (s: Sys)
    ensures Reachable(OneWindow(ch), s) && s.saved.done && s.st.reach == s.st.horizon == s.written == 3
    ensures s.st.sink == ApplyRows(ApplyChange(map[], ch), Surviving(ROWS, SeenAt("t", Changed("t", ch))))
  {
    hide Reachable, Exec, Surviving, ApplyChange;
    var e := OneWindow(ch);
    s := AllStreamed(ch);
    s := OneMore(e, s, Deliver);
    s := OneMore(e, s, Deliver);
    s := OneMore(e, s, Deliver);
    s := OneMore(e, s, HeadDone(true));
  }

  /** The run converges when the change carries a whole row under its own key. */
  lemma OneWindowConverges() returns (e: Env, s: Sys)
    ensures Tame(e, s.past) && e.size > 0 && Reachable(e, s) && s.saved.done && s.st.reach == s.written == |e.wal|
    ensures s.st.sink == map[1 := DOC, 2 := DOC]
  {
    var ch := Put(2, DOC);
    e := OneWindow(ch);
    s := OneWindowEnds(ch);
    assert Surviving(ROWS, {2}) == ROWS;
    hide Reachable, Exec;
  }

  /** The sink's contents at the end of the run, against the source's. */
  ghost predicate Diverged(e: Env, s: Sys, k: Key) {
    && Reachable(e, s) && s.saved.done && s.st.reach == s.st.horizon == s.written == |e.wal|
    && SinkAt(s.st.sink, k) != ValueAt(e, k, s.written)
  }

  lemma EndValue(ch: Change, k: Key)
    ensures ValueAt(OneWindow(ch), k, 3) == Effect(if k == 1 then Some(DOC) else None, ch, k)
  {
    var e := OneWindow(ch);
    assert ValueAt(e, k, 1) == ValueAt(e, k, 0);
    assert ValueAt(e, k, 2) == Effect(ValueAt(e, k, 1), ch, k);
  }

  /** An update that changes the primary key is seen under its new key only. */
  lemma RekeyDiverges() returns (e: Env, s: Sys)
    ensures e.size > 0 && Diverged(e, s, 1)
  {
    hide Reachable, Exec, ValueAt;
    var ch := Rekey(1, 2, DOC);
    e := OneWindow(ch);
    s := OneWindowEnds(ch);
    EndValue(ch, 1);
    assert Surviving(ROWS, {2}) == ROWS;
    assert ApplyRows(ApplyChange(map[], ch), ROWS) == ApplyChange(map[], ch)[1 := DOC];
  }

  /** A truncate between the watermarks is not seen at all. */
  lemma TruncateDiverges() returns (e: Env, s: Sys)
    ensures e.size > 0 && Diverged(e, s, 1)
  {
    hide Reachable, Exec, ValueAt;
    e := OneWindow(Truncate);
    s := OneWindowEnds(Truncate);
    EndValue(Truncate, 1);
    assert Surviving(ROWS, {}) == ROWS;
    assert ApplyRows(map[], ROWS) == map[1 := DOC];
  }

  /** Nor is a delete that does not carry the primary key. */
  lemma KeylessDeleteDiverges() returns (e: Env, s: Sys)
    ensures e.size > 0 && Diverged(e, s, 1)
  {
    hide Reachable, Exec, ValueAt;
    e := OneWindow(DelUnkeyed(1));
    s := OneWindowEnds(DelUnkeyed(1));
    EndValue(DelUnkeyed(1), 1);
    assert Surviving(ROWS, {}) == ROWS;
    assert ApplyRows(map[], ROWS) == map[1 := DOC];
  }

  /** A partial row suppresses the selected one and leaves its other columns missing. */
  lemma PatchDiverges() returns (e: Env, s: Sys)
    ensures e.size > 0 && Diverged(e, s, 1)
  {
    hide Reachable, Exec, ValueAt;
    var ch := Patch(1, map["b" := "2"]);
    e := OneWindow(ch);
    s := OneWindowEnds(ch);
    EndValue(ch, 1);
    assert Surviving(ROWS, {1}) == [];
    assert s.st.sink == map[1 := map["b" := "2"]];
    assert "a" in DOC + map["b" := "2"];
    assert "a" !in s.st.sink[1];
  }

  /** An empty last chunk is finished by its select, before the stream gets there: marked done, with
      the sink not yet what the source held at the delivered position. */
  lemma EmptyChunkIsEarly() returns (e: Env, s: Sys)
    ensures Tame(e, s.past) && e.size > 0 && Reachable(e, s) && s.saved.done && s.st.reach < s.st.horizon <= |e.wal|
    ensures SinkAt(s.st.sink, 1) != ValueAt(e, 1, s.st.reach)
  {
    e, s := Horizon.ShortOfHorizon(0, 2);
  }
}
