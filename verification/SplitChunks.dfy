/**
  What a watermark report without its rows does to a backfill: the reader's teardown race against the
  coordinator and the sink.
*/
module SplitChunks {
  import opened Prelude
  import opened Coordinator
  import Reader

  /** The delivery goroutine's work as coordinator and sink see it: rows reach the sink, and a report
      finishes its chunk. */
  function Played(items: seq<Reader.Item>, rows: seq<Row>, c: Coord, sink: map<Key, Doc>): (Coord, map<Key, Doc>) {
    if items == [] then (c, sink)
    else
      var (c1, sink1) := Played(items[..|items| - 1], rows, c, sink);
      match items[|items| - 1]
      case Row(_, i) => (c1, if i < |rows| then sink1[rows[i].key := rows[i].doc] else sink1)
      case Mark(chunk, _, _) => (Reported(c1, chunk, true), sink1)
      case Live(_) => (c1, sink1)
  }

  lemma {:induction false} AllSurvive(rows: seq<Row>)
    ensures Surviving(rows, {}) == rows
  {
    if rows == [] {
    } else {
      AllSurvive(rows[1..]);
    }
  }

  /** For every batch limit smaller than a chunk: a chunk of one row more, all of whose rows are
      released, ends up finished although its first row never reached the sink; and its watermark,
      streamed again after a reconnect, releases nothing. */
  lemma DroppedRowStaysMissing(cfg: Reader.Config, c: Coord, rows: seq<Row>) returns (st: Reader.State)
    requires 1 <= cfg.maxBatch < cfg.chunkRows && |rows| == cfg.maxBatch + 1
    requires forall i, j :: 0 <= i < j < |rows| ==> rows[i].key != rows[j].key
    requires Known(c, 0) && c.chunks[0].pending == rows && c.chunks[0].seen == {}
    ensures ReleasedAt(c, 0, true) == rows && Reader.Reachable(cfg, st) && st.session.Some?
    ensures var (c', sink) := Played(st.session.value.handled, rows, Marked(c, 0, true), map[]);
            && 0 in c'.chunks && c'.chunks[0].done && c'.chunks[0].delivered == |rows|
            && rows[0].key !in sink && ReleasedAt(c', 0, true) == []
  {
    AllSurvive(rows);
    hide Reader.Reachable, Surviving;
    st := Reader.SplitChunkLosesRows(cfg);
    var items := st.session.value.handled;
    assert items[..1] == [Reader.Row(0, cfg.maxBatch)] && items[..1][..0] == [];
    var c1 := Marked(c, 0, true);
    assert Played([], rows, c1, map[]) == (c1, map[]);
    assert Played(items[..1], rows, c1, map[]) == (c1, map[rows[cfg.maxBatch].key := rows[cfg.maxBatch].doc]);
    assert rows[0].key != rows[cfg.maxBatch].key;
  }
}
