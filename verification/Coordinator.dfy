/**
  The backfill coordinator's state and the operations on it that run under its mutex.

  A table's primary keys are represented by their rank in the primary-key order, so `Key` is an
  integer. Chunks are records in a map, addressed by id from the in-flight set and from the lanes'
  windows alike. The restart channel a chunk waits on is identified by its number: channel `n` is
  closed once the coordinator has moved on to a later one.
*/
module Coordinator {
  import opened Prelude

  type Key = int
  type Doc = map<string, string>

  datatype Row = Row(key: Key, doc: Doc)

  datatype Chunk = Chunk(
    table: string,
    collecting: bool,
    seen: set<Key>,       // keys observed live after the low watermark
    pending: seq<Row>,    // selected rows not released yet
    rowCount: nat,        // rows selected
    last: Option<Key>,    // cursor after this chunk
    delivered: nat,       // rows released at the high watermark
    done: bool,           // the done channel is closed
    restart: nat)         // the restart channel captured at registration

  datatype Coord = Coord(
    chunks: map<nat, Chunk>,
    inflight: set<nat>,
    streaming: bool,
    epoch: nat,           // the current restart channel
    nextId: nat)

  // ---------------------------------------------------------------- what the operations compute

  predicate Collects(c: Coord, id: nat, table: string) {
    id in c.inflight && id in c.chunks && c.chunks[id].collecting && c.chunks[id].table == table
  }

  /** A live event with key `key` was seen: every chunk collecting for its table notes the key. */
  function Observed(c: Coord, table: string, key: Option<Key>): Coord {
    if key.None? then c
    else c.(chunks := map id | id in c.chunks ::
                        if Collects(c, id, table) then c.chunks[id].(seen := c.chunks[id].seen + {key.value})
                        else c.chunks[id])
  }

  /** The selected rows no live event superseded, in order. */
  function Surviving(rows: seq<Row>, seen: set<Key>): seq<Row> {
    if rows == [] then []
    else if rows[0].key in seen then Surviving(rows[1..], seen)
    else [rows[0]] + Surviving(rows[1..], seen)
  }

  predicate Known(c: Coord, id: nat) { id in c.inflight && id in c.chunks }

  /** The rows a watermark of our slot releases. */
  function ReleasedAt(c: Coord, id: nat, high: bool): seq<Row> {
    if Known(c, id) && high then Surviving(c.chunks[id].pending, c.chunks[id].seen) else []
  }

  function Marked(c: Coord, id: nat, high: bool): Coord {
    if !Known(c, id) then c
    else if !high then c.(chunks := c.chunks[id := c.chunks[id].(collecting := true)])
    else c.(chunks := c.chunks[id := c.chunks[id].(collecting := false, pending := [],
                                                   delivered := |ReleasedAt(c, id, high)|)])
  }

  /** A high watermark's rows were handled: its chunk is finished. */
  function Reported(c: Coord, id: nat, high: bool): Coord {
    if high && Known(c, id) then
      c.(chunks := c.chunks[id := c.chunks[id].(done := true)], inflight := c.inflight - {id})
    else c
  }

  /** Abandon every in-flight chunk and open a new restart channel. */
  function Restarted(c: Coord): Coord {
    if c.inflight == {} then c else c.(inflight := {}, epoch := c.epoch + 1)
  }

  function Started(c: Coord): Coord { Restarted(c.(streaming := true)) }

  function Stopped(c: Coord): Coord { Restarted(c.(streaming := false)) }

  /** startChunk's first locked section: a fresh chunk waits on the current restart channel. */
  function Registered(c: Coord, table: string): Coord {
    c.(chunks := c.chunks[c.nextId := Chunk(table, false, {}, [], 0, None, 0, false, c.epoch)],
       inflight := c.inflight + {c.nextId}, nextId := c.nextId + 1)
  }

  /** startChunk's second locked section: the selected rows; an empty chunk is finished at once. */
  function Selected(c: Coord, id: nat, rows: seq<Row>): Coord
    requires id in c.chunks
  {
    var ch := c.chunks[id].(pending := rows, rowCount := |rows|,
                            last := if rows == [] then None else Some(rows[|rows| - 1].key),
                            done := c.chunks[id].done || rows == []);
    c.(chunks := c.chunks[id := ch], inflight := if rows == [] then c.inflight - {id} else c.inflight)
  }

  function Abandoned(c: Coord, ids: set<nat>): Coord { c.(inflight := c.inflight - ids) }

  // ---------------------------------------------------------------- facts about them

  /** Surviving rows are exactly the selected rows whose key was not seen ... */
  lemma {:induction false} SurvivingIff(rows: seq<Row>, seen: set<Key>, r: Row)
    ensures r in Surviving(rows, seen) <==> r in rows && r.key !in seen
  {
    if rows == [] {
    } else {
      SurvivingIff(rows[1..], seen, r);
    }
  }

  /** ... in their selected order, none twice. */
  lemma {:induction false} SurvivingOrdered(rows: seq<Row>, seen: set<Key>)
    requires forall i, j :: 0 <= i < j < |rows| ==> rows[i].key < rows[j].key
    ensures var s := Surviving(rows, seen);
            |s| <= |rows| && forall i, j :: 0 <= i < j < |s| ==> s[i].key < s[j].key
  {
    if rows == [] {
    } else {
      SurvivingOrdered(rows[1..], seen);
      var s := Surviving(rows[1..], seen);
      forall i | 0 <= i < |s| ensures rows[0].key < s[i].key {
        SurvivingIff(rows[1..], seen, s[i]);
        assert s[i] in rows[1..];
      }
    }
  }

  // ---------------------------------------------------------------- the coordinator object

  class Backfill {
    var chunks: map<nat, Chunk>
    var inflight: set<nat>
    var streaming: bool
    var epoch: nat
    var nextId: nat

    function View(): Coord
      reads this
    {
      Coord(chunks, inflight, streaming, epoch, nextId)
    }

    constructor ()
      ensures View() == Coord(map[], {}, false, 0, 0)
    {
      chunks, inflight, streaming, epoch, nextId := map[], {}, false, 0, 0;
    }

    /** `key` is the primary key read from the event's data, None when the data does not hold it. */
    method ObserveEvent(table: string, key: Option<Key>)
      requires inflight <= chunks.Keys
      modifies this
      ensures View() == Observed(old(View()), table, key)
    {
      if inflight == {} || key.None? {
        assert View().chunks == Observed(View(), table, key).chunks;
        return;
      }
      var rest := inflight;
      while rest != {}
        invariant rest <= inflight == old(inflight) && inflight <= chunks.Keys == old(chunks.Keys)
        invariant streaming == old(streaming) && epoch == old(epoch) && nextId == old(nextId)
        invariant forall id | id in chunks ::
          chunks[id] == if id in rest then old(chunks)[id] else Observed(old(View()), table, key).chunks[id]
        decreases rest
      {
        var id :| id in rest;
        var ch := chunks[id];
        if ch.collecting && ch.table == table {
          chunks := chunks[id := ch.(seen := ch.seen + {key.value})];
        }
        rest := rest - {id};
      }
      assert chunks == Observed(old(View()), table, key).chunks;
    }

    /** `ours` tells whether the watermark names this slot. */
    method HandleWatermark(ours: bool, id: nat, high: bool) returns (events: seq<Row>)
      requires inflight <= chunks.Keys
      modifies this
      ensures events == if ours then ReleasedAt(old(View()), id, high) else []
      ensures View() == if ours then Marked(old(View()), id, high) else old(View())
    {
      events := [];
      if !ours || id !in inflight {
        return;
      }
      var ch := chunks[id];
      if !high {
        chunks := chunks[id := ch.(collecting := true)];
        return;
      }
      var i := 0;
      while i < |ch.pending|
        invariant 0 <= i <= |ch.pending|
        invariant events + Surviving(ch.pending[i..], ch.seen) == Surviving(ch.pending, ch.seen)
      {
        assert ch.pending[i..][0] == ch.pending[i] && ch.pending[i..][1..] == ch.pending[i + 1..];
        if ch.pending[i].key !in ch.seen {
          events := events + [ch.pending[i]];
        }
        i := i + 1;
      }
      chunks := chunks[id := ch.(collecting := false, delivered := |events|, pending := [])];
    }

    method WatermarkDelivered(id: nat, high: bool)
      requires inflight <= chunks.Keys
      modifies this
      ensures View() == Reported(old(View()), id, high)
    {
      if high && id in inflight {
        inflight := inflight - {id};
        chunks := chunks[id := chunks[id].(done := true)];
      }
    }

    method OnStreamStart()
      modifies this
      ensures View() == Started(old(View()))
    {
      streaming := true;
      if inflight != {} { Restart(); }
    }

    method OnStreamStop()
      modifies this
      ensures View() == Stopped(old(View()))
    {
      streaming := false;
      if inflight != {} { Restart(); }
    }

    method Restart()
      modifies this
      ensures View() == old(View()).(inflight := {}, epoch := old(epoch) + 1)
    {
      inflight := {};
      epoch := epoch + 1;
    }

    method Register(table: string) returns (id: nat)
      modifies this
      ensures id == old(nextId) && View() == Registered(old(View()), table)
    {
      id := nextId;
      nextId := nextId + 1;
      chunks := chunks[id := Chunk(table, false, {}, [], 0, None, 0, false, epoch)];
      inflight := inflight + {id};
    }

    method Select(id: nat, rows: seq<Row>)
      requires id in chunks
      modifies this
      ensures View() == Selected(old(View()), id, rows)
    {
      var ch := chunks[id].(pending := rows, rowCount := |rows|,
                            last := if rows == [] then None else Some(rows[|rows| - 1].key));
      if rows == [] {
        inflight := inflight - {id};
        ch := ch.(done := true);
      }
      chunks := chunks[id := ch];
    }

    method Abandon(ids: seq<nat>)
      modifies this
      ensures View() == Abandoned(old(View()), set id | id in ids)
    {
      var i := 0;
      while i < |ids|
        invariant 0 <= i <= |ids|
        invariant View() == Abandoned(old(View()), set id | id in ids[..i])
      {
        inflight := inflight - {ids[i]};
        i := i + 1;
      }
      assert ids[..|ids|] == ids;
    }
  }
}
