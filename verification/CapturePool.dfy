/**
 Record and replay of prefetch pools: legs are recorded as ids and a chunk table, one leg is
 turned into rows with ranks, and the replay rebuilds the legs from the ranks.
 */
module CapturePool {
  import opened Prelude
  import opened Sorting

  // ---------------------------------------------------------------- recording

  datatype Field = Missing | Text(text: string) | NotText

  datatype Payload = Payload(docId: string, pageLabel: string, chunkType: Field, pageStart: Option<int>)

  datatype Point = Point(id: string, payload: Payload)

  datatype Leg = Leg(dense: seq<Point>, sparse: seq<Point>)

  datatype Score = Finite(value: real) | NotFinite | NotANumber

  datatype Chunk = Chunk(docId: string, page: string, chunkType: string, pageStart: Option<int>)

  datatype LegIds = LegIds(dense: seq<string>, sparse: seq<string>)

  datatype Record = Record(query: string, legs: seq<LegIds>, chunks: map<string, Chunk>, ce: map<string, real>)

  function Ids(points: seq<Point>): (ids: seq<string>)
    ensures |ids| == |points|
    ensures forall i :: 0 <= i < |ids| ==> ids[i] == points[i].id
  {
    Map((p: Point) => p.id, points)
  }

  function ChunkOf(p: Payload): Result<Chunk, ()> {
    if p.chunkType.NotText? then Err(())
    else Ok(Chunk(
      p.docId, p.pageLabel, if p.chunkType.Missing? then "narrative" else p.chunkType.text,
      if p.pageStart.Some? && p.pageStart.value >= 0 then p.pageStart else None))
  }

  /** The recorded points in the order the loops meet them: per leg, dense then sparse. */
  function PointsOf(legs: seq<Leg>): seq<Point> {
    if legs == [] then [] else legs[0].dense + (legs[0].sparse + PointsOf(legs[1..]))
  }

  /** The chunk table after more points: the first point seen with an id decides its chunk. */
  function AddedTo(table: Result<map<string, Chunk>, ()>, points: seq<Point>): Result<map<string, Chunk>, ()>
    decreases |points|
  {
    if points == [] then table else AddedTo(Extend(table, points[0]), points[1..])
  }

  function Extend(table: Result<map<string, Chunk>, ()>, point: Point): Result<map<string, Chunk>, ()> {
    if table.Err? || point.id in table.value then table
    else if ChunkOf(point.payload).Err? then Err(())
    else Ok(table.value[point.id := ChunkOf(point.payload).value])
  }

  function ChunkTable(legs: seq<Leg>): Result<map<string, Chunk>, ()> {
    AddedTo(Ok(map[]), PointsOf(legs))
  }

  lemma {:induction false} AddedConcat(table: Result<map<string, Chunk>, ()>, a: seq<Point>, b: seq<Point>)
    ensures AddedTo(table, a + b) == AddedTo(AddedTo(table, a), b)
    decreases |a|
  {
    if a == [] {
      assert a + b == b;
    } else {
      assert (a + b)[1..] == a[1..] + b;
      AddedConcat(Extend(table, a[0]), a[1..], b);
    }
  }

  lemma {:induction false} ErrStays(table: Result<map<string, Chunk>, ()>, points: seq<Point>)
    requires table.Err?
    ensures AddedTo(table, points) == table
  {
    if points != [] {
      ErrStays(table, points[1..]);
    }
  }

  predicate AllFinite(scores: map<string, Score>) {
    forall id :: id in scores ==> scores[id].Finite?
  }

  function Values(scores: map<string, Score>): map<string, real>
    requires AllFinite(scores)
  {
    map id | id in scores :: scores[id].value
  }

  function LegRows(legs: seq<Leg>): (rows: seq<LegIds>)
    ensures |rows| == |legs|
    ensures forall i :: 0 <= i < |rows| ==> rows[i] == LegIds(Ids(legs[i].dense), Ids(legs[i].sparse))
  {
    seq(|legs|, i requires 0 <= i < |legs| => LegIds(Ids(legs[i].dense), Ids(legs[i].sparse)))
  }

  function RecordOf(query: string, legs: seq<Leg>, scores: map<string, Score>): Result<Record, ()> {
    if query == "" || legs == [] || ChunkTable(legs).Err? || !AllFinite(scores) then Err(())
    else Ok(Record(query, LegRows(legs), ChunkTable(legs).value, Values(scores)))
  }

  method AddChunks(chunks0: map<string, Chunk>, points: seq<Point>) returns (chunks: Result<map<string, Chunk>, ()>)
    ensures chunks == AddedTo(Ok(chunks0), points)
  {
    var table := chunks0;
    for i := 0 to |points|
      invariant AddedTo(Ok(chunks0), points) == AddedTo(Ok(table), points[i..])
    {
      assert points[i..][1..] == points[i + 1..];
      if points[i].id !in table {
        var chunk := ChunkOf(points[i].payload);
        if chunk.Err? {
          ErrStays(Err(()), points[i + 1..]);
          return Err(());
        }
        table := table[points[i].id := chunk.value];
      }
    }
    chunks := Ok(table);
  }

  method AddLeg(chunks: map<string, Chunk>, leg: Leg) returns (r: Result<map<string, Chunk>, ()>)
    ensures r == AddedTo(AddedTo(Ok(chunks), leg.dense), leg.sparse)
  {
    var dense := AddChunks(chunks, leg.dense);
    if dense.Err? {
      ErrStays(dense, leg.sparse);
      return dense;
    }
    r := AddChunks(dense.value, leg.sparse);
  }

  method LegsToRecord(query: string, legs: seq<Leg>, scores: map<string, Score>) returns (r: Result<Record, ()>)
    ensures r == RecordOf(query, legs, scores)
  {
    if query == "" || legs == [] {
      return Err(());
    }
    var chunks: map<string, Chunk> := map[];
    var rows: seq<LegIds> := [];
    for pos := 0 to |legs|
      invariant ChunkTable(legs) == AddedTo(Ok(chunks), PointsOf(legs[pos..]))
      invariant rows == LegRows(legs[..pos])
    {
      LegStep(Ok(chunks), legs[pos..]);
      RowsStep(legs, pos);
      var added := AddLeg(chunks, legs[pos]);
      if added.Err? {
        return Err(());
      }
      chunks := added.value;
      rows := rows + [LegIds(Ids(legs[pos].dense), Ids(legs[pos].sparse))];
    }
    assert legs[..|legs|] == legs;
    if !AllFinite(scores) {
      return Err(());
    }
    r := Ok(Record(query, rows, chunks, Values(scores)));
  }

  lemma RowsStep(legs: seq<Leg>, pos: nat)
    requires pos < |legs|
    ensures LegRows(legs[..pos + 1]) == LegRows(legs[..pos]) + [LegIds(Ids(legs[pos].dense), Ids(legs[pos].sparse))]
    ensures legs[pos..][1..] == legs[pos + 1..]
  {
  }

  lemma LegStep(table: Result<map<string, Chunk>, ()>, legs: seq<Leg>)
    requires legs != []
    ensures var both := AddedTo(AddedTo(table, legs[0].dense), legs[0].sparse);
      && AddedTo(table, PointsOf(legs)) == AddedTo(both, PointsOf(legs[1..]))
      && (both.Err? ==> AddedTo(table, PointsOf(legs)).Err?)
  {
    var dense := AddedTo(table, legs[0].dense);
    var both := AddedTo(dense, legs[0].sparse);
    AddedConcat(table, legs[0].dense, legs[0].sparse + PointsOf(legs[1..]));
    AddedConcat(dense, legs[0].sparse, PointsOf(legs[1..]));
    if both.Err? {
      ErrStays(both, PointsOf(legs[1..]));
    }
  }

  /** The recorded table covers every point, and each id has the chunk of the first point that named it. */
  lemma {:induction false} TableIsFirstSeen(table: map<string, Chunk>, points: seq<Point>)
    requires AddedTo(Ok(table), points).Ok?
    ensures var result := AddedTo(Ok(table), points).value;
      && (forall id :: id in table ==> id in result && result[id] == table[id])
      && (forall k :: 0 <= k < |points| ==> points[k].id in result)
      && (forall k :: 0 <= k < |points| && points[k].id !in table
                      && (forall j :: 0 <= j < k ==> points[j].id != points[k].id) ==>
            ChunkOf(points[k].payload) == Ok(result[points[k].id]))
    decreases |points|
  {
    if points != [] {
      var next := Extend(Ok(table), points[0]);
      if next.Err? {
        ErrStays(next, points[1..]);
      }
      TableIsFirstSeen(next.value, points[1..]);
      var result := AddedTo(Ok(table), points).value;
      forall k | 0 <= k < |points|
        ensures points[k].id in result
        ensures points[k].id !in table && (forall j :: 0 <= j < k ==> points[j].id != points[k].id) ==>
                  ChunkOf(points[k].payload) == Ok(result[points[k].id])
      {
        if k > 0 {
          assert points[1..][k - 1] == points[k];
          if forall j :: 0 <= j < k ==> points[j].id != points[k].id {
            assert points[0].id != points[k].id;
            assert forall j :: 0 <= j < k - 1 ==> points[1..][j] == points[j + 1];
          }
        }
      }
    }
  }

  // ---------------------------------------------------------------- rows

  datatype Row = Row(
    id: string, docId: string, page: string, chunkType: string, pageStart: Option<int>,
    denseRank: Option<int>, sparseRank: Option<int>, ce: Option<Score>, heading: Option<string>)

  /** `{cid: rank for rank, cid in enumerate(ids)}`: a repeated id keeps its last rank. */
  function Ranks(ids: seq<string>): map<string, nat> {
    if ids == [] then map[] else Ranks(ids[..|ids| - 1])[ids[|ids| - 1] := |ids| - 1]
  }

  function NotIn(ids: seq<string>, ranks: map<string, nat>): seq<string> {
    if ids == [] then [] else (if ids[0] in ranks then [] else [ids[0]]) + NotIn(ids[1..], ranks)
  }

  /** What `record_to_rows` lists: the dense ids, then the sparse ids that are not dense. */
  function Listed(dense: seq<string>, sparse: seq<string>): seq<string> {
    dense + NotIn(sparse, Ranks(dense))
  }

  function OrElse(text: string, default: string): string {
    if text == "" then default else text
  }

  function RankFor(ranks: map<string, nat>, id: string): Option<int> {
    if id in ranks then Some(ranks[id]) else None
  }

  function RowOf(record: Record, id: string, dense: map<string, nat>, sparse: map<string, nat>,
                 headings: Option<map<string, string>>): Row
    requires id in record.chunks && HeadingFor(headings, id)
  {
    var info := record.chunks[id];
    Row(id, OrElse(info.docId, id), OrElse(info.page, "1"), OrElse(info.chunkType, "narrative"), info.pageStart,
        RankFor(dense, id), RankFor(sparse, id), if id in record.ce then Some(Finite(record.ce[id])) else None,
        if headings.Some? then Some(headings.value[id]) else None)
  }

  function Trim(ids: seq<string>, maxRank: Option<int>): seq<string>
    requires maxRank.Some? ==> maxRank.value >= 0
  {
    if maxRank.Some? && maxRank.value < |ids| then ids[..maxRank.value] else ids
  }

  predicate HeadingFor(headings: Option<map<string, string>>, id: string) {
    headings.None? || id in headings.value
  }

  /** `record_to_rows`. */
  method RecordToRows(record: Record, leg: int, maxRank: Option<int>, headings: Option<map<string, string>>)
    returns (r: Result<seq<Row>, ()>)
    ensures r.Ok? <==> RowsExist(record, leg, maxRank, headings)
    ensures r.Ok? ==> r.value == RowsOf(record, leg, maxRank, headings)
  {
    if leg < 0 || leg >= |record.legs| || (maxRank.Some? && maxRank.value < 1) {
      return Err(());
    }
    var denseIds, sparseIds := Trim(record.legs[leg].dense, maxRank), Trim(record.legs[leg].sparse, maxRank);
    var dense, sparse := Ranks(denseIds), Ranks(sparseIds);
    r := RowsInOrder(record, denseIds + NotIn(sparseIds, dense), dense, sparse, headings);
  }

  /** Its loop over the ids. */
  method RowsInOrder(
    record: Record, order: seq<string>, dense: map<string, nat>, sparse: map<string, nat>, headings: Option<map<string, string>>)
    returns (r: Result<seq<Row>, ()>)
    ensures r.Ok? <==> forall id :: id in order ==> id in record.chunks && HeadingFor(headings, id)
    ensures r.Ok? ==> |r.value| == |order| && forall k :: 0 <= k < |order| ==> r.value[k] == RowOf(record, order[k], dense, sparse, headings)
  {
    var rows: seq<Row> := [];
    for i := 0 to |order|
      invariant |rows| == i
      invariant forall k :: 0 <= k < i ==> order[k] in record.chunks && HeadingFor(headings, order[k])
      invariant forall k :: 0 <= k < i ==> rows[k] == RowOf(record, order[k], dense, sparse, headings)
    {
      if order[i] !in record.chunks || !HeadingFor(headings, order[i]) {
        return Err(());
      }
      rows := rows + [RowOf(record, order[i], dense, sparse, headings)];
    }
    r := Ok(rows);
  }

  function OrderOf(record: Record, leg: nat, maxRank: Option<int>): seq<string>
    requires leg < |record.legs| && (maxRank.Some? ==> maxRank.value >= 0)
  {
    Listed(Trim(record.legs[leg].dense, maxRank), Trim(record.legs[leg].sparse, maxRank))
  }

  predicate RowsExist(record: Record, leg: int, maxRank: Option<int>, headings: Option<map<string, string>>) {
    && 0 <= leg < |record.legs| && (maxRank.Some? ==> maxRank.value >= 1)
    && forall id :: id in OrderOf(record, leg, maxRank) ==> id in record.chunks && HeadingFor(headings, id)
  }

  function RowsOf(record: Record, leg: int, maxRank: Option<int>, headings: Option<map<string, string>>): (rows: seq<Row>)
    requires RowsExist(record, leg, maxRank, headings)
    ensures |rows| == |OrderOf(record, leg, maxRank)|
    ensures forall k :: 0 <= k < |rows| ==> rows[k].id == OrderOf(record, leg, maxRank)[k]
  {
    var order := OrderOf(record, leg, maxRank);
    var dense, sparse := Ranks(Trim(record.legs[leg].dense, maxRank)), Ranks(Trim(record.legs[leg].sparse, maxRank));
    seq(|order|, k requires 0 <= k < |order| => RowOf(record, order[k], dense, sparse, headings))
  }

  // ---------------------------------------------------------------- replay

  datatype Replayed = Replayed(dense: seq<ReplayPoint>, sparse: seq<ReplayPoint>, ce: map<string, Option<real>>)

  datatype ReplayPoint = ReplayPoint(
    id: string, docId: string, page: string, chunkType: string, heading: string, pageStart: Option<int>)

  datatype Side = Dense | Sparse

  datatype Entry = Entry(rank: int, point: ReplayPoint)

  predicate EntryLe(a: Entry, b: Entry) {
    a.rank <= b.rank
  }

  function RankOn(row: Row, side: Side): Option<int> {
    if side.Dense? then row.denseRank else row.sparseRank
  }

  predicate NonNegative(n: Option<int>) {
    n.Some? ==> n.value >= 0
  }

  /** The checks on one row alone. */
  predicate RowOk(row: Row) {
    && row.id != "" && NonNegative(row.denseRank) && NonNegative(row.sparseRank)
    && (row.denseRank.Some? || row.sparseRank.Some?)
    && (row.ce.Some? ==> row.ce.value.Finite?)
    && row.docId != "" && row.page != "" && NonNegative(row.pageStart)
  }

  function PointFrom(row: Row): ReplayPoint {
    ReplayPoint(row.id, row.docId, row.page, row.chunkType,
                if row.heading.Some? then row.heading.value else "Replay > " + row.id, row.pageStart)
  }

  function Ranked(rows: seq<Row>, side: Side): seq<Entry> {
    if rows == [] then []
    else
      var last := rows[|rows| - 1];
      Ranked(rows[..|rows| - 1], side)
        + if RankOn(last, side).Some? then [Entry(RankOn(last, side).value, PointFrom(last))] else []
  }

  function CeValue(row: Row): Option<real> {
    if row.ce.Some? && row.ce.value.Finite? then Some(row.ce.value.value) else None
  }

  function CeOf(rows: seq<Row>): map<string, Option<real>> {
    if rows == [] then map[] else CeOf(rows[..|rows| - 1])[rows[|rows| - 1].id := CeValue(rows[|rows| - 1])]
  }

  function RowIds(rows: seq<Row>): (ids: seq<string>)
    ensures |ids| == |rows|
    ensures forall i :: 0 <= i < |ids| ==> ids[i] == rows[i].id
  {
    Map((row: Row) => row.id, rows)
  }

  function RankList(entries: seq<Entry>): (ranks: seq<int>)
    ensures |ranks| == |entries|
    ensures forall i :: 0 <= i < |ranks| ==> ranks[i] == entries[i].rank
  {
    Map((e: Entry) => e.rank, entries)
  }

  function PointList(entries: seq<Entry>): (points: seq<ReplayPoint>)
    ensures |points| == |entries|
    ensures forall i :: 0 <= i < |points| ==> points[i] == entries[i].point
  {
    Map((e: Entry) => e.point, entries)
  }

  ghost predicate ReplayOk(rows: seq<Row>) {
    && (forall i :: 0 <= i < |rows| ==> RowOk(rows[i]))
    && NoDuplicates(RowIds(rows))
    && NoDuplicates(RankList(Ranked(rows, Dense)))
    && NoDuplicates(RankList(Ranked(rows, Sparse)))
  }

  function ReplayOf(rows: seq<Row>): Replayed {
    Replayed(PointList(Sort(EntryLe, Ranked(rows, Dense))), PointList(Sort(EntryLe, Ranked(rows, Sparse))), CeOf(rows))
  }

  lemma ReplayOkStep(rows: seq<Row>, row: Row)
    ensures ReplayOk(rows + [row]) <==>
              && ReplayOk(rows) && RowOk(row) && row.id !in RowIds(rows)
              && (row.denseRank.Some? ==> row.denseRank.value !in RankList(Ranked(rows, Dense)))
              && (row.sparseRank.Some? ==> row.sparseRank.value !in RankList(Ranked(rows, Sparse)))
  {
    var longer := rows + [row];
    assert longer[..|longer| - 1] == rows;
    assert RowIds(longer) == RowIds(rows) + [row.id];
    NoDuplicatesSnoc(RowIds(rows), row.id);
    RankStep(rows, row, Dense);
    RankStep(rows, row, Sparse);
    assert longer[|rows|] == row && forall i :: 0 <= i < |rows| ==> longer[i] == rows[i];
  }

  lemma RankStep(rows: seq<Row>, row: Row, side: Side)
    ensures NoDuplicates(RankList(Ranked(rows + [row], side))) <==>
              && NoDuplicates(RankList(Ranked(rows, side)))
              && (RankOn(row, side).Some? ==> RankOn(row, side).value !in RankList(Ranked(rows, side)))
  {
    var longer := rows + [row];
    assert longer[..|longer| - 1] == rows;
    if RankOn(row, side).Some? {
      assert RankList(Ranked(longer, side)) == RankList(Ranked(rows, side)) + [RankOn(row, side).value];
      NoDuplicatesSnoc(RankList(Ranked(rows, side)), RankOn(row, side).value);
    } else {
      assert Ranked(longer, side) == Ranked(rows, side);
    }
  }

  lemma {:induction false} ReplayOkPrefix(rows: seq<Row>, n: nat)
    requires n <= |rows| && ReplayOk(rows)
    ensures ReplayOk(rows[..n])
    decreases |rows|
  {
    if n == |rows| {
      assert rows[..n] == rows;
    } else {
      var init := rows[..|rows| - 1];
      assert rows == init + [rows[|rows| - 1]];
      ReplayOkStep(init, rows[|rows| - 1]);
      ReplayOkPrefix(init, n);
      assert init[..n] == rows[..n];
    }
  }

  ghost predicate Seen<T(!new)>(seen: set<T>, listed: seq<T>) {
    forall x :: x in seen <==> x in listed
  }

  /** One leg of a row: refuse a rank already taken, else note it. */
  method AddRank(row: Row, side: Side, entries0: seq<Entry>, seen0: set<int>, ghost rows: seq<Row>)
    returns (ok: bool, entries: seq<Entry>, seen: set<int>)
    requires entries0 == Ranked(rows, side) && Seen(seen0, RankList(entries0))
    ensures ok <==> (RankOn(row, side).Some? ==> RankOn(row, side).value !in RankList(entries0))
    ensures ok ==> entries == Ranked(rows + [row], side) && Seen(seen, RankList(entries))
  {
    assert (rows + [row])[..|rows|] == rows;
    ok, entries, seen := true, entries0, seen0;
    var rank := RankOn(row, side);
    if rank.Some? {
      if rank.value in seen {
        ok := false;
      } else {
        entries, seen := entries + [Entry(rank.value, PointFrom(row))], seen + {rank.value};
        assert RankList(entries) == RankList(entries0) + [rank.value];
      }
    }
  }

  lemma CeStep(rows: seq<Row>, row: Row)
    ensures CeOf(rows + [row]) == CeOf(rows)[row.id := CeValue(row)]
    ensures RowIds(rows + [row]) == RowIds(rows) + [row.id]
  {
    assert (rows + [row])[..|rows|] == rows;
  }

  lemma RefusedStays(rows: seq<Row>, n: nat)
    requires n <= |rows| && !ReplayOk(rows[..n])
    ensures !ReplayOk(rows)
  {
    if ReplayOk(rows) {
      ReplayOkPrefix(rows, n);
    }
  }

  /** The loop's variables: what was seen so far, the two legs, and the scores. */
  datatype Pool = Pool(
    ids: set<string>, dense: seq<Entry>, denseSeen: set<int>, sparse: seq<Entry>, sparseSeen: set<int>,
    ce: map<string, Option<real>>)

  ghost predicate Tracks(p: Pool, rows: seq<Row>) {
    && Seen(p.ids, RowIds(rows))
    && p.dense == Ranked(rows, Dense) && Seen(p.denseSeen, RankList(p.dense))
    && p.sparse == Ranked(rows, Sparse) && Seen(p.sparseSeen, RankList(p.sparse))
    && p.ce == CeOf(rows)
  }

  /** One turn of the loop: the row is refused, or its ranks and score are noted. */
  method AddRow(p: Pool, row: Row, ghost rows: seq<Row>) returns (next: Option<Pool>)
    requires Tracks(p, rows) && ReplayOk(rows)
    ensures next.Some? <==> ReplayOk(rows + [row])
    ensures next.Some? ==> Tracks(next.value, rows + [row])
  {
    ReplayOkStep(rows, row);
    CeStep(rows, row);
    if !RowOk(row) || row.id in p.ids {
      return None;
    }
    var denseOk, dense, denseSeen := AddRank(row, Dense, p.dense, p.denseSeen, rows);
    var sparseOk, sparse, sparseSeen := AddRank(row, Sparse, p.sparse, p.sparseSeen, rows);
    if !denseOk || !sparseOk {
      return None;
    }
    next := Some(Pool(p.ids + {row.id}, dense, denseSeen, sparse, sparseSeen, p.ce[row.id := CeValue(row)]));
  }

  /** `replay_pool`: refuse corrupt rows, then order each leg by recorded rank. */
  method ReplayPool(rows: seq<Row>) returns (r: Result<Replayed, ()>)
    ensures r.Ok? <==> ReplayOk(rows)
    ensures r.Ok? ==> r.value == ReplayOf(rows)
  {
    var pool := Pool({}, [], {}, [], {}, map[]);
    for pos := 0 to |rows|
      invariant ReplayOk(rows[..pos]) && Tracks(pool, rows[..pos])
    {
      assert rows[..pos + 1] == rows[..pos] + [rows[pos]];
      var next := AddRow(pool, rows[pos], rows[..pos]);
      if next.None? {
        RefusedStays(rows, pos + 1);
        return Err(());
      }
      pool := next.value;
    }
    assert rows[..|rows|] == rows;
    r := Ok(Replayed(PointList(Sort(EntryLe, pool.dense)), PointList(Sort(EntryLe, pool.sparse)), pool.ce));
  }

  // ---------------------------------------------------------------- replay ignores the order of its rows

  /** The entry a row contributes to a side. */
  predicate Contributes(row: Row, side: Side, e: Entry) {
    RankOn(row, side) == Some(e.rank) && PointFrom(row) == e.point
  }

  lemma {:induction false} RankedElement(rows: seq<Row>, side: Side, e: Entry)
    ensures e in Ranked(rows, side) <==> exists row :: row in rows && Contributes(row, side, e)
  {
    if rows != [] {
      var init, last := rows[..|rows| - 1], rows[|rows| - 1];
      RankedElement(init, side, e);
      assert rows == init + [last];
      assert e in Ranked(rows, side) <==> e in Ranked(init, side) || Contributes(last, side, e);
    }
  }

  lemma {:induction false} RankedElements(rows: seq<Row>, side: Side)
    ensures forall e :: e in Ranked(rows, side) <==>
              exists i :: 0 <= i < |rows| && RankOn(rows[i], side) == Some(e.rank) && PointFrom(rows[i]) == e.point
  {
    forall e
      ensures e in Ranked(rows, side) <==>
                exists i :: 0 <= i < |rows| && RankOn(rows[i], side) == Some(e.rank) && PointFrom(rows[i]) == e.point
    {
      RankedElement(rows, side, e);
      if e in Ranked(rows, side) {
        var row :| row in rows && Contributes(row, side, e);
        var i :| 0 <= i < |rows| && rows[i] == row;
      } else {
        assert forall i :: 0 <= i < |rows| ==> !Contributes(rows[i], side, e);
      }
    }
  }

  lemma EntriesDistinct(entries: seq<Entry>)
    requires NoDuplicates(RankList(entries))
    ensures NoDuplicates(entries) && Separates(EntryLe, entries)
  {
  }

  lemma EntryOrder()
    ensures TotalOrder(EntryLe)
  {
  }

  /** The leg rebuilt from ranks is the one arrangement, by increasing rank, of the ranked rows. */
  lemma RankedSortsTo(rows: seq<Row>, side: Side, target: seq<Entry>)
    requires NoDuplicates(RankList(Ranked(rows, side)))
    requires NoDuplicates(target) && Sorted(EntryLe, target)
    requires forall e :: e in target <==> e in Ranked(rows, side)
    ensures Sort(EntryLe, Ranked(rows, side)) == target
  {
    var entries := Ranked(rows, side);
    EntriesDistinct(entries);
    EntryOrder();
    SameElementsPermute(entries, target);
    SortPermutes(EntryLe, entries);
    SortSorts(EntryLe, entries);
    SortElements(EntryLe, entries);
    SortedUnique(EntryLe, Sort(EntryLe, entries), target);
  }

  lemma {:induction false} CeElements(rows: seq<Row>)
    requires NoDuplicates(RowIds(rows))
    ensures forall id :: id in CeOf(rows) <==> id in RowIds(rows)
    ensures forall i :: 0 <= i < |rows| ==> CeOf(rows)[rows[i].id] == CeValue(rows[i])
  {
    if rows != [] {
      var init, last := rows[..|rows| - 1], rows[|rows| - 1];
      assert rows == init + [last] && RowIds(rows) == RowIds(init) + [last.id];
      NoDuplicatesSnoc(RowIds(init), last.id);
      CeElements(init);
      CeStep(init, last);
      forall i | 0 <= i < |rows|
        ensures CeOf(rows)[rows[i].id] == CeValue(rows[i])
      {
        if i < |init| {
          assert rows[i] == init[i] && RowIds(init)[i] != last.id;
        }
      }
    }
  }

  /** Replay of any arrangement of the same rows accepts or refuses alike and rebuilds the same pool. */
  lemma ReplayIgnoresOrder(rows: seq<Row>, others: seq<Row>)
    requires multiset(rows) == multiset(others)
    ensures ReplayOk(rows) <==> ReplayOk(others)
    ensures ReplayOk(rows) ==> ReplayOf(rows) == ReplayOf(others)
  {
    ReplayOkIsPairwise(rows);
    ReplayOkIsPairwise(others);
    if ReplayOk(rows) {
      AcceptedInAnyOrder(rows, others);
      SameLeg(rows, others, Dense);
      SameLeg(rows, others, Sparse);
      SameScores(rows, others);
    } else if ReplayOk(others) {
      AcceptedInAnyOrder(others, rows);
    }
  }

  lemma SameRows(rows: seq<Row>, others: seq<Row>)
    requires multiset(rows) == multiset(others)
    ensures forall r :: r in rows <==> r in others
  {
    assert forall r :: r in rows <==> r in multiset(rows);
    assert forall r :: r in others <==> r in multiset(others);
  }

  lemma RankedSame(rows: seq<Row>, others: seq<Row>, side: Side)
    requires forall r :: r in rows <==> r in others
    ensures forall e :: e in Ranked(rows, side) <==> e in Ranked(others, side)
  {
    RankedElements(rows, side);
    RankedElements(others, side);
    forall e
      ensures e in Ranked(rows, side) <==> e in Ranked(others, side)
    {
      if i :| 0 <= i < |rows| && RankOn(rows[i], side) == Some(e.rank) && PointFrom(rows[i]) == e.point {
        assert rows[i] in others;
      }
      if i :| 0 <= i < |others| && RankOn(others[i], side) == Some(e.rank) && PointFrom(others[i]) == e.point {
        assert others[i] in rows;
      }
    }
  }

  /** Two rows one pool may hold: different ids, and different ranks on every leg both are on. */
  predicate Compatible(a: Row, b: Row) {
    && a.id != b.id
    && (a.denseRank.Some? ==> a.denseRank != b.denseRank)
    && (a.sparseRank.Some? ==> a.sparseRank != b.sparseRank)
  }

  ghost predicate Pairwise(rows: seq<Row>) {
    (forall i :: 0 <= i < |rows| ==> RowOk(rows[i]))
    && forall i, j :: 0 <= i < j < |rows| ==> Compatible(rows[i], rows[j])
  }

  lemma RankListElements(rows: seq<Row>, side: Side, n: int)
    ensures n in RankList(Ranked(rows, side)) <==> exists i :: 0 <= i < |rows| && RankOn(rows[i], side) == Some(n)
  {
    RankedElements(rows, side);
    var entries := Ranked(rows, side);
    if n in RankList(entries) {
      var k :| 0 <= k < |entries| && RankList(entries)[k] == n;
      assert entries[k] in entries;
    }
    if i :| 0 <= i < |rows| && RankOn(rows[i], side) == Some(n) {
      assert Entry(n, PointFrom(rows[i])) in entries;
      var k :| 0 <= k < |entries| && entries[k] == Entry(n, PointFrom(rows[i]));
      assert RankList(entries)[k] == n;
    }
  }

  /** What the sets of seen ids and ranks check, said of the rows two by two. */
  lemma {:induction false} ReplayOkIsPairwise(rows: seq<Row>)
    ensures ReplayOk(rows) <==> Pairwise(rows)
  {
    if rows != [] {
      var init, last := rows[..|rows| - 1], rows[|rows| - 1];
      assert rows == init + [last];
      ReplayOkIsPairwise(init);
      AcceptedStep(init, last);
      PairwiseStep(init, last);
    }
  }

  lemma AcceptedStep(rows: seq<Row>, row: Row)
    ensures ReplayOk(rows + [row]) <==>
              ReplayOk(rows) && RowOk(row) && forall i :: 0 <= i < |rows| ==> Compatible(rows[i], row)
  {
    ReplayOkStep(rows, row);
    assert row.id in RowIds(rows) <==> exists i :: 0 <= i < |rows| && RowIds(rows)[i] == row.id;
    if row.denseRank.Some? {
      RankListElements(rows, Dense, row.denseRank.value);
    }
    if row.sparseRank.Some? {
      RankListElements(rows, Sparse, row.sparseRank.value);
    }
  }

  lemma PairwiseStep(rows: seq<Row>, row: Row)
    ensures Pairwise(rows + [row]) <==>
              Pairwise(rows) && RowOk(row) && forall i :: 0 <= i < |rows| ==> Compatible(rows[i], row)
  {
    var longer := rows + [row];
    assert longer[|rows|] == row && forall i :: 0 <= i < |rows| ==> longer[i] == rows[i];
  }

  lemma AcceptedInAnyOrder(rows: seq<Row>, others: seq<Row>)
    requires multiset(rows) == multiset(others) && Pairwise(rows)
    ensures Pairwise(others)
  {
    SameRows(rows, others);
    assert NoDuplicates(rows) by {
      forall i, j | 0 <= i < j < |rows|
        ensures rows[i] != rows[j]
      {
        assert Compatible(rows[i], rows[j]);
      }
    }
    PermutationNoDuplicates(rows, others);
    forall i | 0 <= i < |others|
      ensures RowOk(others[i])
    {
      assert others[i] in rows;
    }
    forall i, j | 0 <= i < j < |others|
      ensures Compatible(others[i], others[j])
    {
      assert others[i] in rows && others[j] in rows && others[i] != others[j];
      var m :| 0 <= m < |rows| && rows[m] == others[i];
      var n :| 0 <= n < |rows| && rows[n] == others[j];
      assert m != n && (m < n ==> Compatible(rows[m], rows[n])) && (n < m ==> Compatible(rows[n], rows[m]));
    }
  }

  lemma SameLeg(rows: seq<Row>, others: seq<Row>, side: Side)
    requires multiset(rows) == multiset(others) && ReplayOk(rows) && ReplayOk(others)
    ensures Sort(EntryLe, Ranked(rows, side)) == Sort(EntryLe, Ranked(others, side))
  {
    SameRows(rows, others);
    RankedSame(rows, others, side);
    EntriesDistinct(Ranked(rows, side));
    EntriesDistinct(Ranked(others, side));
    SameElementsPermute(Ranked(rows, side), Ranked(others, side));
    EntryOrder();
    SortOfPermutation(EntryLe, Ranked(rows, side), Ranked(others, side));
  }

  lemma ScoresWithin(rows: seq<Row>, others: seq<Row>)
    requires NoDuplicates(RowIds(rows)) && NoDuplicates(RowIds(others)) && forall r :: r in rows ==> r in others
    ensures forall id :: id in CeOf(rows) ==> id in CeOf(others) && CeOf(rows)[id] == CeOf(others)[id]
  {
    CeElements(rows);
    CeElements(others);
    forall id | id in CeOf(rows)
      ensures id in CeOf(others) && CeOf(rows)[id] == CeOf(others)[id]
    {
      var i :| 0 <= i < |rows| && RowIds(rows)[i] == id;
      assert rows[i] in others;
      var j :| 0 <= j < |others| && others[j] == rows[i];
      assert RowIds(others)[j] == id;
    }
  }

  lemma SameScores(rows: seq<Row>, others: seq<Row>)
    requires multiset(rows) == multiset(others) && ReplayOk(rows) && ReplayOk(others)
    ensures CeOf(rows) == CeOf(others)
  {
    SameRows(rows, others);
    ScoresWithin(rows, others);
    ScoresWithin(others, rows);
  }

  // ---------------------------------------------------------------- the round trip

  lemma {:induction false} RanksAre(ids: seq<string>)
    ensures forall id :: id in Ranks(ids) <==> id in ids
    ensures forall id :: id in ids ==> Ranks(ids)[id] < |ids| && ids[Ranks(ids)[id]] == id
    ensures NoDuplicates(ids) ==> forall k :: 0 <= k < |ids| ==> Ranks(ids)[ids[k]] == k
  {
    if ids != [] {
      var init, last := ids[..|ids| - 1], ids[|ids| - 1];
      assert ids == init + [last];
      RanksAre(init);
      NoDuplicatesSnoc(init, last);
      assert forall id :: id in ids <==> id in init || id == last;
      if NoDuplicates(ids) {
        forall k | 0 <= k < |ids|
          ensures Ranks(ids)[ids[k]] == k
        {
          if k < |init| {
            assert ids[k] == init[k] && init[k] in init && init[k] != last;
          }
        }
      }
    }
  }

  lemma {:induction false} NotInIs(ids: seq<string>, ranks: map<string, nat>)
    requires NoDuplicates(ids)
    ensures forall id :: id in NotIn(ids, ranks) <==> id in ids && id !in ranks
    ensures NoDuplicates(NotIn(ids, ranks))
  {
    if ids != [] {
      NoDuplicatesHead(ids);
      NotInIs(ids[1..], ranks);
      if ids[0] !in ranks {
        var out := NotIn(ids, ranks);
        assert out[1..] == NotIn(ids[1..], ranks);
        NoDuplicatesHead(out);
      }
    }
  }

  lemma NoDuplicatesConcat<T>(a: seq<T>, b: seq<T>)
    requires NoDuplicates(a) && NoDuplicates(b) && forall x :: x in a ==> x !in b
    ensures NoDuplicates(a + b)
  {
    forall i, j | 0 <= i < j < |a + b|
      ensures (a + b)[i] != (a + b)[j]
    {
      if i < |a| <= j {
        assert (a + b)[i] in a && (a + b)[j] in b;
      }
    }
  }

  function PointIds(points: seq<ReplayPoint>): (ids: seq<string>)
    ensures |ids| == |points|
    ensures forall i :: 0 <= i < |ids| ==> ids[i] == points[i].id
  {
    Map((p: ReplayPoint) => p.id, points)
  }

  /**
   A replayed point shows what the chunk table holds for its id, with the row defaults for empty
   fields, under the heading joined to its id, or a placeholder when none were joined.
   */
  predicate Shows(point: ReplayPoint, record: Record, headings: Option<map<string, string>>) {
    && point.id in record.chunks
    && var chunk := record.chunks[point.id];
    && (if chunk.docId == "" then point.docId == point.id else point.docId == chunk.docId)
    && (if chunk.page == "" then point.page == "1" else point.page == chunk.page)
    && (if chunk.chunkType == "" then point.chunkType == "narrative" else point.chunkType == chunk.chunkType)
    && point.pageStart == chunk.pageStart
    && match headings
       case Some(joined) => point.id in joined && point.heading == joined[point.id]
       case None => point.heading == "Replay > " + point.id
  }

  /** The replayed pool lists a leg's ids in recorded order, with their chunks, and scores exactly the recorded ones. */
  ghost predicate Returns(
    rows: seq<Row>, dense: seq<string>, sparse: seq<string>, record: Record, headings: Option<map<string, string>>)
  {
    && ReplayOk(rows)
    && PointIds(ReplayOf(rows).dense) == dense
    && PointIds(ReplayOf(rows).sparse) == sparse
    && (forall k :: 0 <= k < |dense| ==> Shows(ReplayOf(rows).dense[k], record, headings))
    && (forall k :: 0 <= k < |sparse| ==> Shows(ReplayOf(rows).sparse[k], record, headings))
    && (forall id :: id in ReplayOf(rows).ce <==> id in dense || id in sparse)
    && (forall id :: id in ReplayOf(rows).ce ==> ReplayOf(rows).ce[id] == if id in record.ce then Some(record.ce[id]) else None)
  }

  /** Rows as `record_to_rows` builds them from two id lists. */
  ghost predicate RowsFor(record: Record, rows: seq<Row>, dense: seq<string>, sparse: seq<string>, headings: Option<map<string, string>>) {
    var order := Listed(dense, sparse);
    |rows| == |order|
    && forall k :: 0 <= k < |rows| ==>
         order[k] in record.chunks && HeadingFor(headings, order[k])
         && rows[k] == RowOf(record, order[k], Ranks(dense), Ranks(sparse), headings)
  }

  /** Every recorded page start is non-negative, as `legs_to_record` only stores such. */
  predicate PageStartsOk(record: Record) {
    forall id :: id in record.chunks ==> NonNegative(record.chunks[id].pageStart)
  }

  lemma OrderIs(dense: seq<string>, sparse: seq<string>)
    requires NoDuplicates(dense) && NoDuplicates(sparse)
    ensures var order := Listed(dense, sparse);
      NoDuplicates(order) && forall id :: id in order <==> id in dense || id in sparse
  {
    RanksAre(dense);
    NotInIs(sparse, Ranks(dense));
    NoDuplicatesConcat(dense, NotIn(sparse, Ranks(dense)));
  }

  lemma {:induction false} NotInElements(ids: seq<string>, ranks: map<string, nat>)
    ensures forall id :: id in NotIn(ids, ranks) <==> id in ids && id !in ranks
  {
    if ids != [] {
      NotInElements(ids[1..], ranks);
    }
  }

  /** It lists no id twice just when no dense id repeats, nor a sparse one that is not dense. */
  lemma ListedOnce(dense: seq<string>, sparse: seq<string>)
    ensures NoDuplicates(Listed(dense, sparse)) <==> NoDuplicates(dense) && NoDuplicates(NotIn(sparse, Ranks(dense)))
    ensures forall id :: id in Listed(dense, sparse) <==> id in dense || id in sparse
  {
    var rest := NotIn(sparse, Ranks(dense));
    RanksAre(dense);
    NotInElements(sparse, Ranks(dense));
    if NoDuplicates(dense) && NoDuplicates(rest) {
      NoDuplicatesConcat(dense, rest);
    }
    if NoDuplicates(dense + rest) {
      assert forall i :: 0 <= i < |dense| ==> (dense + rest)[i] == dense[i];
      assert forall i :: 0 <= i < |rest| ==> (dense + rest)[|dense| + i] == rest[i];
    }
  }

  /** The leg on one side, as entries in recorded order. */
  function Target(record: Record, ids: seq<string>, dense: seq<string>, sparse: seq<string>, headings: Option<map<string, string>>): (es: seq<Entry>)
    requires forall id :: id in ids ==> id in record.chunks && HeadingFor(headings, id)
    ensures |es| == |ids|
    ensures forall k :: 0 <= k < |es| ==> es[k] == Entry(k, PointFrom(RowOf(record, ids[k], Ranks(dense), Ranks(sparse), headings)))
  {
    seq(|ids|, k requires 0 <= k < |ids| =>
      assert ids[k] in ids; Entry(k, PointFrom(RowOf(record, ids[k], Ranks(dense), Ranks(sparse), headings))))
  }

  lemma RowsCover(record: Record, rows: seq<Row>, dense: seq<string>, sparse: seq<string>, headings: Option<map<string, string>>)
    requires NoDuplicates(dense) && NoDuplicates(sparse) && RowsFor(record, rows, dense, sparse, headings)
    ensures forall id :: id in dense || id in sparse ==> id in record.chunks && HeadingFor(headings, id)
    ensures forall id :: id in dense || id in sparse ==> exists k :: 0 <= k < |rows| && rows[k] == RowOf(record, id, Ranks(dense), Ranks(sparse), headings)
    ensures forall k :: 0 <= k < |rows| ==> rows[k].id in dense || rows[k].id in sparse
  {
    var order := Listed(dense, sparse);
    OrderIs(dense, sparse);
    forall id | id in dense || id in sparse
      ensures id in record.chunks && HeadingFor(headings, id)
      ensures exists k :: 0 <= k < |rows| && rows[k] == RowOf(record, id, Ranks(dense), Ranks(sparse), headings)
    {
      var k :| 0 <= k < |order| && order[k] == id;
      assert rows[k] == RowOf(record, order[k], Ranks(dense), Ranks(sparse), headings);
    }
    forall k | 0 <= k < |rows|
      ensures rows[k].id in dense || rows[k].id in sparse
    {
      assert order[k] in order;
    }
  }

  lemma TargetIsRanked(record: Record, rows: seq<Row>, dense: seq<string>, sparse: seq<string>, headings: Option<map<string, string>>, side: Side, k: nat)
    requires NoDuplicates(dense) && NoDuplicates(sparse) && RowsFor(record, rows, dense, sparse, headings)
    requires k < |if side.Dense? then dense else sparse|
    ensures var id := (if side.Dense? then dense else sparse)[k];
      && id in record.chunks && HeadingFor(headings, id)
      && Entry(k, PointFrom(RowOf(record, id, Ranks(dense), Ranks(sparse), headings))) in Ranked(rows, side)
  {
    var ids := if side.Dense? then dense else sparse;
    RowsCover(record, rows, dense, sparse, headings);
    RanksAre(ids);
    RankedElements(rows, side);
    assert ids[k] in ids;
    var i :| 0 <= i < |rows| && rows[i] == RowOf(record, ids[k], Ranks(dense), Ranks(sparse), headings);
    assert RankOn(rows[i], side) == Some(k);
  }

  lemma RankedIsTarget(record: Record, rows: seq<Row>, dense: seq<string>, sparse: seq<string>, headings: Option<map<string, string>>, side: Side, e: Entry)
    requires RowsFor(record, rows, dense, sparse, headings) && e in Ranked(rows, side)
    ensures var ids := if side.Dense? then dense else sparse;
      && 0 <= e.rank < |ids| && ids[e.rank] in record.chunks && HeadingFor(headings, ids[e.rank])
      && e.point == PointFrom(RowOf(record, ids[e.rank], Ranks(dense), Ranks(sparse), headings))
  {
    var ids := if side.Dense? then dense else sparse;
    RanksAre(ids);
    RankedElements(rows, side);
    var i :| 0 <= i < |rows| && RankOn(rows[i], side) == Some(e.rank) && PointFrom(rows[i]) == e.point;
    assert rows[i].id in ids;
  }

  lemma RowOfIsOk(record: Record, id: string, dense: map<string, nat>, sparse: map<string, nat>, headings: Option<map<string, string>>)
    requires id in record.chunks && HeadingFor(headings, id) && PageStartsOk(record)
    requires id != "" && (id in dense || id in sparse)
    ensures RowOk(RowOf(record, id, dense, sparse, headings))
  {
  }

  lemma RowsOfDiffer(record: Record, a: string, b: string, dense: seq<string>, sparse: seq<string>, headings: Option<map<string, string>>)
    requires a in record.chunks && HeadingFor(headings, a) && b in record.chunks && HeadingFor(headings, b) && a != b
    ensures Compatible(RowOf(record, a, Ranks(dense), Ranks(sparse), headings), RowOf(record, b, Ranks(dense), Ranks(sparse), headings))
  {
    RanksAre(dense);
    RanksAre(sparse);
  }

  /** The rows are accepted exactly when no id is listed twice and none is empty. */
  lemma AcceptedIff(record: Record, rows: seq<Row>, dense: seq<string>, sparse: seq<string>, headings: Option<map<string, string>>)
    requires RowsFor(record, rows, dense, sparse, headings) && PageStartsOk(record)
    ensures ReplayOk(rows) <==> NoDuplicates(Listed(dense, sparse)) && "" !in Listed(dense, sparse)
  {
    var order := Listed(dense, sparse);
    assert RowIds(rows) == order;
    if ReplayOk(rows) {
      assert forall i :: 0 <= i < |rows| ==> RowOk(rows[i]) && rows[i].id == order[i];
    }
    if NoDuplicates(order) && "" !in order {
      AcceptedRows(record, rows, dense, sparse, headings);
    }
  }

  lemma AcceptedRows(record: Record, rows: seq<Row>, dense: seq<string>, sparse: seq<string>, headings: Option<map<string, string>>)
    requires RowsFor(record, rows, dense, sparse, headings) && PageStartsOk(record)
    requires NoDuplicates(Listed(dense, sparse)) && "" !in Listed(dense, sparse)
    ensures ReplayOk(rows)
  {
    var order := Listed(dense, sparse);
    ListedOnce(dense, sparse);
    RanksAre(dense);
    RanksAre(sparse);
    forall i | 0 <= i < |rows|
      ensures RowOk(rows[i])
    {
      assert order[i] in order;
      RowOfIsOk(record, order[i], Ranks(dense), Ranks(sparse), headings);
    }
    forall i, j | 0 <= i < j < |rows|
      ensures Compatible(rows[i], rows[j])
    {
      RowsOfDiffer(record, order[i], order[j], dense, sparse, headings);
    }
    ReplayOkIsPairwise(rows);
  }

  /** Rows built from duplicate-free lists of non-empty ids are accepted. */
  lemma RowsAccepted(record: Record, rows: seq<Row>, dense: seq<string>, sparse: seq<string>, headings: Option<map<string, string>>)
    requires NoDuplicates(dense) && NoDuplicates(sparse) && RowsFor(record, rows, dense, sparse, headings)
    requires "" !in dense && "" !in sparse && PageStartsOk(record)
    ensures ReplayOk(rows) && NoDuplicates(RowIds(rows))
  {
    OrderIs(dense, sparse);
    AcceptedIff(record, rows, dense, sparse, headings);
  }

  lemma TargetShape(record: Record, ids: seq<string>, dense: seq<string>, sparse: seq<string>, headings: Option<map<string, string>>)
    requires forall id :: id in ids ==> id in record.chunks && HeadingFor(headings, id)
    ensures var target := Target(record, ids, dense, sparse, headings);
      Sorted(EntryLe, target) && NoDuplicates(target) && PointIds(PointList(target)) == ids
      && forall k :: 0 <= k < |target| ==> Shows(target[k].point, record, headings)
  {
  }

  lemma TargetElements(record: Record, rows: seq<Row>, dense: seq<string>, sparse: seq<string>, headings: Option<map<string, string>>, side: Side)
    requires NoDuplicates(dense) && NoDuplicates(sparse) && RowsFor(record, rows, dense, sparse, headings)
    requires forall id :: id in dense || id in sparse ==> id in record.chunks && HeadingFor(headings, id)
    ensures forall e :: e in Target(record, if side.Dense? then dense else sparse, dense, sparse, headings) <==> e in Ranked(rows, side)
  {
    var target := Target(record, if side.Dense? then dense else sparse, dense, sparse, headings);
    forall e | e in target
      ensures e in Ranked(rows, side)
    {
      var k :| 0 <= k < |target| && target[k] == e;
      TargetIsRanked(record, rows, dense, sparse, headings, side, k);
    }
    forall e | e in Ranked(rows, side)
      ensures e in target
    {
      RankedIsTarget(record, rows, dense, sparse, headings, side, e);
      assert target[e.rank] == e;
    }
  }

  /** One side of the replay: the recorded ids, in recorded order. */
  lemma SideReturns(record: Record, rows: seq<Row>, dense: seq<string>, sparse: seq<string>, headings: Option<map<string, string>>, side: Side)
    requires NoDuplicates(dense) && NoDuplicates(sparse) && RowsFor(record, rows, dense, sparse, headings) && ReplayOk(rows)
    ensures PointIds(PointList(Sort(EntryLe, Ranked(rows, side)))) == if side.Dense? then dense else sparse
    ensures forall k :: 0 <= k < |Sort(EntryLe, Ranked(rows, side))| ==> Shows(PointList(Sort(EntryLe, Ranked(rows, side)))[k], record, headings)
  {
    var ids := if side.Dense? then dense else sparse;
    RowsCover(record, rows, dense, sparse, headings);
    TargetShape(record, ids, dense, sparse, headings);
    TargetElements(record, rows, dense, sparse, headings, side);
    RankedSortsTo(rows, side, Target(record, ids, dense, sparse, headings));
  }

  lemma ScoresReturn(record: Record, rows: seq<Row>, dense: seq<string>, sparse: seq<string>, headings: Option<map<string, string>>)
    requires NoDuplicates(dense) && NoDuplicates(sparse) && RowsFor(record, rows, dense, sparse, headings) && ReplayOk(rows)
    ensures forall id :: id in CeOf(rows) <==> id in dense || id in sparse
    ensures forall id :: id in CeOf(rows) ==> CeOf(rows)[id] == if id in record.ce then Some(record.ce[id]) else None
  {
    CeElements(rows);
    RowsCover(record, rows, dense, sparse, headings);
    forall id | id in dense || id in sparse
      ensures id in CeOf(rows) && CeOf(rows)[id] == if id in record.ce then Some(record.ce[id]) else None
    {
      ScoreReturns(record, rows, dense, sparse, headings, id);
    }
    forall id | id in CeOf(rows)
      ensures id in dense || id in sparse
    {
      var k :| 0 <= k < |rows| && RowIds(rows)[k] == id;
    }
  }

  lemma ScoreReturns(
    record: Record, rows: seq<Row>, dense: seq<string>, sparse: seq<string>, headings: Option<map<string, string>>, id: string)
    requires NoDuplicates(dense) && NoDuplicates(sparse) && RowsFor(record, rows, dense, sparse, headings) && ReplayOk(rows)
    requires id in dense || id in sparse
    ensures id in CeOf(rows) && CeOf(rows)[id] == if id in record.ce then Some(record.ce[id]) else None
  {
    CeElements(rows);
    RowsCover(record, rows, dense, sparse, headings);
    var k :| 0 <= k < |rows| && rows[k] == RowOf(record, id, Ranks(dense), Ranks(sparse), headings);
    assert RowIds(rows)[k] == id;
  }

  /** A replayed leg never repeats an id. */
  lemma ReplayedAreDistinct(rows: seq<Row>, side: Side)
    requires ReplayOk(rows)
    ensures NoDuplicates(PointIds(PointList(Sort(EntryLe, Ranked(rows, side)))))
    ensures "" !in PointIds(PointList(Sort(EntryLe, Ranked(rows, side))))
  {
    var sorted := Sort(EntryLe, Ranked(rows, side));
    SortedEntries(rows, side);
    forall i, j | 0 <= i < j < |sorted|
      ensures sorted[i].point.id != sorted[j].point.id
    {
      EntriesOfOneRow(rows, side, sorted[i], sorted[j]);
    }
    forall i | 0 <= i < |sorted|
      ensures sorted[i].point.id != ""
    {
      EntriesOfOneRow(rows, side, sorted[i], sorted[i]);
    }
  }

  lemma SortedEntries(rows: seq<Row>, side: Side)
    requires ReplayOk(rows)
    ensures NoDuplicates(Sort(EntryLe, Ranked(rows, side)))
    ensures forall i :: 0 <= i < |Sort(EntryLe, Ranked(rows, side))| ==> Sort(EntryLe, Ranked(rows, side))[i] in Ranked(rows, side)
  {
    var entries := Ranked(rows, side);
    EntriesDistinct(entries);
    SortPermutes(EntryLe, entries);
    PermutationNoDuplicates(entries, Sort(EntryLe, entries));
    SortElements(EntryLe, entries);
  }

  lemma EntriesOfOneRow(rows: seq<Row>, side: Side, a: Entry, b: Entry)
    requires ReplayOk(rows) && a in Ranked(rows, side) && b in Ranked(rows, side)
    ensures a.point.id != "" && (a.point.id == b.point.id ==> a == b)
  {
    RankedElements(rows, side);
    var m :| 0 <= m < |rows| && RankOn(rows[m], side) == Some(a.rank) && PointFrom(rows[m]) == a.point;
    var n :| 0 <= n < |rows| && RankOn(rows[n], side) == Some(b.rank) && PointFrom(rows[n]) == b.point;
    assert RowIds(rows)[m] == RowIds(rows)[n] ==> m == n;
  }

  /**
   The round trip, exactly: replaying the rows of a recorded leg, trimmed to `maxRank`, returns
   the recorded ids in order with their scores if and only if neither trimmed list repeats an
   id or holds an empty one.
   */
  lemma {:induction false} RoundTrip(query: string, legs: seq<Leg>, scores: map<string, Score>, leg: nat, maxRank: Option<int>, headings: Option<map<string, string>>)
    requires RecordOf(query, legs, scores).Ok? && leg < |legs| && (maxRank.Some? ==> maxRank.value >= 1)
    requires headings.Some? ==> forall k :: 0 <= k < |PointsOf(legs)| ==> PointsOf(legs)[k].id in headings.value
    ensures var record := RecordOf(query, legs, scores).value;
      var dense, sparse := Trim(Ids(legs[leg].dense), maxRank), Trim(Ids(legs[leg].sparse), maxRank);
      && RowsExist(record, leg, maxRank, headings)
      && (Returns(RowsOf(record, leg, maxRank, headings), dense, sparse, record, headings) <==>
            NoDuplicates(dense) && NoDuplicates(sparse) && "" !in dense && "" !in sparse)
  {
    var record := RecordOf(query, legs, scores).value;
    var dense, sparse := Trim(Ids(legs[leg].dense), maxRank), Trim(Ids(legs[leg].sparse), maxRank);
    assert record.legs[leg] == LegIds(Ids(legs[leg].dense), Ids(legs[leg].sparse));
    RecordedRowsExist(query, legs, scores, leg, maxRank, headings);
    PagesRecorded(map[], PointsOf(legs));
    LegReplays(record, leg, maxRank, headings);
  }

  /**
   When the replay refuses a recorded leg, exactly: a dense id repeats, or a sparse one that is
   not dense, or an id is empty.  A repeated sparse id that is dense too is not refused but lost.
   */
  lemma {:induction false} RefusedExactly(query: string, legs: seq<Leg>, scores: map<string, Score>, leg: nat, maxRank: Option<int>, headings: Option<map<string, string>>)
    requires RecordOf(query, legs, scores).Ok? && leg < |legs| && (maxRank.Some? ==> maxRank.value >= 1)
    requires headings.Some? ==> forall k :: 0 <= k < |PointsOf(legs)| ==> PointsOf(legs)[k].id in headings.value
    ensures var record := RecordOf(query, legs, scores).value;
      var dense, sparse := Trim(Ids(legs[leg].dense), maxRank), Trim(Ids(legs[leg].sparse), maxRank);
      && RowsExist(record, leg, maxRank, headings)
      && (ReplayOk(RowsOf(record, leg, maxRank, headings)) <==>
            NoDuplicates(dense) && NoDuplicates(NotIn(sparse, Ranks(dense))) && "" !in dense && "" !in sparse)
  {
    var record := RecordOf(query, legs, scores).value;
    var dense, sparse := Trim(Ids(legs[leg].dense), maxRank), Trim(Ids(legs[leg].sparse), maxRank);
    assert record.legs[leg] == LegIds(Ids(legs[leg].dense), Ids(legs[leg].sparse));
    RecordedRowsExist(query, legs, scores, leg, maxRank, headings);
    PagesRecorded(map[], PointsOf(legs));
    RowsAreFor(record, leg, maxRank, headings);
    AcceptedIff(record, RowsOf(record, leg, maxRank, headings), dense, sparse, headings);
    ListedOnce(dense, sparse);
  }

  lemma RowsAreFor(record: Record, leg: nat, maxRank: Option<int>, headings: Option<map<string, string>>)
    requires RowsExist(record, leg, maxRank, headings)
    ensures RowsFor(record, RowsOf(record, leg, maxRank, headings),
                    Trim(record.legs[leg].dense, maxRank), Trim(record.legs[leg].sparse, maxRank), headings)
  {
    assert forall k :: 0 <= k < |OrderOf(record, leg, maxRank)| ==> OrderOf(record, leg, maxRank)[k] in OrderOf(record, leg, maxRank);
  }

  /** A dense point listed twice among the sparse ones comes back once: the leg is accepted and shorter. */
  lemma RepeatedSparsePointIsLost(query: string, p: Point)
    requires query != "" && !p.payload.chunkType.NotText? && p.id != ""
    ensures var r := RecordOf(query, [Leg([p], [p, p])], map[]);
      && r.Ok? && RowsExist(r.value, 0, None, None)
      && var rows := RowsOf(r.value, 0, None, None);
         ReplayOk(rows) && PointIds(ReplayOf(rows).sparse) == [p.id] && r.value.legs[0].sparse == [p.id, p.id]
  {
    var legs := [Leg([p], [p, p])];
    OnePointTable(query, p);
    assert Ids([p]) == [p.id] && Ids([p, p]) == [p.id, p.id];
    RefusedExactly(query, legs, map[], 0, None, None);
    OneRowIsListed(p.id);
    var record := RecordOf(query, legs, map[]).value;
    assert record.legs[0] == LegIds([p.id], [p.id, p.id]);
    assert OrderOf(record, 0, None) == [p.id];
    OneSparseRow(RowsOf(record, 0, None, None));
  }

  lemma OnePointTable(query: string, p: Point)
    requires query != "" && !p.payload.chunkType.NotText?
    ensures RecordOf(query, [Leg([p], [p, p])], map[]).Ok?
  {
    var legs := [Leg([p], [p, p])];
    assert PointsOf(legs) == [p, p, p] by {
      assert PointsOf(legs[1..]) == [];
    }
    var first := Extend(Ok(map[]), p);
    assert [p, p, p][1..] == [p, p] && [p, p][1..] == [p] && [p][1..] == [];
    assert ChunkTable(legs) == AddedTo(first, [p, p]) == AddedTo(first, [p]) == AddedTo(first, []) == first;
  }

  lemma OneSparseRow(rows: seq<Row>)
    requires |rows| == 1 && rows[0].sparseRank.Some?
    ensures PointIds(ReplayOf(rows).sparse) == [rows[0].id]
  {
    var entries := [Entry(rows[0].sparseRank.value, PointFrom(rows[0]))];
    assert rows[..0] == [] && Ranked(rows, Sparse) == entries;
    assert entries[1..] == [] && Sort(EntryLe, entries) == entries;
  }

  lemma OneRowIsListed(id: string)
    ensures Listed([id], [id, id]) == [id] && Ranks([id, id]) == map[id := 1] && NotIn([id, id], Ranks([id])) == []
  {
    assert [id][..0] == [] && Ranks([id]) == map[id := 0];
    assert [id, id][..1] == [id] && [id, id][1..] == [id] && [id][1..] == [];
    assert NotIn([id], Ranks([id])) == [];
    assert NotIn([id, id], Ranks([id])) == [];
  }

  /** A leg that lists one point twice is recorded, and its rows are then refused by the replay. */
  lemma RepeatedPointIsRefused(query: string, p: Point)
    requires query != "" && !p.payload.chunkType.NotText?
    ensures var r := RecordOf(query, [Leg([p, p], [])], map[]);
      && r.Ok? && RowsExist(r.value, 0, None, None) && !ReplayOk(RowsOf(r.value, 0, None, None))
  {
    var legs := [Leg([p, p], [])];
    assert PointsOf(legs) == [p, p] by {
      assert PointsOf(legs[1..]) == [];
    }
    assert [p, p][1..] == [p] && [p][1..] == [];
    var first := Extend(Ok(map[]), p);
    assert ChunkTable(legs) == AddedTo(first, [p]) == AddedTo(first, []) == first;
    RecordedRowsExist(query, legs, map[], 0, None, None);
    var record := RecordOf(query, legs, map[]).value;
    assert Ids([p, p]) == [p.id, p.id];
    var rows := RowsOf(record, 0, None, None);
    assert rows[0].id == p.id && rows[1].id == p.id;
    assert RowIds(rows)[0] == RowIds(rows)[1];
  }

  lemma RecordedRowsExist(query: string, legs: seq<Leg>, scores: map<string, Score>, leg: nat, maxRank: Option<int>, headings: Option<map<string, string>>)
    requires RecordOf(query, legs, scores).Ok? && leg < |legs| && (maxRank.Some? ==> maxRank.value >= 1)
    requires headings.Some? ==> forall k :: 0 <= k < |PointsOf(legs)| ==> PointsOf(legs)[k].id in headings.value
    ensures RowsExist(RecordOf(query, legs, scores).value, leg, maxRank, headings)
  {
    var record := RecordOf(query, legs, scores).value;
    assert record.legs[leg] == LegIds(Ids(legs[leg].dense), Ids(legs[leg].sparse));
    LegIsCovered(legs, leg);
    TableIsFirstSeen(map[], PointsOf(legs));
    NotInElements(Trim(record.legs[leg].sparse, maxRank), Ranks(Trim(record.legs[leg].dense, maxRank)));
    forall id | id in OrderOf(record, leg, maxRank)
      ensures id in record.chunks && HeadingFor(headings, id)
    {
      assert id in Ids(legs[leg].dense) || id in Ids(legs[leg].sparse);
      var k :| 0 <= k < |PointsOf(legs)| && PointsOf(legs)[k].id == id;
    }
  }

  /** The same for any record whose page starts are non-negative. */
  lemma LegReplays(record: Record, leg: nat, maxRank: Option<int>, headings: Option<map<string, string>>)
    requires RowsExist(record, leg, maxRank, headings) && PageStartsOk(record)
    ensures var dense, sparse := Trim(record.legs[leg].dense, maxRank), Trim(record.legs[leg].sparse, maxRank);
      Returns(RowsOf(record, leg, maxRank, headings), dense, sparse, record, headings) <==>
        NoDuplicates(dense) && NoDuplicates(sparse) && "" !in dense && "" !in sparse
  {
    var dense, sparse := Trim(record.legs[leg].dense, maxRank), Trim(record.legs[leg].sparse, maxRank);
    var rows := RowsOf(record, leg, maxRank, headings);
    RowsAreFor(record, leg, maxRank, headings);
    if NoDuplicates(dense) && NoDuplicates(sparse) && "" !in dense && "" !in sparse {
      RowsReturn(record, rows, dense, sparse, headings);
    }
    if Returns(rows, dense, sparse, record, headings) {
      ReplayedAreDistinct(rows, Dense);
      ReplayedAreDistinct(rows, Sparse);
    }
  }

  lemma RowsReturn(record: Record, rows: seq<Row>, dense: seq<string>, sparse: seq<string>, headings: Option<map<string, string>>)
    requires NoDuplicates(dense) && NoDuplicates(sparse) && RowsFor(record, rows, dense, sparse, headings)
    requires "" !in dense && "" !in sparse && PageStartsOk(record)
    ensures Returns(rows, dense, sparse, record, headings)
  {
    RowsAccepted(record, rows, dense, sparse, headings);
    SideReturns(record, rows, dense, sparse, headings, Dense);
    SideReturns(record, rows, dense, sparse, headings, Sparse);
    ScoresReturn(record, rows, dense, sparse, headings);
  }

  lemma {:induction false} LegIsCovered(legs: seq<Leg>, leg: nat)
    requires leg < |legs|
    ensures forall id :: id in Ids(legs[leg].dense) || id in Ids(legs[leg].sparse) ==>
              exists k :: 0 <= k < |PointsOf(legs)| && PointsOf(legs)[k].id == id
  {
    var here, rest := legs[0].dense + legs[0].sparse, PointsOf(legs[1..]);
    assert PointsOf(legs) == here + rest;
    forall id | id in Ids(legs[leg].dense) || id in Ids(legs[leg].sparse)
      ensures exists k :: 0 <= k < |PointsOf(legs)| && PointsOf(legs)[k].id == id
    {
      if leg == 0 {
        if i :| 0 <= i < |legs[0].dense| && legs[0].dense[i].id == id {
          assert PointsOf(legs)[i].id == id;
        } else {
          var i :| 0 <= i < |legs[0].sparse| && legs[0].sparse[i].id == id;
          assert PointsOf(legs)[|legs[0].dense| + i].id == id;
        }
      } else {
        LegIsCovered(legs[1..], leg - 1);
        var k :| 0 <= k < |rest| && rest[k].id == id;
        assert PointsOf(legs)[|here| + k].id == id;
      }
    }
  }

  lemma {:induction false} PagesRecorded(table: map<string, Chunk>, points: seq<Point>)
    requires forall id :: id in table ==> NonNegative(table[id].pageStart)
    requires AddedTo(Ok(table), points).Ok?
    ensures forall id :: id in AddedTo(Ok(table), points).value ==> NonNegative(AddedTo(Ok(table), points).value[id].pageStart)
    decreases |points|
  {
    if points != [] {
      var next := Extend(Ok(table), points[0]);
      if next.Err? {
        ErrStays(next, points[1..]);
      }
      PagesRecorded(next.value, points[1..]);
    }
  }
}
