/**
 Streaming the candle archive in time windows.

 The archive is read chunk by chunk from the partition files that can matter; the emitted stream
 is nevertheless the one sorted list of all requested rows, whatever the chunk and batch sizes.
 A query is any sorted arrangement of the rows it selects: rows with equal sort keys may come in
 any order.
 */
module Loader {
  import opened Wrappers
  import opened Sorting

  const SECOND := "1s"

  /** `payload` stands for prices, volume and features, which the loader passes through. */
  datatype Row = Row(symbol: string, timeframe: string, openTime: int, closeTime: int, payload: int)

  /** One partition of the archive with its index entry. */
  datatype File = File(symbol: string, timeframe: string, firstOpen: int, lastClose: int, rows: seq<Row>)

  datatype Source = Table(rows: seq<Row>) | Archive(files: seq<File>)

  datatype Request = Request(symbols: set<string>, timeframes: set<string>, start: int, end: int, shift: int)

  datatype Emitted = Emitted(row: Row, sequence: nat)

  function AvailableTime(q: Request, r: Row): int {
    if r.timeframe == SECOND then r.openTime + 1000 + q.shift else r.closeTime + 1
  }

  /** A requested row: seconds by shifted opening time, candles by closing time. */
  predicate Requested(q: Request, r: Row) {
    && r.symbol in q.symbols && r.timeframe in q.timeframes
    && if r.timeframe == SECOND then q.start - q.shift <= r.openTime < q.end - q.shift
       else q.start <= r.closeTime < q.end
  }

  function Wanted(q: Request): Row -> bool {
    (r: Row) => Requested(q, r)
  }

  function WantedIn(q: Request, lo: int, hi: int): Row -> bool {
    (r: Row) => Requested(q, r) && lo <= AvailableTime(q, r) < hi
  }

  function Priority(r: Row): int {
    if r.timeframe == SECOND then 1 else 2
  }

  /** ORDER BY available time, seconds first, then symbol, opening and closing time. */
  predicate KeyLe(q: Request, a: Row, b: Row) {
    var ta, tb := AvailableTime(q, a), AvailableTime(q, b);
    ta < tb || (ta == tb &&
      (Priority(a) < Priority(b) || (Priority(a) == Priority(b) &&
        (!StringLe(b.symbol, a.symbol) || (a.symbol == b.symbol &&
          (a.openTime < b.openTime || (a.openTime == b.openTime && a.closeTime <= b.closeTime)))))))
  }

  function Key(q: Request): (Row, Row) -> bool {
    (a: Row, b: Row) => KeyLe(q, a, b)
  }

  /**
   `out` answers the query: selected rows in order, none more often than it occurs, and the rows
   in `sure` exactly as often.
   */
  ghost predicate Answers(q: Request, rows: seq<Row>, select: Row -> bool, out: seq<Row>, sure: Row -> bool) {
    && Ordered(out, Key(q))
    && multiset(out) <= multiset(Filter(rows, select))
    && (forall r :: sure(r) ==> multiset(out)[r] == multiset(Filter(rows, select))[r])
  }

  /** A complete answer: the selected rows in order, each as often as it occurs. */
  ghost predicate IsAnswer(q: Request, rows: seq<Row>, select: Row -> bool, out: seq<Row>) {
    Ordered(out, Key(q)) && multiset(out) == multiset(Filter(rows, select))
  }

  /** An answer that is sure of every selected row is complete. */
  lemma SureIsComplete(q: Request, rows: seq<Row>, select: Row -> bool, out: seq<Row>, sure: Row -> bool)
    requires Answers(q, rows, select, out, sure) && forall r :: r in rows && select(r) ==> sure(r)
    ensures IsAnswer(q, rows, select, out)
  {
    forall r
      ensures multiset(out)[r] == multiset(Filter(rows, select))[r]
    {
      FilterCount(rows, select, r);
      assert r in rows <==> r in multiset(rows);
    }
  }

  // ---------------------------------------------------------------------------
  // The sort key is a total preorder
  // ---------------------------------------------------------------------------

  lemma KeyTotal(q: Request, a: Row, b: Row)
    ensures KeyLe(q, a, b) || KeyLe(q, b, a)
  {
    StringLeTotal(a.symbol, b.symbol);
    if StringLe(a.symbol, b.symbol) && StringLe(b.symbol, a.symbol) {
      StringLeAntisymmetric(a.symbol, b.symbol);
    }
  }

  lemma {:induction false} StrictTransitive(a: string, b: string, c: string)
    requires !StringLe(b, a) && !StringLe(c, b)
    ensures !StringLe(c, a)
  {
    StringLeTotal(a, b);
    if StringLe(c, a) {
      StringLeTransitive(c, a, b);
      assert false;
    }
  }

  lemma KeyTransitive(q: Request, a: Row, b: Row, c: Row)
    requires KeyLe(q, a, b) && KeyLe(q, b, c)
    ensures KeyLe(q, a, c)
  {
    if !StringLe(b.symbol, a.symbol) && !StringLe(c.symbol, b.symbol) {
      StrictTransitive(a.symbol, b.symbol, c.symbol);
    }
  }

  lemma KeyIsTotal(q: Request)
    ensures TotalPreorder(Key(q))
  {
    var le := Key(q);
    forall a, b
      ensures le(a, b) || le(b, a)
    {
      KeyTotal(q, a, b);
    }
    forall a, b, c | le(a, b) && le(b, c)
      ensures le(a, c)
    {
      KeyTransitive(q, a, b, c);
    }
  }

  // ---------------------------------------------------------------------------
  // Partition pruning
  // ---------------------------------------------------------------------------

  ghost predicate FileOk(f: File) {
    forall r :: r in f.rows ==>
      && r.symbol == f.symbol && r.timeframe == f.timeframe
      && f.firstOpen <= r.openTime <= r.closeTime <= f.lastClose
  }

  /** The index entries a request starts from. */
  predicate Indexed(q: Request, f: File) {
    && f.symbol in q.symbols && f.timeframe in q.timeframes
    && if f.timeframe == SECOND then f.firstOpen < q.end - q.shift && f.lastClose >= q.start - q.shift
       else f.firstOpen < q.end && f.lastClose >= q.start
  }

  /** The entries a chunk reads: one window for all timeframes, shifted as for seconds. */
  predicate InChunk(q: Request, f: File, lo: int, hi: int) {
    f.firstOpen < hi - q.shift && f.lastClose >= lo - q.shift - 1001
  }

  function BarLength(r: Row): int {
    r.closeTime - r.openTime + 1
  }

  /** The shift moves no candle out of its chunk's window; seconds are never affected. */
  predicate ShiftSafe(q: Request, r: Row) {
    r.timeframe == SECOND || -1000 <= q.shift <= BarLength(r)
  }

  /** The chunk lo..hi needs row r of file f. */
  ghost predicate Needs(q: Request, f: File, r: Row, lo: int, hi: int) {
    FileOk(f) && r in f.rows && Requested(q, r) && lo <= AvailableTime(q, r) < hi
  }

  /** Pruning drops no row that its chunk needs. */
  lemma PruningKeeps(q: Request, f: File, r: Row, lo: int, hi: int)
    requires Needs(q, f, r, lo, hi) && ShiftSafe(q, r)
    ensures Indexed(q, f) && InChunk(q, f, lo, hi)
  {
  }

  /** Every candle of this length survives pruning, in every file, chunk and request with this shift. */
  ghost predicate PruningSound(shift: int, length: int) {
    forall q: Request, f: File, r: Row, lo: int, hi: int ::
      Needs(q, f, r, lo, hi) && q.shift == shift && r.timeframe != SECOND && BarLength(r) == length ==>
        InChunk(q, f, lo, hi)
  }

  /** For candles pruning is sound exactly for shifts from -1000 ms up to the length of the candle. */
  lemma PruningSoundExactly(shift: int, length: int)
    requires length >= 1
    ensures PruningSound(shift, length) <==> -1000 <= shift <= length
  {
    if -1000 <= shift <= length {
      forall q: Request, f: File, r: Row, lo: int, hi: int |
        Needs(q, f, r, lo, hi) && q.shift == shift && r.timeframe != SECOND && BarLength(r) == length
        ensures InChunk(q, f, lo, hi)
      {
        PruningKeeps(q, f, r, lo, hi);
      }
    } else {
      var r := Row("S", "1m", 1 - length, 0, 0);
      var f := File("S", "1m", 1 - length, 0, [r]);
      var q := Request({"S"}, {"1m"}, 0, 1, shift);
      assert Needs(q, f, r, 1, 2);
      assert !InChunk(q, f, 1, 2);
    }
  }

  function AllRows(files: seq<File>): seq<Row> {
    if files == [] then [] else AllRows(files[..|files| - 1]) + files[|files| - 1].rows
  }

  function SourceRows(source: Source): seq<Row> {
    match source
    case Table(rows) => rows
    case Archive(files) => AllRows(files)
  }

  /** The index tells the truth about the files. */
  ghost predicate SourceOk(source: Source) {
    source.Archive? ==> forall k :: 0 <= k < |source.files| ==> FileOk(source.files[k])
  }

  /** The rows that pruning never loses: all rows of a table, and of an archive those the shift is safe for. */
  function NeverLost(q: Request, source: Source): Row -> bool {
    (r: Row) => source.Table? || ShiftSafe(q, r)
  }

  function ReadBy(q: Request, lo: int, hi: int): File -> bool {
    (f: File) => Indexed(q, f) && InChunk(q, f, lo, hi)
  }

  /** A row that the shift is safe for is selected from the kept files as often as from all of them. */
  lemma {:induction false} PrunedRows(q: Request, files: seq<File>, lo: int, hi: int, r: Row)
    requires SourceOk(Archive(files)) && ShiftSafe(q, r)
    ensures multiset(Filter(AllRows(Filter(files, ReadBy(q, lo, hi))), WantedIn(q, lo, hi)))[r]
         == multiset(Filter(AllRows(files), WantedIn(q, lo, hi)))[r]
  {
    if files != [] {
      var n := |files| - 1;
      var f := files[n];
      var p := WantedIn(q, lo, hi);
      assert SourceOk(Archive(files[..n])) by {
        assert forall k :: 0 <= k < n ==> files[..n][k] == files[k];
      }
      PrunedRows(q, files[..n], lo, hi, r);
      FilterConcat(AllRows(files[..n]), f.rows, p);
      var kept := Filter(files[..n], ReadBy(q, lo, hi));
      if Indexed(q, f) && InChunk(q, f, lo, hi) {
        assert (kept + [f])[..|kept|] == kept;
        FilterConcat(AllRows(kept), f.rows, p);
      } else {
        NotNeeded(q, f, lo, hi, r);
      }
    }
  }

  lemma NotNeeded(q: Request, f: File, lo: int, hi: int, r: Row)
    requires FileOk(f) && ShiftSafe(q, r) && !(Indexed(q, f) && InChunk(q, f, lo, hi))
    ensures multiset(Filter(f.rows, WantedIn(q, lo, hi)))[r] == 0
  {
    FilterCount(f.rows, WantedIn(q, lo, hi), r);
    assert r in f.rows <==> r in multiset(f.rows);
    if r in f.rows && WantedIn(q, lo, hi)(r) {
      PruningKeeps(q, f, r, lo, hi);
    }
  }

  /** Reading fewer files never invents or repeats a row. */
  lemma {:induction false} PrunedSubset(files: seq<File>, p: File -> bool, select: Row -> bool)
    ensures multiset(Filter(AllRows(Filter(files, p)), select)) <= multiset(Filter(AllRows(files), select))
  {
    if files != [] {
      var n := |files| - 1;
      var f := files[n];
      PrunedSubset(files[..n], p, select);
      FilterConcat(AllRows(files[..n]), f.rows, select);
      var kept := Filter(files[..n], p);
      if p(f) {
        assert (kept + [f])[..|kept|] == kept;
        FilterConcat(AllRows(kept), f.rows, select);
      }
    }
  }

  // ---------------------------------------------------------------------------
  // What a load emits, row by row
  // ---------------------------------------------------------------------------

  /** The chunk that asks for what becomes available at time t: chunks start at `q.start`, every `chunk` ms. */
  function ChunkStart(q: Request, chunk: int, t: int): int
    requires chunk >= 1
  {
    q.start + (t - q.start) / chunk * chunk
  }

  function ChunkEnd(q: Request, chunk: int, t: int): int
    requires chunk >= 1
  {
    var hi := ChunkStart(q, chunk, t) + chunk;
    if hi <= q.end + 1001 then hi else q.end + 1001
  }

  /** The chunk that asks for row r reads this file. */
  function ReadFor(q: Request, chunk: int, r: Row): File -> bool
    requires chunk >= 1
  {
    ReadBy(q, ChunkStart(q, chunk, AvailableTime(q, r)), ChunkEnd(q, chunk, AvailableTime(q, r)))
  }

  /** How often the row stands in the files that are read. */
  function CopiesIn(files: seq<File>, isRead: File -> bool, r: Row): nat {
    if files == [] then 0
    else
      var f := files[|files| - 1];
      CopiesIn(files[..|files| - 1], isRead, r) + if isRead(f) then multiset(f.rows)[r] else 0
  }

  /** How often a load with this chunk size emits the row. */
  function Copies(q: Request, source: Source, chunk: int, r: Row): nat
    requires chunk >= 1
  {
    if !Requested(q, r) then 0
    else
      match source
      case Table(rows) => multiset(rows)[r]
      case Archive(files) => CopiesIn(files, ReadFor(q, chunk, r), r)
  }

  /** Exactly what a load emits, at every shift: in order, each row once for each time its chunk reads it. */
  ghost predicate Emits(q: Request, source: Source, chunk: int, out: seq<Row>)
    requires chunk >= 1
  {
    Ordered(out, Key(q)) && forall r :: multiset(out)[r] == Copies(q, source, chunk, r)
  }

  lemma {:induction false} CopiesCounted(files: seq<File>, isRead: File -> bool, select: Row -> bool, r: Row)
    ensures multiset(Filter(AllRows(Filter(files, isRead)), select))[r]
         == if select(r) then CopiesIn(files, isRead, r) else 0
  {
    if files != [] {
      var n := |files| - 1;
      var f := files[n];
      CopiesCounted(files[..n], isRead, select, r);
      var kept := Filter(files[..n], isRead);
      if isRead(f) {
        assert (kept + [f])[..|kept|] == kept;
        FilterConcat(AllRows(kept), f.rows, select);
        FilterCount(f.rows, select, r);
      }
    }
  }

  /** A row that the shift is safe for is emitted as often as it occurs, any other at most as often. */
  lemma {:induction false} CopiesOfFiles(q: Request, files: seq<File>, chunk: int, r: Row)
    requires SourceOk(Archive(files)) && chunk >= 1 && Requested(q, r)
    ensures CopiesIn(files, ReadFor(q, chunk, r), r) <= multiset(AllRows(files))[r]
    ensures ShiftSafe(q, r) ==> CopiesIn(files, ReadFor(q, chunk, r), r) == multiset(AllRows(files))[r]
    decreases |files|
  {
    if files != [] {
      var n := |files| - 1;
      assert SourceOk(Archive(files[..n])) by {
        assert forall k :: 0 <= k < n ==> files[..n][k] == files[k];
      }
      CopiesOfFiles(q, files[..n], chunk, r);
      if r in files[n].rows && ShiftSafe(q, r) {
        var t := AvailableTime(q, r);
        OwnChunk(q, chunk, r);
        PruningKeeps(q, files[n], r, ChunkStart(q, chunk, t), ChunkEnd(q, chunk, t));
      }
    }
  }

  /** A requested row becomes available inside its chunk. */
  lemma OwnChunk(q: Request, chunk: int, r: Row)
    requires chunk >= 1 && Requested(q, r)
    ensures var t := AvailableTime(q, r); ChunkStart(q, chunk, t) <= t < ChunkEnd(q, chunk, t)
  {
    var t := AvailableTime(q, r);
    StreamCoversRequest(q, r);
    Division(t - q.start, chunk);
  }

  lemma Division(a: int, b: int)
    requires b >= 1
    ensures a / b * b <= a < a / b * b + b
  {
    assert a == a / b * b + a % b;
  }

  /** What a load emits answers its request, in full for all rows that the shift is safe for. */
  lemma EmitsAnswers(q: Request, source: Source, chunk: int, out: seq<Row>)
    requires SourceOk(source) && chunk >= 1 && Emits(q, source, chunk, out)
    ensures Answers(q, SourceRows(source), Wanted(q), out, NeverLost(q, source))
  {
    var selected := multiset(Filter(SourceRows(source), Wanted(q)));
    forall r
      ensures multiset(out)[r] <= selected[r]
      ensures NeverLost(q, source)(r) ==> multiset(out)[r] == selected[r]
    {
      FilterCount(SourceRows(source), Wanted(q), r);
      if source.Archive? && Requested(q, r) {
        CopiesOfFiles(q, source.files, chunk, r);
      }
    }
  }

  /** The load of a single file with a single row. */
  lemma OneRowLoad(q: Request, f: File, r: Row, chunk: int)
    requires chunk >= 1 && f.rows == [r] && Requested(q, r)
    ensures Emits(q, Archive([f]), chunk, if ReadFor(q, chunk, r)(f) then [r] else [])
  {
    var out := if ReadFor(q, chunk, r)(f) then [r] else [];
    forall r'
      ensures multiset(out)[r'] == Copies(q, Archive([f]), chunk, r')
    {
      assert [f][..0] == [];
      assert CopiesIn([f], ReadFor(q, chunk, r'), r') == if ReadFor(q, chunk, r')(f) then multiset([r])[r'] else 0;
    }
  }

  // ---------------------------------------------------------------------------
  // Chunks
  // ---------------------------------------------------------------------------

  /** How often the query of the chunk lo..hi returns the row. */
  function ChunkCopies(q: Request, source: Source, lo: int, hi: int, r: Row): nat {
    if !WantedIn(q, lo, hi)(r) then 0
    else
      match source
      case Table(rows) => multiset(rows)[r]
      case Archive(files) => CopiesIn(files, ReadBy(q, lo, hi), r)
  }

  ghost predicate ChunkExact(q: Request, source: Source, lo: int, hi: int, out: seq<Row>) {
    forall r :: multiset(out)[r] == ChunkCopies(q, source, lo, hi, r)
  }

  lemma ChunkSelected(q: Request, source: Source, lo: int, hi: int, out: seq<Row>)
    requires var rows := if source.Table? then source.rows else AllRows(Filter(source.files, ReadBy(q, lo, hi)));
             multiset(out) == multiset(Filter(rows, WantedIn(q, lo, hi)))
    ensures ChunkExact(q, source, lo, hi, out)
  {
    forall r
      ensures multiset(out)[r] == ChunkCopies(q, source, lo, hi, r)
    {
      match source
      case Table(rows) => FilterCount(rows, WantedIn(q, lo, hi), r);
      case Archive(files) => CopiesCounted(files, ReadBy(q, lo, hi), WantedIn(q, lo, hi), r);
    }
  }

  lemma NothingSelected(q: Request, source: Source, lo: int, hi: int)
    requires q.timeframes == {}
    ensures ChunkExact(q, source, lo, hi, [])
  {
  }

  /** The query of one chunk; nothing when no file can contribute. */
  method ExecuteStreamQuery(q: Request, source: Source, lo: int, hi: int) returns (cursor: Option<seq<Row>>)
    requires SourceOk(source)
    ensures Answers(q, SourceRows(source), WantedIn(q, lo, hi), if cursor.None? then [] else cursor.value,
                    NeverLost(q, source))
    ensures ChunkExact(q, source, lo, hi, if cursor.None? then [] else cursor.value)
  {
    if q.timeframes == {} {
      FilterNothing(SourceRows(source), WantedIn(q, lo, hi));
      NothingSelected(q, source, lo, hi);
      return None;
    }
    var rows;
    match source {
      case Table(all) =>
        rows := all;
      case Archive(files) =>
        var kept := Filter(files, ReadBy(q, lo, hi));
        forall r | ShiftSafe(q, r)
          ensures multiset(Filter(AllRows(kept), WantedIn(q, lo, hi)))[r]
               == multiset(Filter(AllRows(files), WantedIn(q, lo, hi)))[r]
        {
          PrunedRows(q, files, lo, hi, r);
        }
        PrunedSubset(files, ReadBy(q, lo, hi), WantedIn(q, lo, hi));
        rows := AllRows(kept);
        if kept == [] {
          ChunkSelected(q, source, lo, hi, []);
          return None;
        }
    }
    var selected := Filter(rows, WantedIn(q, lo, hi));
    KeyIsTotal(q);
    SortOk(selected, Key(q));
    ChunkSelected(q, source, lo, hi, Sort(selected, Key(q)));
    return Some(Sort(selected, Key(q)));
  }

  /** Everything requested becomes available inside the streamed range. */
  lemma StreamCoversRequest(q: Request, r: Row)
    requires Requested(q, r)
    ensures q.start <= AvailableTime(q, r) < q.end + 1001
  {
  }

  lemma WholeStream(q: Request, rows: seq<Row>, out: seq<Row>, sure: Row -> bool)
    requires Answers(q, rows, WantedIn(q, q.start, q.end + 1001), out, sure)
    ensures Answers(q, rows, Wanted(q), out, sure)
  {
    SameFilter(rows, WantedIn(q, q.start, q.end + 1001), Wanted(q));
  }

  lemma {:induction false} SameFilter(rows: seq<Row>, p: Row -> bool, p': Row -> bool)
    requires forall r :: p(r) == p'(r)
    ensures Filter(rows, p) == Filter(rows, p')
  {
    if rows != [] {
      SameFilter(rows[..|rows| - 1], p, p');
    }
  }

  /** Answers for two adjacent windows, one after the other, answer the joint window. */
  lemma ChunksJoin(q: Request, rows: seq<Row>, lo: int, mid: int, hi: int, a: seq<Row>, b: seq<Row>, sure: Row -> bool)
    requires lo <= mid <= hi
    requires Answers(q, rows, WantedIn(q, lo, mid), a, sure) && Answers(q, rows, WantedIn(q, mid, hi), b, sure)
    ensures Answers(q, rows, WantedIn(q, lo, hi), a + b, sure)
  {
    SelectionsJoin(q, rows, lo, mid, hi);
    InWindow(q, rows, lo, mid, a, sure);
    InWindow(q, rows, mid, hi, b, sure);
    var le := Key(q);
    forall i, j | 0 <= i < j < |a + b|
      ensures le((a + b)[i], (a + b)[j])
    {
      if i < |a| <= j {
        assert a[i] in a && b[j - |a|] in b;
      }
    }
  }

  lemma {:induction false} SelectionsJoin(q: Request, rows: seq<Row>, lo: int, mid: int, hi: int)
    requires lo <= mid <= hi
    ensures multiset(Filter(rows, WantedIn(q, lo, hi)))
         == multiset(Filter(rows, WantedIn(q, lo, mid))) + multiset(Filter(rows, WantedIn(q, mid, hi)))
  {
    forall r
      ensures multiset(Filter(rows, WantedIn(q, lo, hi)))[r]
           == multiset(Filter(rows, WantedIn(q, lo, mid)))[r] + multiset(Filter(rows, WantedIn(q, mid, hi)))[r]
    {
      FilterCount(rows, WantedIn(q, lo, hi), r);
      FilterCount(rows, WantedIn(q, lo, mid), r);
      FilterCount(rows, WantedIn(q, mid, hi), r);
    }
  }

  lemma InWindow(q: Request, rows: seq<Row>, lo: int, hi: int, out: seq<Row>, sure: Row -> bool)
    requires Answers(q, rows, WantedIn(q, lo, hi), out, sure)
    ensures forall r :: r in out ==> lo <= AvailableTime(q, r) < hi
  {
    forall r | r in out
      ensures lo <= AvailableTime(q, r) < hi
    {
      assert r in multiset(out);
      FilterCount(rows, WantedIn(q, lo, hi), r);
    }
  }

  // ---------------------------------------------------------------------------
  // The stream
  // ---------------------------------------------------------------------------

  type StreamKey = (string, string)

  function KeyOf(r: Row): StreamKey {
    (r.symbol, r.timeframe)
  }

  function CountKey(rows: seq<Row>, k: StreamKey): nat {
    if rows == [] then 0 else CountKey(rows[..|rows| - 1], k) + if KeyOf(rows[|rows| - 1]) == k then 1 else 0
  }

  function RowsOf(events: seq<Emitted>): seq<Row> {
    seq(|events|, i requires 0 <= i < |events| => events[i].row)
  }

  /** Each stream numbers its events 0, 1, 2, ... */
  ghost predicate Numbered(events: seq<Emitted>) {
    forall i :: 0 <= i < |events| ==> events[i].sequence == CountKey(RowsOf(events)[..i], KeyOf(events[i].row))
  }

  ghost predicate CountersOk(events: seq<Emitted>, next: map<StreamKey, nat>) {
    forall k :: (if k in next then next[k] else 0) == CountKey(RowsOf(events), k)
  }

  lemma EmitOk(events: seq<Emitted>, next: map<StreamKey, nat>, r: Row)
    requires Numbered(events) && CountersOk(events, next)
    ensures var k := KeyOf(r);
            var n := if k in next then next[k] else 0;
            var events' := events + [Emitted(r, n)];
            && RowsOf(events') == RowsOf(events) + [r]
            && Numbered(events') && CountersOk(events', next[k := n + 1])
  {
    var k := KeyOf(r);
    var n := if k in next then next[k] else 0;
    var events' := events + [Emitted(r, n)];
    assert RowsOf(events') == RowsOf(events) + [r];
    assert RowsOf(events')[..|events|] == RowsOf(events);
    forall i | 0 <= i < |events|
      ensures RowsOf(events')[..i] == RowsOf(events)[..i]
    {
    }
    forall k'
      ensures (if k' in next[k := n + 1] then next[k := n + 1][k'] else 0) == CountKey(RowsOf(events'), k')
    {
      assert (if k' in next then next[k'] else 0) == CountKey(RowsOf(events), k');
    }
  }

  /** Drain one cursor in batches, numbering rows per stream. */
  method EmitCursor(cursor: seq<Row>, batch: int, events: seq<Emitted>, next: map<StreamKey, nat>)
    returns (events': seq<Emitted>, next': map<StreamKey, nat>)
    requires batch > 0 && Numbered(events) && CountersOk(events, next)
    ensures Numbered(events') && CountersOk(events', next')
    ensures RowsOf(events') == RowsOf(events) + cursor
  {
    hide Numbered, CountersOk;
    events', next' := events, next;
    var pos := 0;
    assert RowsOf(events') == RowsOf(events) + cursor[..0];
    while pos < |cursor|
      invariant 0 <= pos <= |cursor|
      invariant Numbered(events') && CountersOk(events', next')
      invariant RowsOf(events') == RowsOf(events) + cursor[..pos]
    {
      var stop := if pos + batch <= |cursor| then pos + batch else |cursor|;
      var rows := cursor[pos..stop];
      for i := 0 to |rows|
        invariant Numbered(events') && CountersOk(events', next')
        invariant RowsOf(events') == RowsOf(events) + cursor[..pos + i]
      {
        var row := rows[i];
        var key := KeyOf(row);
        var sequence := if key in next' then next'[key] else 0;
        EmitOk(events', next', row);
        next' := next'[key := sequence + 1];
        events' := events' + [Emitted(row, sequence)];
        assert cursor[..pos + i + 1] == cursor[..pos + i] + [row];
      }
      pos := stop;
    }
    assert cursor[..pos] == cursor;
  }

  /** A chunk has at least a millisecond. */
  function ChunkMs(chunkHours: real): (ms: int)
    ensures ms >= 1
    ensures ms > 1 || chunkHours * 3600000.0 >= 1.0 ==> ms as real <= chunkHours * 3600000.0 < ms as real + 1.0
  {
    var ms := (chunkHours * 3600000.0).Floor;
    if ms >= 1 then ms else 1
  }

  /** A refused call, or the stream. */
  datatype Outcome = BadArguments | Streamed(events: seq<Emitted>)

  /**
   The emitted rows answer the whole request, whatever the chunk and batch sizes are: globally
   sorted, no row invented or repeated, and every requested row that the shift is safe for.  What
   is emitted at any other shift is exact as well: a row arrives as often as its chunk reads it.
   */
  method IterAll(q: Request, source: Source, chunkHours: real, batch: int, threads: int) returns (r: Outcome)
    requires q.start < q.end && SourceOk(source)
    ensures r.BadArguments? <==> chunkHours <= 0.0 || batch <= 0 || threads <= 0
    ensures r.Streamed? ==> Answers(q, SourceRows(source), Wanted(q), RowsOf(r.events), NeverLost(q, source))
    ensures r.Streamed? ==> Emits(q, source, ChunkMs(chunkHours), RowsOf(r.events)) && Numbered(r.events)
  {
    if chunkHours <= 0.0 || batch <= 0 || threads <= 0 {
      return BadArguments;
    }
    var events := StreamChunks(q, source, ChunkMs(chunkHours), batch);
    return Streamed(events);
  }

  method StreamChunks(q: Request, source: Source, chunk: int, batch: int) returns (events: seq<Emitted>)
    requires q.start < q.end && SourceOk(source) && chunk >= 1 && batch > 0
    ensures Answers(q, SourceRows(source), Wanted(q), RowsOf(events), NeverLost(q, source))
    ensures Emits(q, source, chunk, RowsOf(events)) && Numbered(events)
  {
    hide Answers, SourceOk, NeverLost, Wanted, WantedIn, Numbered, CountersOk, RowsOf, SourceRows;
    hide Emits, SoFar, ChunkExact, OnGrid;
    var next: map<StreamKey, nat> := map[];
    events := [];
    var streamEnd := q.end + 1001;
    var lo := q.start;
    ghost var rows, sure := SourceRows(source), NeverLost(q, source);
    NothingYet(q, rows, sure);
    NothingSoFar(q, source, chunk);
    while lo < streamEnd
      invariant q.start <= lo <= streamEnd && (lo < streamEnd ==> OnGrid(q, chunk, lo))
      invariant Answers(q, rows, WantedIn(q, q.start, lo), RowsOf(events), sure)
      invariant SoFar(q, source, chunk, lo, RowsOf(events))
      invariant Numbered(events) && CountersOk(events, next)
      decreases streamEnd - lo
    {
      var hi := if lo + chunk <= streamEnd then lo + chunk else streamEnd;
      var cursor := ExecuteStreamQuery(q, source, lo, hi);
      ghost var chunkRows := if cursor.None? then [] else cursor.value;
      ChunksJoin(q, rows, q.start, lo, hi, RowsOf(events), chunkRows, sure);
      SoFarStep(q, source, chunk, lo, hi, RowsOf(events), chunkRows);
      if cursor.None? {
        assert RowsOf(events) + [] == RowsOf(events);
      } else {
        events, next := EmitCursor(cursor.value, batch, events, next);
      }
      lo := hi;
    }
    WholeStream(q, rows, RowsOf(events), sure);
    WholeLoad(q, source, chunk, RowsOf(events), sure);
  }

  /** Chunks start at whole multiples of their size. */
  ghost predicate OnGrid(q: Request, chunk: int, lo: int)
    requires chunk >= 1
  {
    (lo - q.start) / chunk * chunk == lo - q.start
  }

  /** Everything up to the chunk that starts at lo has been emitted as often as it should. */
  ghost predicate SoFar(q: Request, source: Source, chunk: int, lo: int, out: seq<Row>)
    requires chunk >= 1
  {
    forall r :: multiset(out)[r] == if AvailableTime(q, r) < lo then Copies(q, source, chunk, r) else 0
  }

  lemma NothingSoFar(q: Request, source: Source, chunk: int)
    requires chunk >= 1
    ensures SoFar(q, source, chunk, q.start, RowsOf([])) && OnGrid(q, chunk, q.start)
  {
    forall r | Requested(q, r)
      ensures q.start <= AvailableTime(q, r)
    {
      StreamCoversRequest(q, r);
    }
  }

  lemma SoFarStep(q: Request, source: Source, chunk: int, lo: int, hi: int, out: seq<Row>, rows: seq<Row>)
    requires chunk >= 1 && OnGrid(q, chunk, lo) && lo < q.end + 1001
    requires hi == if lo + chunk <= q.end + 1001 then lo + chunk else q.end + 1001
    requires SoFar(q, source, chunk, lo, out) && ChunkExact(q, source, lo, hi, rows)
    ensures SoFar(q, source, chunk, hi, out + rows) && (hi < q.end + 1001 ==> OnGrid(q, chunk, hi))
  {
    forall r
      ensures multiset(out + rows)[r] == if AvailableTime(q, r) < hi then Copies(q, source, chunk, r) else 0
    {
      assert multiset(out + rows)[r] == multiset(out)[r] + multiset(rows)[r];
      assert multiset(rows)[r] == ChunkCopies(q, source, lo, hi, r);
      var t := AvailableTime(q, r);
      if lo <= t < hi {
        Quotient(t - q.start, (lo - q.start) / chunk, chunk);
      }
    }
    Quotient(lo + chunk - q.start, (lo - q.start) / chunk + 1, chunk);
  }

  lemma Quotient(a: int, k: int, b: int)
    requires b >= 1 && k * b <= a < k * b + b
    ensures a / b == k
  {
    var m := a / b - k;
    Division(a, b);
    assert a / b * b == k * b + m * b;
    Multiple(m, b);
  }

  lemma Multiple(m: int, b: int)
    requires b >= 1
    ensures m >= 1 ==> m * b >= b
    ensures m <= -1 ==> m * b <= -b
  {
  }

  lemma WholeLoad(q: Request, source: Source, chunk: int, out: seq<Row>, sure: Row -> bool)
    requires chunk >= 1 && SoFar(q, source, chunk, q.end + 1001, out)
    requires Answers(q, SourceRows(source), Wanted(q), out, sure)
    ensures Emits(q, source, chunk, out)
  {
    forall r
      ensures multiset(out)[r] == Copies(q, source, chunk, r)
    {
      if Requested(q, r) {
        StreamCoversRequest(q, r);
      }
    }
  }

  lemma NothingYet(q: Request, rows: seq<Row>, sure: Row -> bool)
    ensures Answers(q, rows, WantedIn(q, q.start, q.start), RowsOf([]), sure)
    ensures Numbered([]) && CountersOk([], map[])
  {
    FilterNothing(rows, WantedIn(q, q.start, q.start));
  }

  /** The window of a request, written out: seconds by opening time as shifted, candles by closing time. */
  ghost predicate InRequestWindow(q: Request, r: Row) {
    && r.symbol in q.symbols && r.timeframe in q.timeframes
    && if r.timeframe == "1s" then q.start <= r.openTime + q.shift < q.end else q.start <= r.closeTime < q.end
  }

  /** Only rows of the window are emitted, and those that the shift is safe for as often as they occur. */
  lemma StreamWindow(q: Request, source: Source, out: seq<Row>, r: Row)
    requires Answers(q, SourceRows(source), Wanted(q), out, NeverLost(q, source))
    ensures r in out ==> InRequestWindow(q, r) && r in SourceRows(source)
    ensures InRequestWindow(q, r)
            && (source.Table? || r.timeframe == "1s" || -1000 <= q.shift <= r.closeTime + 1 - r.openTime) ==>
              multiset(out)[r] == multiset(SourceRows(source))[r]
  {
    FilterCount(SourceRows(source), Wanted(q), r);
    var sure := NeverLost(q, source)(r);
    assert r in out <==> r in multiset(out);
  }

  /** The seconds of a request arrive in full at every shift, whatever else is requested or archived. */
  lemma SecondsAlwaysComplete(q: Request, source: Source, out: seq<Row>, r: Row)
    requires Answers(q, SourceRows(source), Wanted(q), out, NeverLost(q, source))
    requires r.timeframe == SECOND && Requested(q, r)
    ensures multiset(out)[r] == multiset(SourceRows(source))[r]
  {
    assert NeverLost(q, source)(r);
    FilterCount(SourceRows(source), Wanted(q), r);
  }

  /** The stream is complete for tables, for shifts safe for all requested rows, and for seconds alone. */
  lemma StreamIsComplete(q: Request, source: Source, out: seq<Row>)
    requires Answers(q, SourceRows(source), Wanted(q), out, NeverLost(q, source))
    requires || source.Table? || q.timeframes <= {SECOND}
             || forall r :: r in SourceRows(source) && Requested(q, r) ==> ShiftSafe(q, r)
    ensures IsAnswer(q, SourceRows(source), Wanted(q), out)
  {
    SureIsComplete(q, SourceRows(source), Wanted(q), out, NeverLost(q, source));
  }

  /**
   The order of the stream, written out: by the time a row becomes known (the end of a second in
   shifted time, the millisecond after a candle), seconds before candles, then symbol, opening and
   closing time.
   */
  lemma StreamOrder(q: Request, out: seq<Row>, i: nat, j: nat)
    requires Ordered(out, Key(q)) && i < j < |out|
    ensures var a, b := out[i], out[j];
            var ta := if a.timeframe == "1s" then a.openTime + q.shift + 1000 else a.closeTime + 1;
            var tb := if b.timeframe == "1s" then b.openTime + q.shift + 1000 else b.closeTime + 1;
            && ta <= tb
            && (ta == tb && b.timeframe == "1s" ==> a.timeframe == "1s")
            && (ta == tb && (a.timeframe == "1s") == (b.timeframe == "1s") ==> StringLe(a.symbol, b.symbol))
            && (ta == tb && (a.timeframe == "1s") == (b.timeframe == "1s") && a.symbol == b.symbol ==>
                  a.openTime < b.openTime || (a.openTime == b.openTime && a.closeTime <= b.closeTime))
  {
    var le := Key(q);
    assert le(out[i], out[j]);
    StringLeTotal(out[i].symbol, out[j].symbol);
  }

  /** When no two different requested rows tie on the sort key, the stream is one definite sequence. */
  lemma AnswersAgree(q: Request, rows: seq<Row>, select: Row -> bool, a: seq<Row>, b: seq<Row>)
    requires IsAnswer(q, rows, select, a) && IsAnswer(q, rows, select, b) && Separates(Key(q), a)
    ensures a == b
  {
    OrderedUnique(a, b, Key(q));
  }
}
