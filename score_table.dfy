/** The score table of `scripts/backtesting_stock_analysis.py`: loading a
    symbol's prices with the column check, scoring every in-window day that has
    at least fifty in-window bars behind it, and picking the best-scored symbol
    of a day. */
module ScoreTable {
  import opened Market
  import opened Indicators

  /** The columns `get_stock_data` insists on, in the order it reports them. */
  const RequiredColumns: seq<string> := ["Open", "High", "Low", "Close"]

  /** `a` is `b` with some elements left out, the rest in order. */
  ghost predicate Subsequence<T>(a: seq<T>, b: seq<T>)
    decreases |b|
  {
    a == [] || (b != [] && ((a[0] == b[0] && Subsequence(a[1..], b[1..])) || Subsequence(a, b[1..])))
  }

  /** The list comprehension `[col for col in required if col not in columns]`. */
  function MissingFrom(required: seq<string>, columns: set<string>): (r: seq<string>)
    ensures forall c :: c in r <==> c in required && c !in columns
  {
    if required == [] then []
    else (if required[0] in columns then [] else [required[0]]) + MissingFrom(required[1..], columns)
  }

  /** The missing columns are reported in the order of the required list. */
  lemma {:induction false} MissingInOrder(required: seq<string>, columns: set<string>)
    ensures Subsequence(MissingFrom(required, columns), required)
  {
    if required != [] {
      MissingInOrder(required[1..], columns);
      var rest := MissingFrom(required[1..], columns);
      var r := MissingFrom(required, columns);
      if required[0] !in columns {
        assert r[0] == required[0] && r[1..] == rest;
      } else {
        assert r == rest;
      }
    }
  }

  /** What `get_stock_data` finds: no file (an empty frame and a message), a
      file lacking required columns (an empty frame and a message naming
      them), or the file's contents. */
  datatype StockData = NotFound | MissingColumns(names: seq<string>) | Loaded(file: CsvFile)

  function GetStockData(folder: map<string, CsvFile>, symbol: string): (r: StockData)
    ensures r.NotFound? <==> FileOfSymbol(symbol) !in folder
    ensures r.Loaded? <==> FileOfSymbol(symbol) in folder
                           && forall c :: c in RequiredColumns ==> c in folder[FileOfSymbol(symbol)].columns
    ensures r.Loaded? ==> r.file == folder[FileOfSymbol(symbol)]
    ensures r.MissingColumns? ==>
              && r.names != []
              && Subsequence(r.names, RequiredColumns)
              && forall c :: c in r.names <==> c in RequiredColumns && c !in folder[FileOfSymbol(symbol)].columns
  {
    var path := FileOfSymbol(symbol);
    if path in folder then
      var missing := MissingFrom(RequiredColumns, folder[path].columns);
      MissingInOrder(RequiredColumns, folder[path].columns);
      if missing != [] then
        assert missing[0] in missing;
        MissingColumns(missing)
      else Loaded(folder[path])
    else NotFound
  }

  /** The data frame the callers see: empty unless the file was loaded. */
  function Frame(d: StockData): seq<Bar>
  {
    if d.Loaded? then d.file.bars else []
  }

  /** The frame is empty exactly when the file is missing, lacks a required
      column, or has no rows. */
  lemma FrameEmptyIff(folder: map<string, CsvFile>, symbol: string)
    ensures Frame(GetStockData(folder, symbol)) == [] <==>
              || FileOfSymbol(symbol) !in folder
              || (exists c :: c in RequiredColumns && c !in folder[FileOfSymbol(symbol)].columns)
              || folder[FileOfSymbol(symbol)].bars == []
  {
  }

  // ---- building the table ----

  datatype ScoreRow = ScoreRow(date: int, symbol: string, score: real)

  /** The row appended for the `i`-th in-window bar, if any: the history is the
      in-window data up to that bar's date; a missing `Volume` column makes the
      volume analyzer raise, which the per-day handler swallows. */
  function RowAt(symbol: string, file: CsvFile, window: seq<Bar>, i: nat, ta: seq<Bar> -> Series): seq<ScoreRow>
    requires i < |window| && TaAligned(ta)
  {
    var h := UpTo(window, window[i].date);
    if |h| >= MinHistory && "Volume" in file.columns then
      [ScoreRow(window[i].date, symbol, Composite(ScoreHistory(h, ta(h))))]
    else []
  }

  /** The rows appended for the first `k` in-window bars. */
  function RowsBefore(symbol: string, file: CsvFile, window: seq<Bar>, k: nat, ta: seq<Bar> -> Series): seq<ScoreRow>
    requires k <= |window| && TaAligned(ta)
  {
    if k == 0 then [] else RowsBefore(symbol, file, window, k - 1, ta) + RowAt(symbol, file, window, k - 1, ta)
  }

  /** The rows one directory entry contributes. An unloadable file gives an
      empty frame, whose date mask is empty under pandas 1.x. */
  function FileRows(name: string, folder: map<string, CsvFile>, start: int, end: int, ta: seq<Bar> -> Series): seq<ScoreRow>
    requires TaAligned(ta)
  {
    if !EndsWith(name, ".csv") then []
    else
      var symbol := SymbolOfFile(name);
      var data := GetStockData(folder, symbol);
      if !data.Loaded? then []
      else
        var window := Between(data.file.bars, start, end);
        if |window| < MinHistory then [] else RowsBefore(symbol, data.file, window, |window|, ta)
  }

  lemma FileRowsCases(name: string, folder: map<string, CsvFile>, start: int, end: int, ta: seq<Bar> -> Series)
    requires TaAligned(ta)
    ensures !EndsWith(name, ".csv") ==> FileRows(name, folder, start, end, ta) == []
    ensures EndsWith(name, ".csv") && !GetStockData(folder, SymbolOfFile(name)).Loaded? ==> FileRows(name, folder, start, end, ta) == []
    ensures EndsWith(name, ".csv") && GetStockData(folder, SymbolOfFile(name)).Loaded? ==>
              var file := GetStockData(folder, SymbolOfFile(name)).file;
              var window := Between(file.bars, start, end);
              FileRows(name, folder, start, end, ta)
                == if |window| < MinHistory then [] else RowsBefore(SymbolOfFile(name), file, window, |window|, ta)
  {
  }

  /** The table `load_and_score_stock_data` returns for a directory listing. */
  function ScoreTableOf(listing: seq<string>, folder: map<string, CsvFile>, start: int, end: int, ta: seq<Bar> -> Series): seq<ScoreRow>
    requires TaAligned(ta)
  {
    if listing == [] then []
    else ScoreTableOf(listing[..|listing| - 1], folder, start, end, ta) + FileRows(Last(listing), folder, start, end, ta)
  }

  /** The per-file body of the loop: the rows one directory entry adds. */
  method ScoreFile(name: string, folder: map<string, CsvFile>, start: int, end: int, ta: seq<Bar> -> Series)
    returns (rows: seq<ScoreRow>)
    requires TaAligned(ta)
    ensures rows == FileRows(name, folder, start, end, ta)
  {
    FileRowsCases(name, folder, start, end, ta);
    rows := [];
    if !EndsWith(name, ".csv") {
      assert rows == FileRows(name, folder, start, end, ta);
      return;
    }
    var symbol := SymbolOfFile(name);
    var data := GetStockData(folder, symbol);
    if !data.Loaded? {
      assert rows == FileRows(name, folder, start, end, ta);
      return;   // the empty frame's mask is empty under pandas 1.x
    }
    var window := Between(data.file.bars, start, end);
    if |window| < MinHistory {
      assert rows == FileRows(name, folder, start, end, ta);
      return;
    }
    assert FileRows(name, folder, start, end, ta) == RowsBefore(symbol, data.file, window, |window|, ta);
    rows := ScoreWindow(symbol, data.file, window, ta);
  }

  /** One step of the per-date loop, stated on the loop's own locals. */
  lemma RowsStep(symbol: string, file: CsvFile, window: seq<Bar>, i: nat, ta: seq<Bar> -> Series, h: seq<Bar>)
    requires i < |window| && TaAligned(ta)
    requires h == UpTo(window, window[i].date)
    ensures RowsBefore(symbol, file, window, i + 1, ta)
              == RowsBefore(symbol, file, window, i, ta)
                 + if |h| >= MinHistory && "Volume" in file.columns
                   then [ScoreRow(window[i].date, symbol, Composite(ScoreHistory(h, ta(h))))] else []
  {
  }

  /** The per-date loop over one file's in-window rows. */
  method ScoreWindow(symbol: string, file: CsvFile, window: seq<Bar>, ta: seq<Bar> -> Series)
    returns (rows: seq<ScoreRow>)
    requires TaAligned(ta)
    ensures rows == RowsBefore(symbol, file, window, |window|, ta)
  {
    rows := [];
    var i := 0;
    while i < |window|
      invariant 0 <= i <= |window|
      invariant rows == RowsBefore(symbol, file, window, i, ta)
    {
      var h := UpTo(window, window[i].date);
      RowsStep(symbol, file, window, i, ta, h);
      if |h| >= MinHistory && "Volume" in file.columns {
        var series := ta(h);
        var score := Composite(ScoreHistory(h, series));
        rows := rows + [ScoreRow(window[i].date, symbol, score)];
      }
      i := i + 1;
    }
    assert i == |window|;
  }

  /** `load_and_score_stock_data`: every `.csv` entry of the listing, in
      listing order, each symbol's rows in the order of its file. */
  method LoadAndScore(listing: seq<string>, folder: map<string, CsvFile>, start: int, end: int, ta: seq<Bar> -> Series)
    returns (rows: seq<ScoreRow>)
    requires TaAligned(ta)
    ensures rows == ScoreTableOf(listing, folder, start, end, ta)
  {
    rows := [];
    var f := 0;
    while f < |listing|
      invariant 0 <= f <= |listing|
      invariant rows == ScoreTableOf(listing[..f], folder, start, end, ta)
    {
      assert listing[..f + 1][..f] == listing[..f];
      assert ScoreTableOf(listing[..f + 1], folder, start, end, ta)
          == ScoreTableOf(listing[..f], folder, start, end, ta) + FileRows(listing[f], folder, start, end, ta);
      var more := ScoreFile(listing[f], folder, start, end, ta);
      rows := rows + more;
      f := f + 1;
    }
    assert listing[..|listing|] == listing;
  }

  // ---- what every row satisfies ----

  /** A row for `symbol` on `date` is backed by at least fifty in-window bars
      of that symbol dated on or before it, one of them on that very date. */
  ghost predicate Backed(row: ScoreRow, folder: map<string, CsvFile>, start: int, end: int)
  {
    && start <= row.date <= end
    && 1.0 <= row.score <= 5.0
    && FileOfSymbol(row.symbol) in folder
    && var window := Between(folder[FileOfSymbol(row.symbol)].bars, start, end);
       && |window| >= MinHistory
       && |UpTo(window, row.date)| >= MinHistory
       && exists b :: b in window && b.date == row.date
  }

  lemma {:induction false} RowsBeforeBacked(symbol: string, file: CsvFile, window: seq<Bar>, k: nat,
                                            ta: seq<Bar> -> Series, folder: map<string, CsvFile>, start: int, end: int)
    requires k <= |window| && TaAligned(ta)
    requires FileOfSymbol(symbol) in folder && folder[FileOfSymbol(symbol)] == file
    requires window == Between(file.bars, start, end) && |window| >= MinHistory
    ensures forall row :: row in RowsBefore(symbol, file, window, k, ta) ==> row.symbol == symbol && Backed(row, folder, start, end)
  {
    if k > 0 {
      RowsBeforeBacked(symbol, file, window, k - 1, ta, folder, start, end);
      var h := UpTo(window, window[k - 1].date);
      RowsStep(symbol, file, window, k - 1, ta, h);
      if |h| >= MinHistory && "Volume" in file.columns {
        CompositeInRange(h, ta(h));
        BetweenMembers(file.bars, start, end);
        assert window[k - 1] in window;
        assert Backed(ScoreRow(window[k - 1].date, symbol, Composite(ScoreHistory(h, ta(h)))), folder, start, end);
      }
    }
  }

  /** Every row of the table lies in [start, end], scores within [1, 5], and
      is backed by fifty in-window bars of its symbol up to its date; so a
      symbol with fewer than fifty in-window bars contributes nothing. */
  lemma {:induction false} TableRowsBacked(listing: seq<string>, folder: map<string, CsvFile>, start: int, end: int, ta: seq<Bar> -> Series)
    requires TaAligned(ta)
    ensures forall row :: row in ScoreTableOf(listing, folder, start, end, ta) ==> Backed(row, folder, start, end)
  {
    if listing != [] {
      TableRowsBacked(listing[..|listing| - 1], folder, start, end, ta);
      var name := Last(listing);
      if EndsWith(name, ".csv") {
        var symbol := SymbolOfFile(name);
        var data := GetStockData(folder, symbol);
        if data.Loaded? {
          var window := Between(data.file.bars, start, end);
          if |window| >= MinHistory {
            RowsBeforeBacked(symbol, data.file, window, |window|, ta, folder, start, end);
          }
        }
      }
    }
  }

  // ---- no look-ahead ----

  /** Bars dated after the `i`-th in-window bar, added after the window,
      leave that bar's row unchanged. */
  lemma RowAtIgnoresLaterBars(symbol: string, file: CsvFile, window: seq<Bar>, later: seq<Bar>, i: nat, ta: seq<Bar> -> Series)
    requires i < |window| && TaAligned(ta)
    requires forall b :: b in later ==> b.date > window[i].date
    ensures RowAt(symbol, file, window + later, i, ta) == RowAt(symbol, file, window, i, ta)
  {
    assert (window + later)[i] == window[i];
    UpToIgnoresLaterRows(window, later, window[i].date);
  }

  /** A row scores the in-window history of its symbol up to its own date. */
  ghost predicate ScoredUpTo(row: ScoreRow, folder: map<string, CsvFile>, start: int, end: int, ta: seq<Bar> -> Series)
    requires TaAligned(ta)
  {
    && FileOfSymbol(row.symbol) in folder
    && var h := UpTo(Between(folder[FileOfSymbol(row.symbol)].bars, start, end), row.date);
       row.score == Composite(ScoreHistory(h, ta(h)))
  }

  lemma {:induction false} RowsBeforeScored(symbol: string, file: CsvFile, window: seq<Bar>, k: nat,
                                            ta: seq<Bar> -> Series, folder: map<string, CsvFile>, start: int, end: int)
    requires k <= |window| && TaAligned(ta)
    requires FileOfSymbol(symbol) in folder && folder[FileOfSymbol(symbol)] == file
    requires window == Between(file.bars, start, end)
    ensures forall row :: row in RowsBefore(symbol, file, window, k, ta) ==> row.symbol == symbol && ScoredUpTo(row, folder, start, end, ta)
  {
    if k > 0 {
      RowsBeforeScored(symbol, file, window, k - 1, ta, folder, start, end);
      var h := UpTo(window, window[k - 1].date);
      RowsStep(symbol, file, window, k - 1, ta, h);
      if |h| >= MinHistory && "Volume" in file.columns {
        assert ScoredUpTo(ScoreRow(window[k - 1].date, symbol, Composite(ScoreHistory(h, ta(h)))), folder, start, end, ta);
      }
    }
  }

  /** Every row of the table scores the in-window history of its symbol up
      to the row's date, and nothing later. */
  lemma {:induction false} TableRowsScored(listing: seq<string>, folder: map<string, CsvFile>, start: int, end: int, ta: seq<Bar> -> Series)
    requires TaAligned(ta)
    ensures forall row :: row in ScoreTableOf(listing, folder, start, end, ta) ==> ScoredUpTo(row, folder, start, end, ta)
  {
    if listing != [] {
      TableRowsScored(listing[..|listing| - 1], folder, start, end, ta);
      var name := Last(listing);
      if EndsWith(name, ".csv") {
        var symbol := SymbolOfFile(name);
        var data := GetStockData(folder, symbol);
        if data.Loaded? {
          var window := Between(data.file.bars, start, end);
          if |window| >= MinHistory {
            RowsBeforeScored(symbol, data.file, window, |window|, ta, folder, start, end);
          }
        }
      }
    }
  }

  /** What a row's score depends on: two folders whose files for the row's
      symbol agree on the bars dated up to the row's date give that row the
      same score, whatever their later bars are. */
  lemma ScoreIgnoresLaterBars(row: ScoreRow, folder: map<string, CsvFile>, other: map<string, CsvFile>,
                              start: int, end: int, ta: seq<Bar> -> Series)
    requires TaAligned(ta)
    requires FileOfSymbol(row.symbol) in folder && FileOfSymbol(row.symbol) in other
    requires UpTo(folder[FileOfSymbol(row.symbol)].bars, row.date) == UpTo(other[FileOfSymbol(row.symbol)].bars, row.date)
    ensures ScoredUpTo(row, folder, start, end, ta) <==> ScoredUpTo(row, other, start, end, ta)
  {
    UpToBetween(folder[FileOfSymbol(row.symbol)].bars, start, end, row.date);
    UpToBetween(other[FileOfSymbol(row.symbol)].bars, start, end, row.date);
  }

  /** A bar contributes at most one row, dated on that bar. */
  lemma RowAtDated(symbol: string, file: CsvFile, window: seq<Bar>, i: nat, ta: seq<Bar> -> Series)
    requires i < |window| && TaAligned(ta)
    ensures |RowAt(symbol, file, window, i, ta)| <= 1
    ensures forall r :: 0 <= r < |RowAt(symbol, file, window, i, ta)| ==> RowAt(symbol, file, window, i, ta)[r].date == window[i].date
  {
  }

  /** None of a symbol's rows is dated after the last bar scanned. */
  lemma {:induction false} RowsBeforeBounded(symbol: string, file: CsvFile, window: seq<Bar>, k: nat, ta: seq<Bar> -> Series)
    requires 0 < k <= |window| && TaAligned(ta) && Chronological(window)
    ensures forall i :: 0 <= i < |RowsBefore(symbol, file, window, k, ta)| ==>
              RowsBefore(symbol, file, window, k, ta)[i].date <= window[k - 1].date
  {
    var prev := RowsBefore(symbol, file, window, k - 1, ta);
    RowAtDated(symbol, file, window, k - 1, ta);
    if k > 1 {
      RowsBeforeBounded(symbol, file, window, k - 1, ta);
      assert window[k - 2].date < window[k - 1].date;
    }
    AppendRowOn(prev, RowAt(symbol, file, window, k - 1, ta), window[k - 1].date);
  }

  lemma AppendRowOn(prev: seq<ScoreRow>, extra: seq<ScoreRow>, date: int)
    requires forall i :: 0 <= i < |prev| ==> prev[i].date < date
    requires forall i :: 0 <= i < |extra| ==> extra[i].date == date
    ensures forall i :: 0 <= i < |prev + extra| ==> (prev + extra)[i].date <= date
  {
  }

  /** On a chronological file a symbol's rows are appended in strictly
      increasing date order. */
  lemma {:induction false} RowsBeforeInDateOrder(symbol: string, file: CsvFile, window: seq<Bar>, k: nat, ta: seq<Bar> -> Series)
    requires k <= |window| && TaAligned(ta) && Chronological(window)
    ensures forall i, j :: 0 <= i < j < |RowsBefore(symbol, file, window, k, ta)| ==>
              RowsBefore(symbol, file, window, k, ta)[i].date < RowsBefore(symbol, file, window, k, ta)[j].date
  {
    if k > 0 {
      RowsBeforeInDateOrder(symbol, file, window, k - 1, ta);
      var prev := RowsBefore(symbol, file, window, k - 1, ta);
      RowAtDated(symbol, file, window, k - 1, ta);
      if k > 1 {
        RowsBeforeBounded(symbol, file, window, k - 1, ta);
        assert window[k - 2].date < window[k - 1].date;
      }
      AppendLaterRow(prev, RowAt(symbol, file, window, k - 1, ta), window[k - 1].date);
    }
  }

  /** Appending at most one row dated after every earlier row keeps the
      dates strictly increasing. */
  lemma AppendLaterRow(prev: seq<ScoreRow>, extra: seq<ScoreRow>, date: int)
    requires forall i, j :: 0 <= i < j < |prev| ==> prev[i].date < prev[j].date
    requires forall i :: 0 <= i < |prev| ==> prev[i].date < date
    requires |extra| <= 1 && forall i :: 0 <= i < |extra| ==> extra[i].date == date
    ensures forall i, j :: 0 <= i < j < |prev + extra| ==> (prev + extra)[i].date < (prev + extra)[j].date
  {
    var rows := prev + extra;
    forall i, j | 0 <= i < j < |rows| ensures rows[i].date < rows[j].date {
      assert rows[i] == prev[i];
      if j >= |prev| {
        assert rows[j] == extra[0];
      }
    }
  }

  // ---- selecting the best symbol of a day ----

  /** `get_best_stock`: a row of that date with the highest score, or nothing
      when no row has that date. Among equal scores it keeps the earliest row;
      the script's sort leaves ties to pandas. */
  function GetBestStock(date: int, table: seq<ScoreRow>): (r: Option<ScoreRow>)
    ensures r.None? <==> forall row :: row in table ==> row.date != date
    ensures r.Some? ==> r.value in table && r.value.date == date
    ensures r.Some? ==> forall row :: row in table && row.date == date ==> row.score <= r.value.score
  {
    if table == [] then None
    else
      var rest := GetBestStock(date, table[1..]);
      if table[0].date != date then rest
      else if rest.Some? && rest.value.score > table[0].score then rest
      else Some(table[0])
  }
}
