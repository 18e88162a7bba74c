/** The per-symbol scan of `scripts/analyze_all_stocks.py` and of its variant
    `scripts/analyze_all_stock_past.py`: every `.csv` price file of a folder is
    scored with the five analyzers, given its description and a Yahoo Finance
    link, and the records are saved ordered by total score, best first. The
    variant first cuts every file down to the rows dated on or before a
    selected day. */
module Analysis {
  import opened Market
  import opened Indicators
  import opened Descriptions
  import opened Ranking

  /** The columns the five analyzers read. A file without one of them makes
      an analyzer raise, and `process_stock_file` swallows the error. */
  const AnalyzerColumns: set<string> := {"Close", "High", "Low", "Volume"}

  const YahooLookup := "https://finance.yahoo.com/lookup/?s="

  /** `f'https://finance.yahoo.com/lookup/?s={symbol}'`. */
  function LinkFor(symbol: string): string
  {
    YahooLookup + symbol
  }

  /** One dictionary of `analysis_results`. */
  datatype Record = Record(symbol: string, description: string, scores: Scores, total: real, link: string)

  /** The record of a symbol whose history `h` is scored. */
  function Scored(symbol: string, descriptions: map<string, string>, h: seq<Bar>, s: Series): Record
    requires AlignedWith(s, |h|)
  {
    var sc := ScoreHistory(h, s);
    Record(symbol, DescriptionFor(descriptions, symbol), sc, Composite(sc), LinkFor(symbol))
  }

  /** The file a listing entry names, if it can be read. */
  function FileAt(folder: map<string, CsvFile>, name: string): Option<CsvFile>
  {
    if name in folder then Some(folder[name]) else None
  }

  /** A file `process_stock_file` scores: readable, at least fifty rows, and
      every column the analyzers read. */
  predicate Scorable(file: Option<CsvFile>)
  {
    file.Some? && |file.value.bars| >= MinHistory && AnalyzerColumns <= file.value.columns
  }

  /** What `process_stock_file` appends for one file: the scored record, or
      nothing when the file is not scorable. */
  function Processed(file: Option<CsvFile>, symbol: string, descriptions: map<string, string>,
                     ta: seq<Bar> -> Series): seq<Record>
    requires TaAligned(ta)
  {
    if Scorable(file) then [Scored(symbol, descriptions, file.value.bars, ta(file.value.bars))] else []
  }

  /** At most one record per file, and one exactly for a scorable file: a
      file that cannot be read, is shorter than fifty rows or lacks a column
      contributes nothing. */
  lemma ProcessedCount(file: Option<CsvFile>, symbol: string, descriptions: map<string, string>,
                       ta: seq<Bar> -> Series)
    requires TaAligned(ta)
    ensures |Processed(file, symbol, descriptions, ta)| == if Scorable(file) then 1 else 0
    ensures file.Some? && |file.value.bars| < MinHistory ==> Processed(file, symbol, descriptions, ta) == []
  {
  }

  /** The record carries the symbol, the mean of its five analyzer scores
      (hence a total in [1, 5]), the listed description or the default one,
      and the lookup link ending in the symbol. */
  lemma ProcessedRecord(file: Option<CsvFile>, symbol: string, descriptions: map<string, string>,
                        ta: seq<Bar> -> Series)
    requires TaAligned(ta) && Scorable(file)
    ensures var r := Processed(file, symbol, descriptions, ta)[0];
            var h := file.value.bars;
            && r.symbol == symbol
            && r.scores == ScoreHistory(h, ta(h))
            && r.total * 5.0 == (r.scores.ema + r.scores.rsi + r.scores.adx + r.scores.donchian + r.scores.volume) as real
            && 1.0 <= r.total <= 5.0
            && (symbol in descriptions ==> r.description == descriptions[symbol])
            && (symbol !in descriptions ==> r.description == NoDescription)
            && r.link[..|YahooLookup|] == YahooLookup && r.link[|YahooLookup|..] == symbol
  {
    var h := file.value.bars;
    CompositeInRange(h, ta(h));
  }

  // ---- the selected-day variant ----

  /** `filter_data_up_to_selected_day` applied to a whole file. */
  function FileUpTo(file: CsvFile, day: int): CsvFile
  {
    CsvFile(file.columns, UpTo(file.bars, day))
  }

  /** What the variant's `process_stock_file` appends: the plain rule on the
      rows dated on or before the selected day. Its extra emptiness test is
      covered by the fifty-row test. */
  function ProcessedUpTo(file: Option<CsvFile>, symbol: string, descriptions: map<string, string>,
                         day: int, ta: seq<Bar> -> Series): seq<Record>
    requires TaAligned(ta)
  {
    Processed(if file.Some? then Some(FileUpTo(file.value, day)) else None, symbol, descriptions, ta)
  }

  /** Nothing is appended when no row, or fewer than fifty rows, are dated
      on or before the selected day. */
  lemma ProcessedUpToSkips(file: CsvFile, symbol: string, descriptions: map<string, string>,
                           day: int, ta: seq<Bar> -> Series)
    requires TaAligned(ta) && |UpTo(file.bars, day)| < MinHistory
    ensures ProcessedUpTo(Some(file), symbol, descriptions, day, ta) == []
  {
  }

  /** No look-ahead: rows dated after the selected day cannot change what is
      appended. */
  lemma ProcessedUpToIgnoresLaterRows(columns: set<string>, before: seq<Bar>, later: seq<Bar>, symbol: string,
                                      descriptions: map<string, string>, day: int, ta: seq<Bar> -> Series)
    requires TaAligned(ta)
    requires forall b :: b in later ==> b.date > day
    ensures ProcessedUpTo(Some(CsvFile(columns, before + later)), symbol, descriptions, day, ta)
         == ProcessedUpTo(Some(CsvFile(columns, before)), symbol, descriptions, day, ta)
  {
    UpToIgnoresLaterRows(before, later, day);
  }

  // ---- the results list ----

  /** `analysis_results`, the list `process_stock_file` appends to in place. */
  class ResultList {
    var records: seq<Record>

    constructor ()
      ensures records == []
    {
      records := [];
    }

    /** `process_stock_file`: the length check, the five analyzers, the mean,
        the description and the link, then the append, which is the last
        step, so an error anywhere leaves the list as it was. */
    method ProcessStockFile(file: Option<CsvFile>, symbol: string, descriptions: map<string, string>,
                            ta: seq<Bar> -> Series)
      requires TaAligned(ta)
      modifies this
      ensures records == old(records) + Processed(file, symbol, descriptions, ta)
    {
      if file.None? {
        return;  // read_csv raises
      }
      var data := file.value;
      if |data.bars| < MinHistory {
        return;
      }
      if !(AnalyzerColumns <= data.columns) {
        return;  // an analyzer raises KeyError
      }
      var series := ta(data.bars);
      var ema := AnalyzeEma(data.bars, series);
      var rsi := AnalyzeRsi(data.bars, series);
      var adx := AnalyzeAdx(data.bars, series);
      var donchian := AnalyzeDonchian(data.bars, series);
      var volume := AnalyzeVolume(data.bars);
      var total := TotalScore(ema.score, rsi.score, adx.score, donchian.score, volume.score);
      var description := DescriptionFor(descriptions, symbol);
      var link := LinkFor(symbol);
      records := records + [Record(symbol, description, Scores(ema.score, rsi.score, adx.score, donchian.score, volume.score),
                                   total, link)];
    }

    /** The selected-day `process_stock_file`: filter, then the same steps. */
    method ProcessStockFileUpTo(file: Option<CsvFile>, symbol: string, descriptions: map<string, string>,
                                day: int, ta: seq<Bar> -> Series)
      requires TaAligned(ta)
      modifies this
      ensures records == old(records) + ProcessedUpTo(file, symbol, descriptions, day, ta)
    {
      if file.None? {
        return;
      }
      var data := FileUpTo(file.value, day);
      if data.bars == [] || |data.bars| < MinHistory {
        return;
      }
      ProcessStockFile(Some(data), symbol, descriptions, ta);
    }
  }

  // ---- the folder scan ----

  /** The records the main loop has appended after the first `k` listing
      entries; entries not ending in `.csv` are skipped. */
  function Scan(listing: seq<string>, k: nat, folder: map<string, CsvFile>, descriptions: map<string, string>,
                ta: seq<Bar> -> Series): seq<Record>
    requires k <= |listing| && TaAligned(ta)
  {
    if k == 0 then []
    else
      var name := listing[k - 1];
      Scan(listing, k - 1, folder, descriptions, ta)
        + if EndsWith(name, ".csv") then Processed(FileAt(folder, name), SymbolOfFile(name), descriptions, ta) else []
  }

  /** Every record of the scan was scored from a scorable `.csv` file of the
      listing, under the symbol its name gives, with a total in [1, 5]. */
  lemma {:induction false} ScanBacked(listing: seq<string>, k: nat, folder: map<string, CsvFile>,
                                      descriptions: map<string, string>, ta: seq<Bar> -> Series, i: nat)
    requires k <= |listing| && TaAligned(ta) && i < |Scan(listing, k, folder, descriptions, ta)|
    ensures var r := Scan(listing, k, folder, descriptions, ta)[i];
            && 1.0 <= r.total <= 5.0
            && exists j :: 0 <= j < k && EndsWith(listing[j], ".csv") && Scorable(FileAt(folder, listing[j]))
                           && r == Scored(SymbolOfFile(listing[j]), descriptions, folder[listing[j]].bars,
                                          ta(folder[listing[j]].bars))
  {
    var before := Scan(listing, k - 1, folder, descriptions, ta);
    if i < |before| {
      ScanBacked(listing, k - 1, folder, descriptions, ta, i);
    } else {
      var name := listing[k - 1];
      CompositeInRange(folder[name].bars, ta(folder[name].bars));
    }
  }

  /** The scan has at most one record per `.csv` entry. */
  lemma {:induction false} ScanLength(listing: seq<string>, k: nat, folder: map<string, CsvFile>,
                                      descriptions: map<string, string>, ta: seq<Bar> -> Series)
    requires k <= |listing| && TaAligned(ta)
    ensures |Scan(listing, k, folder, descriptions, ta)| <= |CsvNames(listing, k)|
  {
    if k > 0 {
      ScanLength(listing, k - 1, folder, descriptions, ta);
    }
  }

  /** The `.csv` entries among the first `k` of the listing. */
  function CsvNames(listing: seq<string>, k: nat): seq<string>
    requires k <= |listing|
  {
    if k == 0 then [] else CsvNames(listing, k - 1) + if EndsWith(listing[k - 1], ".csv") then [listing[k - 1]] else []
  }

  /** The selected-day variant scans the folder as the plain script scans the
      folder cut down to the selected day. */
  function FolderUpTo(folder: map<string, CsvFile>, day: int): map<string, CsvFile>
  {
    map name | name in folder :: FileUpTo(folder[name], day)
  }

  function ScanUpTo(listing: seq<string>, k: nat, folder: map<string, CsvFile>, descriptions: map<string, string>,
                    day: int, ta: seq<Bar> -> Series): seq<Record>
    requires k <= |listing| && TaAligned(ta)
  {
    if k == 0 then []
    else
      var name := listing[k - 1];
      ScanUpTo(listing, k - 1, folder, descriptions, day, ta)
        + if EndsWith(name, ".csv") then ProcessedUpTo(FileAt(folder, name), SymbolOfFile(name), descriptions, day, ta) else []
  }

  lemma {:induction false} ScanUpToIsScanOfFolderUpTo(listing: seq<string>, k: nat, folder: map<string, CsvFile>,
                                                      descriptions: map<string, string>, day: int, ta: seq<Bar> -> Series)
    requires k <= |listing| && TaAligned(ta)
    ensures ScanUpTo(listing, k, folder, descriptions, day, ta) == Scan(listing, k, FolderUpTo(folder, day), descriptions, ta)
  {
    if k > 0 {
      ScanUpToIsScanOfFolderUpTo(listing, k - 1, folder, descriptions, day, ta);
      var name := listing[k - 1];
      assert FileAt(FolderUpTo(folder, day), name)
          == if name in folder then Some(FileUpTo(folder[name], day)) else None;
    }
  }

  /** The key `sort_values(by='Total Score')` orders by. */
  function TotalOf(r: Record): real
  {
    r.total
  }

  // ---- the scripts' main blocks ----

  lemma ScanStep(listing: seq<string>, i: nat, folder: map<string, CsvFile>, descriptions: map<string, string>,
                 ta: seq<Bar> -> Series)
    requires i < |listing| && TaAligned(ta)
    ensures Scan(listing, i + 1, folder, descriptions, ta) == Scan(listing, i, folder, descriptions, ta)
              + if EndsWith(listing[i], ".csv") then Processed(FileAt(folder, listing[i]), SymbolOfFile(listing[i]), descriptions, ta) else []
  {
  }

  lemma ScanUpToStep(listing: seq<string>, i: nat, folder: map<string, CsvFile>, descriptions: map<string, string>,
                     day: int, ta: seq<Bar> -> Series)
    requires i < |listing| && TaAligned(ta)
    ensures ScanUpTo(listing, i + 1, folder, descriptions, day, ta) == ScanUpTo(listing, i, folder, descriptions, day, ta)
              + if EndsWith(listing[i], ".csv") then ProcessedUpTo(FileAt(folder, listing[i]), SymbolOfFile(listing[i]), descriptions, day, ta) else []
  {
  }

  /** The loop over the `.csv` entries of the listing, appending to a fresh
      results list. */
  method ScanFolder(listing: seq<string>, folder: map<string, CsvFile>, descriptions: map<string, string>,
                    ta: seq<Bar> -> Series)
    returns (records: seq<Record>)
    requires TaAligned(ta)
    ensures records == Scan(listing, |listing|, folder, descriptions, ta)
  {
    var results := new ResultList();
    var i := 0;
    while i < |listing|
      invariant 0 <= i <= |listing|
      invariant results.records == Scan(listing, i, folder, descriptions, ta)
    {
      var name := listing[i];
      ScanStep(listing, i, folder, descriptions, ta);
      if EndsWith(name, ".csv") {
        results.ProcessStockFile(FileAt(folder, name), SymbolOfFile(name), descriptions, ta);
      }
      i := i + 1;
    }
    assert i == |listing|;
    records := results.records;
  }

  /** The same loop with the selected-day `process_stock_file`. */
  method ScanFolderUpTo(listing: seq<string>, folder: map<string, CsvFile>, descriptions: map<string, string>,
                        day: int, ta: seq<Bar> -> Series)
    returns (records: seq<Record>)
    requires TaAligned(ta)
    ensures records == ScanUpTo(listing, |listing|, folder, descriptions, day, ta)
  {
    var results := new ResultList();
    var i := 0;
    while i < |listing|
      invariant 0 <= i <= |listing|
      invariant results.records == ScanUpTo(listing, i, folder, descriptions, day, ta)
    {
      var name := listing[i];
      ScanUpToStep(listing, i, folder, descriptions, day, ta);
      if EndsWith(name, ".csv") {
        results.ProcessStockFileUpTo(FileAt(folder, name), SymbolOfFile(name), descriptions, day, ta);
      }
      i := i + 1;
    }
    assert i == |listing|;
    records := results.records;
  }

  /** The main block of `scripts/analyze_all_stocks.py`: load the
      descriptions (an unsplittable line ends the run), scan the listing,
      sort. `None` is a run that crashed before saving: with no record at
      all the results frame has no `Total Score` column to sort by. */
  method AnalyzeAllStocks(listing: seq<string>, folder: map<string, CsvFile>, descriptionLines: seq<string>,
                          ta: seq<Bar> -> Series)
    returns (saved: Option<seq<Record>>)
    requires TaAligned(ta)
    ensures saved.None? <==> DescriptionFile(descriptionLines).None?
                             || Scan(listing, |listing|, folder, DescriptionFile(descriptionLines).value, ta) == []
    ensures saved.Some? ==>
              && SortedBy(saved.value, TotalOf)
              && multiset(saved.value) == multiset(Scan(listing, |listing|, folder, DescriptionFile(descriptionLines).value, ta))
  {
    var descriptions := LoadStockDescriptions(descriptionLines);
    if descriptions.None? {
      return None;
    }
    var records := ScanFolder(listing, folder, descriptions.value, ta);
    if records == [] {
      return None;  // KeyError: 'Total Score'
    }
    saved := Some(SortBy(records, TotalOf));
  }

  /** The main block of `scripts/analyze_all_stock_past.py`: `None` for the
      selected day is a date that does not parse, and the run exits before
      any file is read; as in the plain script, an empty scan has nothing to
      sort by. */
  method AnalyzeAllStocksUpTo(listing: seq<string>, folder: map<string, CsvFile>, descriptionLines: seq<string>,
                              selectedDay: Option<int>, ta: seq<Bar> -> Series)
    returns (saved: Option<seq<Record>>)
    requires TaAligned(ta)
    ensures selectedDay.None? ==> saved.None?
    ensures selectedDay.Some? ==>
              (saved.None? <==> DescriptionFile(descriptionLines).None?
                                || ScanUpTo(listing, |listing|, folder, DescriptionFile(descriptionLines).value, selectedDay.value, ta) == [])
    ensures saved.Some? ==>
              && SortedBy(saved.value, TotalOf)
              && multiset(saved.value)
                 == multiset(ScanUpTo(listing, |listing|, folder, DescriptionFile(descriptionLines).value, selectedDay.value, ta))
  {
    if selectedDay.None? {
      return None;
    }
    var descriptions := LoadStockDescriptions(descriptionLines);
    if descriptions.None? {
      return None;
    }
    var records := ScanFolderUpTo(listing, folder, descriptions.value, selectedDay.value, ta);
    if records == [] {
      return None;
    }
    saved := Some(SortBy(records, TotalOf));
  }
}
