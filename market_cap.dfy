/** `scripts/analyze_all_stocks_with_market_cap_filter.py`: the plain scan,
    with each record also carrying the symbol's market capitalisation from a
    fundamentals table and whether it reaches a threshold; after the sort,
    the first ten records that reach it are the ones plotted. */
module MarketCapFilter {
  import opened Market
  import opened Indicators
  import opened Descriptions
  import opened Ranking
  import opened Analysis

  /** One row of the fundamentals CSV; an empty `Market Cap` cell is `None`. */
  datatype FundamentalsRow = FundamentalsRow(symbol: string, marketCap: Option<real>)

  /** The fundamentals CSV: its column names and its rows. */
  datatype Fundamentals = Fundamentals(columns: set<string>, rows: seq<FundamentalsRow>)

  /** The result of the market-cap lookup: a missing column raises `KeyError`
      (`Unreadable`); otherwise the cap found, if any. */
  datatype CapLookup = Unreadable | Found(cap: Option<real>)

  /** The index of the first row at or after `from` listing `symbol`, or the
      number of rows. */
  function FirstRowOf(rows: seq<FundamentalsRow>, symbol: string, from: nat): (k: nat)
    requires from <= |rows|
    decreases |rows| - from
    ensures from <= k <= |rows|
    ensures k < |rows| ==> rows[k].symbol == symbol
    ensures forall i :: from <= i < k ==> rows[i].symbol != symbol
  {
    if from == |rows| || rows[from].symbol == symbol then from else FirstRowOf(rows, symbol, from + 1)
  }

  /** `fundamentals.loc[fundamentals['Symbol'] == symbol, 'Market Cap'].values[0]
      if symbol in fundamentals['Symbol'].values else None`. The `Symbol`
      column is read first; `Market Cap` only when the symbol is listed. */
  function MarketCapOf(f: Fundamentals, symbol: string): (r: CapLookup)
    ensures "Symbol" !in f.columns ==> r == Unreadable
    ensures "Symbol" in f.columns && (forall i :: 0 <= i < |f.rows| ==> f.rows[i].symbol != symbol)
            ==> r == Found(None)
    ensures forall i :: 0 <= i < |f.rows| && f.rows[i].symbol == symbol && "Symbol" in f.columns
                        && (forall j :: 0 <= j < i ==> f.rows[j].symbol != symbol)
                        ==> r == if "Market Cap" in f.columns then Found(f.rows[i].marketCap) else Unreadable
  {
    if "Symbol" !in f.columns then Unreadable
    else
      var k := FirstRowOf(f.rows, symbol, 0);
      if k == |f.rows| then Found(None)
      else if "Market Cap" !in f.columns then Unreadable
      else Found(f.rows[k].marketCap)
  }

  /** `market_cap >= cap_threshold if market_cap else False`: a missing cap
      and a zero cap are falsy and never pass. */
  function AboveCapThreshold(cap: Option<real>, threshold: real): (above: bool)
    ensures above <==> cap.Some? && cap.value != 0.0 && cap.value >= threshold
  {
    match cap
    case None => false
    case Some(v) => if v != 0.0 then v >= threshold else false
  }

  /** A threshold of zero or less lets every positive cap through, but
      still not a zero or a missing one. */
  lemma NonPositiveThreshold(cap: Option<real>, threshold: real)
    requires threshold <= 0.0
    ensures cap.Some? && cap.value > 0.0 ==> AboveCapThreshold(cap, threshold)
    ensures cap == None || cap == Some(0.0) ==> !AboveCapThreshold(cap, threshold)
  {
  }

  /** One dictionary of this script's `analysis_results`. */
  datatype CapRecord = CapRecord(record: Record, marketCap: Option<real>, above: bool)

  /** What this script's `process_stock_file` appends for one file: the plain
      record plus the cap and its flag, or nothing when the file is not
      scorable or the fundamentals table lacks a column it reads. */
  function CapProcessed(file: Option<CsvFile>, symbol: string, descriptions: map<string, string>,
                        f: Fundamentals, threshold: real, ta: seq<Bar> -> Series): (r: seq<CapRecord>)
    requires TaAligned(ta)
    ensures |r| <= 1
    ensures r != [] <==> Scorable(file) && MarketCapOf(f, symbol).Found?
    ensures r != [] ==> r[0].record == Processed(file, symbol, descriptions, ta)[0]
    ensures r != [] ==> r[0].marketCap == MarketCapOf(f, symbol).cap
    ensures r != [] ==> (r[0].above <==> AboveCapThreshold(r[0].marketCap, threshold))
  {
    if !Scorable(file) then []
    else match MarketCapOf(f, symbol)
      case Unreadable => []
      case Found(cap) =>
        var h := file.value.bars;
        [CapRecord(Scored(symbol, descriptions, h, ta(h)), cap, AboveCapThreshold(cap, threshold))]
  }

  /** `analysis_results` of this script. */
  class CapResultList {
    var records: seq<CapRecord>

    constructor ()
      ensures records == []
    {
      records := [];
    }

    /** This script's `process_stock_file`: the plain steps, then the cap
        lookup and the flag, then the append. */
    method ProcessStockFile(file: Option<CsvFile>, symbol: string, descriptions: map<string, string>,
                            f: Fundamentals, threshold: real, ta: seq<Bar> -> Series)
      requires TaAligned(ta)
      modifies this
      ensures records == old(records) + CapProcessed(file, symbol, descriptions, f, threshold, ta)
    {
      if file.None? || |file.value.bars| < MinHistory || !(AnalyzerColumns <= file.value.columns) {
        return;
      }
      var h := file.value.bars;
      var record := Scored(symbol, descriptions, h, ta(h));
      var lookup := MarketCapOf(f, symbol);
      if lookup.Unreadable? {
        return;  // KeyError on a fundamentals column
      }
      var above := AboveCapThreshold(lookup.cap, threshold);
      records := records + [CapRecord(record, lookup.cap, above)];
    }
  }

  /** The records after the first `k` listing entries. */
  function CapScan(listing: seq<string>, k: nat, folder: map<string, CsvFile>, descriptions: map<string, string>,
                   f: Fundamentals, threshold: real, ta: seq<Bar> -> Series): seq<CapRecord>
    requires k <= |listing| && TaAligned(ta)
  {
    if k == 0 then []
    else
      var name := listing[k - 1];
      CapScan(listing, k - 1, folder, descriptions, f, threshold, ta)
        + if EndsWith(name, ".csv") then CapProcessed(FileAt(folder, name), SymbolOfFile(name), descriptions, f, threshold, ta) else []
  }

  lemma CapScanStep(listing: seq<string>, i: nat, folder: map<string, CsvFile>, descriptions: map<string, string>,
                    f: Fundamentals, threshold: real, ta: seq<Bar> -> Series)
    requires i < |listing| && TaAligned(ta)
    ensures CapScan(listing, i + 1, folder, descriptions, f, threshold, ta) == CapScan(listing, i, folder, descriptions, f, threshold, ta)
              + if EndsWith(listing[i], ".csv")
                then CapProcessed(FileAt(folder, listing[i]), SymbolOfFile(listing[i]), descriptions, f, threshold, ta)
                else []
  {
  }

  /** With a fundamentals table that has both columns, this script keeps
      exactly the records of the plain scan, in the same order. */
  lemma {:induction false} CapScanKeepsRecords(listing: seq<string>, k: nat, folder: map<string, CsvFile>,
                                               descriptions: map<string, string>, f: Fundamentals, threshold: real,
                                               ta: seq<Bar> -> Series)
    requires k <= |listing| && TaAligned(ta)
    requires "Symbol" in f.columns && "Market Cap" in f.columns
    ensures |CapScan(listing, k, folder, descriptions, f, threshold, ta)| == |Scan(listing, k, folder, descriptions, ta)|
    ensures forall i :: 0 <= i < |CapScan(listing, k, folder, descriptions, f, threshold, ta)| ==>
              CapScan(listing, k, folder, descriptions, f, threshold, ta)[i].record == Scan(listing, k, folder, descriptions, ta)[i]
  {
    if k > 0 {
      CapScanKeepsRecords(listing, k - 1, folder, descriptions, f, threshold, ta);
      var name := listing[k - 1];
      if EndsWith(name, ".csv") {
        var sym := SymbolOfFile(name);
        var lookup := MarketCapOf(f, sym);
        assert lookup.Found? by {
          var j := FirstRowOf(f.rows, sym, 0);
          if j < |f.rows| {
            assert f.rows[j].symbol == sym;
          }
        }
      }
    }
  }

  function CapTotalOf(r: CapRecord): real
  {
    r.record.total
  }

  // ---- the top ten ----

  const TopCount := 10

  /** `sorted_df[sorted_df['Above Cap Threshold']]`: the flagged records, in
      order. */
  function Flagged(s: seq<CapRecord>): (r: seq<CapRecord>)
    ensures |r| <= |s|
    ensures forall i :: 0 <= i < |r| ==> r[i].above
  {
    if s == [] then []
    else Flagged(s[..|s| - 1]) + if s[|s| - 1].above then [s[|s| - 1]] else []
  }

  /** `.head(10)` of the flagged records. */
  function TopStocks(sorted: seq<CapRecord>): (r: seq<CapRecord>)
  {
    var flagged := Flagged(sorted);
    if |flagged| <= TopCount then flagged else flagged[..TopCount]
  }

  /** Every flagged record survives the filter, and every record it keeps is
      one of the input's. */
  lemma {:induction false} FlaggedMembers(s: seq<CapRecord>)
    ensures forall x :: x in Flagged(s) <==> x in s && x.above
  {
    if s != [] {
      FlaggedMembers(s[..|s| - 1]);
      assert s == s[..|s| - 1] + [s[|s| - 1]];
    }
  }

  /** The filter keeps the order of an ordered list. */
  lemma {:induction false} FlaggedSorted(s: seq<CapRecord>)
    requires SortedBy(s, CapTotalOf)
    ensures SortedBy(Flagged(s), CapTotalOf)
  {
    if s != [] {
      var init := s[..|s| - 1];
      assert SortedBy(init, CapTotalOf);
      FlaggedSorted(init);
      FlaggedMembers(init);
      var f := Flagged(init);
      if s[|s| - 1].above {
        forall i | 0 <= i < |f| ensures CapTotalOf(f[i]) >= CapTotalOf(s[|s| - 1]) {
          assert f[i] in init;
          var k :| 0 <= k < |init| && init[k] == f[i];
          assert s[k] == f[i];
        }
      }
    }
  }

  /** At most ten records, each flagged and taken from the sorted list, in
      descending total; and no flagged record left out beats one kept. */
  lemma TopStocksProperties(sorted: seq<CapRecord>)
    requires SortedBy(sorted, CapTotalOf)
    ensures var top := TopStocks(sorted);
            && |top| <= TopCount
            && (forall i :: 0 <= i < |top| ==> top[i].above && top[i] in sorted)
            && SortedBy(top, CapTotalOf)
  {
    FlaggedMembers(sorted);
    FlaggedSorted(sorted);
    var flagged := Flagged(sorted);
    var top := TopStocks(sorted);
    assert forall i :: 0 <= i < |top| ==> top[i] == flagged[i];
    assert forall i :: 0 <= i < |top| ==> top[i] in flagged;
  }

  /** No flagged record left out of the top ten has a higher total than one
      kept, and fewer than ten are kept only when there are no more. */
  lemma TopStocksAreBest(sorted: seq<CapRecord>, x: CapRecord)
    requires SortedBy(sorted, CapTotalOf) && x in sorted && x.above
    ensures x in TopStocks(sorted) || (|TopStocks(sorted)| == TopCount &&
              forall i :: 0 <= i < TopCount ==> CapTotalOf(TopStocks(sorted)[i]) >= CapTotalOf(x))
  {
    FlaggedMembers(sorted);
    FlaggedSorted(sorted);
    var flagged := Flagged(sorted);
    var k :| 0 <= k < |flagged| && flagged[k] == x;
    if k >= TopCount {
      var top := TopStocks(sorted);
      forall i | 0 <= i < TopCount ensures CapTotalOf(top[i]) >= CapTotalOf(x) {
        assert top[i] == flagged[i];
      }
    } else {
      assert TopStocks(sorted)[k] == x;
    }
  }

  // ---- the main block ----

  method ScanFolder(listing: seq<string>, folder: map<string, CsvFile>, descriptions: map<string, string>,
                    f: Fundamentals, threshold: real, ta: seq<Bar> -> Series)
    returns (records: seq<CapRecord>)
    requires TaAligned(ta)
    ensures records == CapScan(listing, |listing|, folder, descriptions, f, threshold, ta)
  {
    var results := new CapResultList();
    var i := 0;
    while i < |listing|
      invariant 0 <= i <= |listing|
      invariant results.records == CapScan(listing, i, folder, descriptions, f, threshold, ta)
    {
      var name := listing[i];
      CapScanStep(listing, i, folder, descriptions, f, threshold, ta);
      if EndsWith(name, ".csv") {
        results.ProcessStockFile(FileAt(folder, name), SymbolOfFile(name), descriptions, f, threshold, ta);
      }
      i := i + 1;
    }
    assert i == |listing|;
    records := results.records;
  }

  /** The main block: load the descriptions (an unsplittable line ends the
      run), scan, sort best first, save, and pick the top ten flagged
      records. `None` is a run that crashed before saving, an empty scan
      included. */
  method AnalyzeWithCapFilter(listing: seq<string>, folder: map<string, CsvFile>, descriptionLines: seq<string>,
                              f: Fundamentals, threshold: real, ta: seq<Bar> -> Series)
    returns (saved: Option<(seq<CapRecord>, seq<CapRecord>)>)
    requires TaAligned(ta)
    ensures saved.None? <==> DescriptionFile(descriptionLines).None?
                             || CapScan(listing, |listing|, folder, DescriptionFile(descriptionLines).value, f, threshold, ta) == []
    ensures saved.Some? ==>
              var (sorted, top) := saved.value;
              && SortedBy(sorted, CapTotalOf)
              && multiset(sorted) == multiset(CapScan(listing, |listing|, folder, DescriptionFile(descriptionLines).value, f, threshold, ta))
              && top == TopStocks(sorted)
  {
    var descriptions := LoadStockDescriptions(descriptionLines);
    if descriptions.None? {
      return None;
    }
    var records := ScanFolder(listing, folder, descriptions.value, f, threshold, ta);
    if records == [] {
      return None;  // KeyError: 'Total Score'
    }
    var sorted := SortBy(records, CapTotalOf);
    saved := Some((sorted, TopStocks(sorted)));
  }
}
