/** `scripts/complement_with_yahoo_data.py`: every entry of a ticker file,
    extended with eleven fundamentals read from the Yahoo Finance `info`
    dictionary of its symbol. The network lookup is a parameter: for each
    symbol it gives the `info` dictionary, or nothing when fetching it
    raised. */
module Complement {
  import opened Market
  import opened Descriptions

  /** A value found in `info`: a number or a text. */
  datatype Field = Num(n: real) | Text(t: string)

  /** An output record: column names with their values, in column order;
      `None` is Python's `None`. */
  type Row = seq<(string, Option<Field>)>

  function Keys(row: Row): seq<string>
  {
    seq(|row|, i requires 0 <= i < |row| => row[i].0)
  }

  /** The columns `fetch_yahoo_data` produces, in order. */
  const YahooColumns: seq<string> :=
    ["Market Cap", "P/E Ratio", "Dividend Yield", "52-Week High", "52-Week Low", "Beta",
     "Sector", "Industry", "Country", "Full Time Employees", "Company Description"]

  /** The `info` key each of those columns is read from. */
  const InfoKeys: seq<string> :=
    ["marketCap", "trailingPE", "dividendYield", "fiftyTwoWeekHigh", "fiftyTwoWeekLow", "beta",
     "sector", "industry", "country", "fullTimeEmployees", "longBusinessSummary"]

  /** The columns of the saved file. */
  const CsvColumns: seq<string> := ["Symbol", "Description"] + YahooColumns

  /** `info.get(key)`. */
  function Get(info: map<string, Field>, key: string): (r: Option<Field>)
    ensures r.Some? <==> key in info
    ensures r.Some? ==> r.value == info[key]
  {
    if key in info then Some(info[key]) else None
  }

  /** The record returned when `info` was fetched. */
  function Fetched(info: map<string, Field>): Row
  {
    [("Market Cap", Get(info, "marketCap")),
     ("P/E Ratio", Get(info, "trailingPE")),
     ("Dividend Yield", Get(info, "dividendYield")),
     ("52-Week High", Get(info, "fiftyTwoWeekHigh")),
     ("52-Week Low", Get(info, "fiftyTwoWeekLow")),
     ("Beta", Get(info, "beta")),
     ("Sector", Get(info, "sector")),
     ("Industry", Get(info, "industry")),
     ("Country", Get(info, "country")),
     ("Full Time Employees", Get(info, "fullTimeEmployees")),
     ("Company Description", Get(info, "longBusinessSummary"))]
  }

  /** The record returned when fetching raised. */
  function Fallback(): Row
  {
    [("Market Cap", None),
     ("P/E Ratio", None),
     ("Dividend Yield", None),
     ("52-Week High", None),
     ("52-Week Low", None),
     ("Beta", None),
     ("Sector", None),
     ("Industry", None),
     ("Country", None),
     ("Full Time Employees", None),
     ("Company Description", None)]
  }

  /** `fetch_yahoo_data`: the same eleven columns on both paths, each read
      from its own `info` key when the fetch succeeded and empty when it
      failed. */
  function FetchYahooData(info: Option<map<string, Field>>): (r: Row)
    ensures Keys(r) == YahooColumns
    ensures info.None? ==> forall i :: 0 <= i < |r| ==> r[i].1.None?
    ensures info.Some? ==> forall i :: 0 <= i < |r| ==> r[i].1 == Get(info.value, InfoKeys[i])
  {
    if info.None? then
      assert Keys(Fallback()) == YahooColumns;
      Fallback()
    else
      assert Keys(Fetched(info.value)) == YahooColumns;
      Fetched(info.value)
  }

  /** `{'Symbol': …, 'Description': …, **yahoo_data}`. */
  function Merged(entry: Entry, yahoo: Row): Row
  {
    [("Symbol", Some(Text(entry.symbol))), ("Description", Some(Text(entry.description)))] + yahoo
  }

  /** A merged record carries the entry's symbol and description under the
      first two columns, then the fetched columns unchanged. */
  lemma MergedShape(entry: Entry, info: Option<map<string, Field>>)
    ensures Keys(Merged(entry, FetchYahooData(info))) == CsvColumns
    ensures Merged(entry, FetchYahooData(info))[0].1 == Some(Text(entry.symbol))
    ensures Merged(entry, FetchYahooData(info))[1].1 == Some(Text(entry.description))
    ensures Merged(entry, FetchYahooData(info))[2..] == FetchYahooData(info)
  {
    MergedKeys(entry, FetchYahooData(info));
  }

  lemma MergedKeys(entry: Entry, yahoo: Row)
    ensures Keys(Merged(entry, yahoo)) == ["Symbol", "Description"] + Keys(yahoo)
  {
    var m := Merged(entry, yahoo);
    assert forall i :: 2 <= i < |m| ==> m[i] == yahoo[i - 2];
  }

  /** The records the loop has built for the first `k` entries. */
  function MergedRows(entries: seq<Entry>, lookup: string -> Option<map<string, Field>>, k: nat): (rows: seq<Row>)
    requires k <= |entries|
    ensures |rows| == k
    ensures forall i :: 0 <= i < k ==> rows[i] == Merged(entries[i], FetchYahooData(lookup(entries[i].symbol)))
  {
    if k == 0 then []
    else MergedRows(entries, lookup, k - 1) + [Merged(entries[k - 1], FetchYahooData(lookup(entries[k - 1].symbol)))]
  }

  /** Every record has the saved file's columns, so the table has no holes
      from records that disagree on their keys. */
  lemma MergedRowsColumns(entries: seq<Entry>, lookup: string -> Option<map<string, Field>>)
    ensures forall i :: 0 <= i < |entries| ==> Keys(MergedRows(entries, lookup, |entries|)[i]) == CsvColumns
  {
    forall i | 0 <= i < |entries| ensures Keys(MergedRows(entries, lookup, |entries|)[i]) == CsvColumns {
      MergedShape(entries[i], lookup(entries[i].symbol));
    }
  }

  /** `complement_with_yahoo_data`: `None` when the ticker file has a line
      that does not split (the script stops there); otherwise one record per
      entry, in file order, duplicates kept, each with the saved file's
      thirteen columns in order, whether its fetch succeeded or not. */
  method ComplementWithYahooData(lines: seq<string>, lookup: string -> Option<map<string, Field>>)
    returns (finalData: Option<seq<Row>>)
    ensures finalData.None? <==> EntryFile(lines).None?
    ensures finalData.Some? ==> finalData.value == MergedRows(EntryFile(lines).value, lookup, |EntryFile(lines).value|)
    ensures finalData.Some? ==> forall i :: 0 <= i < |finalData.value| ==> Keys(finalData.value[i]) == CsvColumns
  {
    var stockData := LoadStockDescriptionList(lines);
    if stockData.None? {
      return None;
    }
    var entries := stockData.value;
    var rows: seq<Row> := [];
    var i := 0;
    while i < |entries|
      invariant 0 <= i <= |entries|
      invariant rows == MergedRows(entries, lookup, i)
    {
      var stock := entries[i];
      var yahooData := FetchYahooData(lookup(stock.symbol));
      rows := rows + [Merged(stock, yahooData)];
      i := i + 1;
    }
    MergedRowsColumns(entries, lookup);
    finalData := Some(rows);
  }
}
