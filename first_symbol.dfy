/** `scripts/get_stocks_from_tickers.py`: the first symbol of a ticker file
    and the path its downloaded prices are saved under. The download itself
    is left out. */
module FirstSymbol {
  import opened Market
  import opened Descriptions

  /** `get_first_stock_symbol`: `lines[1:][0].split('\t')[0]`. `None` when
      there is no line after the header (the indexing raises). Nothing is
      stripped, so a line without a tab comes back whole, line break
      included. */
  function GetFirstStockSymbol(lines: seq<string>): (r: Option<string>)
    ensures r.None? <==> |lines| < 2
    ensures r.Some? ==> '\t' !in r.value && |r.value| <= |lines[1]| && lines[1][..|r.value|] == r.value
    ensures r.Some? ==> |r.value| == |lines[1]| || lines[1][|r.value|] == '\t'
  {
    var body := Body(lines);
    if body == [] then None
    else Some(body[0][..FirstTab(body[0], 0)])
  }

  /** A data line that starts with a tab-free symbol and a tab yields that
      symbol, whatever follows. */
  lemma FirstSymbolOfTickerFile(header: string, symbol: string, description: string, more: seq<string>)
    requires '\t' !in symbol
    ensures GetFirstStockSymbol([header, symbol + "\t" + description] + more) == Some(symbol)
  {
    var line := symbol + "\t" + description;
    FirstTabAt(line, |symbol|);
    assert ([header, line] + more)[1] == line;
    assert line[..|symbol|] == symbol;
  }

  /** On a data line with a tab and no surrounding blanks, this reader and
      the description parser of the other scripts find the same symbol. */
  lemma AgreesWithDescriptionParser(lines: seq<string>)
    requires |lines| >= 2 && Strip(lines[1]) == lines[1] && '\t' in lines[1]
    ensures ParseLine(lines[1]).Some?
    ensures GetFirstStockSymbol(lines) == Some(ParseLine(lines[1]).value.0)
  {
    ParseLineIff(lines[1]);
    var symbol := ParseLine(lines[1]).value.0;
    var rest := ParseLine(lines[1]).value.1;
    assert lines[1] == symbol + "\t" + rest;
    FirstTabAt(lines[1], |symbol|);
  }

  /** `os.path.join(a, b)` on POSIX paths: an absolute `b` replaces `a`;
      otherwise `b` is appended after a separating `/` unless `a` is empty or
      already ends with one. */
  function JoinPath(a: string, b: string): (r: string)
    ensures |b| > 0 && b[0] == '/' ==> r == b
    ensures !(|b| > 0 && b[0] == '/') ==> |a| <= |r| && r[..|a|] == a
    ensures EndsWith(r, b)
  {
    if |b| > 0 && b[0] == '/' then b
    else if a == [] || a[|a| - 1] == '/' then
      assert (a + b)[..|a|] == a;
      a + b
    else
      assert (a + "/" + b)[..|a|] == a;
      a + "/" + b
  }

  /** `os.path.join(args.output_folder, f"{first_symbol}.csv")`. */
  function OutputPath(folder: string, symbol: string): string
  {
    JoinPath(folder, FileOfSymbol(symbol))
  }

  /** The saved file lies in the output folder, is named after the symbol,
      and the analysis scripts read that name back as the same symbol. */
  lemma OutputPathNamesSymbol(folder: string, symbol: string)
    requires forall i :: 0 <= i < |symbol| ==> symbol[i] != '.' && symbol[i] != '/'
    ensures EndsWith(OutputPath(folder, symbol), FileOfSymbol(symbol))
    ensures OutputPath(folder, symbol)[..|folder|] == folder
    ensures folder != [] && folder[|folder| - 1] != '/' ==> OutputPath(folder, symbol) == folder + "/" + symbol + ".csv"
    ensures SymbolOfFile(FileOfSymbol(symbol)) == symbol
  {
    var name := FileOfSymbol(symbol);
    assert name[0] != '/' by {
      if symbol == [] {
        assert name[0] == '.';
      } else {
        assert name[0] == symbol[0];
      }
    }
    SymbolFileRoundTrip(symbol);
  }
}
