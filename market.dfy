/** Price bars, CSV files as the scripts read them, and the small sequence and
    string helpers that several scripts share. Dates are day numbers. */
module Market {

  datatype Option<T> = None | Some(value: T)

  /** One row of a price CSV: the `Date` index and the columns the scripts use. */
  datatype Bar = Bar(date: int, open: real, high: real, low: real, close: real, volume: real)

  /** A CSV file after `pd.read_csv(..., index_col='Date')`: the names of its
      columns and its rows. A column missing from `columns` makes any code that
      reads it raise; the row values of a missing column are never looked at. */
  datatype CsvFile = CsvFile(columns: set<string>, bars: seq<Bar>)

  /** Strictly increasing dates, as the downloaded files are written. */
  predicate Chronological(bars: seq<Bar>)
  {
    forall i, j :: 0 <= i < j < |bars| ==> bars[i].date < bars[j].date
  }

  function Last<T>(s: seq<T>): T
    requires |s| > 0
  {
    s[|s| - 1]
  }

  /** The boolean mask `data[data.index <= day]`: the rows dated on or before
      `day`, in their original order. */
  function UpTo(bars: seq<Bar>, day: int): (r: seq<Bar>)
    ensures |r| <= |bars|
  {
    if bars == [] then []
    else UpTo(bars[..|bars| - 1], day) + (if Last(bars).date <= day then [Last(bars)] else [])
  }

  /** The window `data[(data.index >= start) & (data.index <= end)]`. */
  function Between(bars: seq<Bar>, start: int, end: int): (r: seq<Bar>)
    ensures |r| <= |bars|
  {
    if bars == [] then []
    else
      var b := Last(bars);
      Between(bars[..|bars| - 1], start, end) + (if start <= b.date <= end then [b] else [])
  }

  /** The filter keeps exactly the rows dated on or before `day`. */
  lemma {:induction false} UpToMembers(bars: seq<Bar>, day: int)
    ensures forall b :: b in UpTo(bars, day) <==> b in bars && b.date <= day
  {
    if bars != [] {
      UpToMembers(bars[..|bars| - 1], day);
      assert bars == bars[..|bars| - 1] + [Last(bars)];
    }
  }

  /** The window keeps exactly the rows dated in [start, end]. */
  lemma {:induction false} BetweenMembers(bars: seq<Bar>, start: int, end: int)
    ensures forall b :: b in Between(bars, start, end) <==> b in bars && start <= b.date <= end
  {
    if bars != [] {
      BetweenMembers(bars[..|bars| - 1], start, end);
      assert bars == bars[..|bars| - 1] + [Last(bars)];
    }
  }

  lemma {:induction false} UpToIdempotent(bars: seq<Bar>, day: int)
    ensures UpTo(UpTo(bars, day), day) == UpTo(bars, day)
  {
    if bars != [] {
      var init := bars[..|bars| - 1];
      UpToIdempotent(init, day);
      UpToAppend(UpTo(init, day), if Last(bars).date <= day then [Last(bars)] else [], day);
    }
  }

  /** Filtering distributes over concatenation. */
  lemma {:induction false} UpToAppend(a: seq<Bar>, b: seq<Bar>, day: int)
    ensures UpTo(a + b, day) == UpTo(a, day) + UpTo(b, day)
  {
    if b == [] {
      assert a + b == a;
    } else {
      var init := b[..|b| - 1];
      assert (a + b)[..|a + b| - 1] == a + init;
      UpToAppend(a, init, day);
    }
  }

  /** The window distributes over concatenation. */
  lemma {:induction false} BetweenAppend(a: seq<Bar>, b: seq<Bar>, start: int, end: int)
    ensures Between(a + b, start, end) == Between(a, start, end) + Between(b, start, end)
  {
    if b == [] {
      assert a + b == a;
    } else {
      var init := b[..|b| - 1];
      assert (a + b)[..|a + b| - 1] == a + init;
      BetweenAppend(a, init, start, end);
    }
  }

  /** Taking the window and then the rows up to `day` is taking the rows up
      to `day` and then the window. */
  lemma {:induction false} UpToBetween(bars: seq<Bar>, start: int, end: int, day: int)
    ensures UpTo(Between(bars, start, end), day) == Between(UpTo(bars, day), start, end)
  {
    if bars != [] {
      var init := bars[..|bars| - 1];
      var b := Last(bars);
      var kept := if start <= b.date <= end then [b] else [];
      var upto := if b.date <= day then [b] else [];
      UpToBetween(init, start, end, day);
      UpToAppend(Between(init, start, end), kept, day);
      BetweenAppend(UpTo(init, day), upto, start, end);
      assert UpTo(kept, day) == Between(upto, start, end) by {
        if kept != [] {
          assert kept[..|kept| - 1] == [];
        }
        if upto != [] {
          assert upto[..|upto| - 1] == [];
        }
      }
    }
  }

  /** No look-ahead: rows dated after `day` never reach the filtered history. */
  lemma UpToIgnoresLaterRows(before: seq<Bar>, later: seq<Bar>, day: int)
    requires forall b :: b in later ==> b.date > day
    ensures UpTo(before + later, day) == UpTo(before, day)
  {
    UpToAppend(before, later, day);
    UpToNone(later, day);
  }

  lemma {:induction false} UpToNone(bars: seq<Bar>, day: int)
    requires forall b :: b in bars ==> b.date > day
    ensures UpTo(bars, day) == []
  {
    if bars != [] {
      var init := bars[..|bars| - 1];
      assert forall b :: b in init ==> b in bars;
      UpToNone(init, day);
    }
  }

  /** On a chronological file the filtered rows are a prefix of the file. */
  lemma {:induction false} UpToIsPrefix(bars: seq<Bar>, day: int)
    requires Chronological(bars)
    ensures |UpTo(bars, day)| <= |bars| && UpTo(bars, day) == bars[..|UpTo(bars, day)|]
  {
    if bars != [] {
      var init := bars[..|bars| - 1];
      assert Chronological(init);
      UpToIsPrefix(init, day);
      if Last(bars).date <= day {
        // every earlier row is dated before the last one, so all of them pass
        UpToAll(bars, day);
      }
    }
  }

  lemma {:induction false} UpToAll(bars: seq<Bar>, day: int)
    requires forall i :: 0 <= i < |bars| ==> bars[i].date <= day
    ensures UpTo(bars, day) == bars
  {
    if bars != [] {
      var init := bars[..|bars| - 1];
      UpToAll(init, day);
      assert bars == init + [Last(bars)];
    }
  }

  // ---- strings ----

  predicate EndsWith(s: string, suffix: string)
  {
    |suffix| <= |s| && s[|s| - |suffix|..] == suffix
  }

  /** Python's `s.replace(pattern, "")` for a non-empty pattern: every
      occurrence found left to right, without overlap, is removed. */
  function RemoveAll(s: string, pattern: string): (r: string)
    requires pattern != []
    ensures |r| <= |s|
    ensures |s| < |pattern| ==> r == s
    decreases |s|
  {
    if |s| < |pattern| then s
    else if s[..|pattern|] == pattern then RemoveAll(s[|pattern|..], pattern)
    else [s[0]] + RemoveAll(s[1..], pattern)
  }

  /** The ticker symbol the scripts derive from a file name:
      `file_name.replace('.csv', '')`. */
  function SymbolOfFile(fileName: string): string
  {
    RemoveAll(fileName, ".csv")
  }

  /** The file name under which a symbol's prices are stored: `f"{symbol}.csv"`. */
  function FileOfSymbol(symbol: string): string
  {
    symbol + ".csv"
  }

  lemma SymbolFileRoundTrip(symbol: string)
    requires forall i :: 0 <= i < |symbol| ==> symbol[i] != '.'
    ensures SymbolOfFile(FileOfSymbol(symbol)) == symbol
  {
    RemoveDotFree(symbol, ".csv");
  }

  lemma {:induction false} RemoveDotFree(s: string, rest: string)
    requires forall i :: 0 <= i < |s| ==> s[i] != '.'
    requires rest == ".csv"
    ensures RemoveAll(s + rest, ".csv") == s
  {
    if s == [] {
      assert (s + rest)[..4] == ".csv";
      assert (s + rest)[4..] == [];
    } else {
      assert (s + rest)[..4] != ".csv" by {
        assert (s + rest)[0] == s[0] != '.';
      }
      assert (s + rest)[1..] == s[1..] + rest;
      RemoveDotFree(s[1..], rest);
    }
  }
}
