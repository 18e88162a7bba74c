/** The ticker-description file reader that five of the scripts carry a copy
    of: the file's lines after the header, each stripped of surrounding
    whitespace and split at its first tab into a symbol and a description. */
module Descriptions {
  import opened Market

  /** The characters Python's `str.strip()` removes (`str.isspace`). */
  predicate IsSpace(c: char)
  {
    || c == ' ' || c == '\t' || c == '\n' || c == '\r'
    || c == '\U{B}' || c == '\U{C}' || ('\U{1C}' <= c <= '\U{1F}')
    || c == '\U{85}' || c == '\U{A0}' || c == '\U{1680}'
    || ('\U{2000}' <= c <= '\U{200A}') || c == '\U{2028}' || c == '\U{2029}'
    || c == '\U{202F}' || c == '\U{205F}' || c == '\U{3000}'
  }

  /** The index of the first character at or after `from` that is not
      whitespace, or `|s|`. */
  function TextStart(s: string, from: nat): (k: nat)
    requires from <= |s|
    decreases |s| - from
    ensures from <= k <= |s|
    ensures k < |s| ==> !IsSpace(s[k])
    ensures forall i :: from <= i < k ==> IsSpace(s[i])
  {
    if from == |s| || !IsSpace(s[from]) then from else TextStart(s, from + 1)
  }

  /** The index just past the last character before `hi`, and not before
      `lo`, that is not whitespace, or `lo`. */
  function TextEnd(s: string, lo: nat, hi: nat): (k: nat)
    requires lo <= hi <= |s|
    decreases hi
    ensures lo <= k <= hi
    ensures k > lo ==> !IsSpace(s[k - 1])
    ensures forall i :: k <= i < hi ==> IsSpace(s[i])
  {
    if hi == lo || !IsSpace(s[hi - 1]) then hi else TextEnd(s, lo, hi - 1)
  }

  /** `s.strip()`: the slice between the leading and the trailing whitespace. */
  function Strip(s: string): (r: string)
    ensures var lo := TextStart(s, 0);
            var hi := TextEnd(s, lo, |s|);
            && r == s[lo..hi]
            && (r == [] || (!IsSpace(r[0]) && !IsSpace(r[|r| - 1])))
            && (forall i :: 0 <= i < lo ==> IsSpace(s[i]))
            && (forall i :: hi <= i < |s| ==> IsSpace(s[i]))
  {
    var lo := TextStart(s, 0);
    s[lo..TextEnd(s, lo, |s|)]
  }

  /** Text that neither starts nor ends with whitespace is left alone, so
      stripping twice is stripping once. */
  lemma StripIdempotent(s: string)
    ensures Strip(Strip(s)) == Strip(s)
  {
    var r := Strip(s);
    assert TextStart(r, 0) == 0;
    if r != [] {
      assert TextEnd(r, 0, |r|) == |r|;
    }
  }

  /** The index of the first tab at or after `from`, or `|s|`. */
  function FirstTab(s: string, from: nat): (k: nat)
    requires from <= |s|
    decreases |s| - from
    ensures from <= k <= |s|
    ensures k < |s| ==> s[k] == '\t'
    ensures forall i :: from <= i < k ==> s[i] != '\t'
  {
    if from == |s| || s[from] == '\t' then from else FirstTab(s, from + 1)
  }

  /** `s.split('\t', 1)` unpacked into two names: the text before the first
      tab and everything after it, or nothing when there is no tab (the
      unpacking then raises). */
  function SplitFirstTab(s: string): (r: Option<(string, string)>)
    ensures r.None? <==> '\t' !in s
    ensures r.Some? ==> s == r.value.0 + "\t" + r.value.1 && '\t' !in r.value.0
  {
    var k := FirstTab(s, 0);
    if k == |s| then None
    else
      assert s == s[..k] + "\t" + s[k + 1..];
      Some((s[..k], s[k + 1..]))
  }

  /** The split is undone by joining with a tab, and a tab-free symbol is
      recovered whatever the description holds, further tabs included. */
  lemma SplitFirstTabRoundTrip(symbol: string, description: string)
    requires '\t' !in symbol
    ensures SplitFirstTab(symbol + "\t" + description) == Some((symbol, description))
  {
    var s := symbol + "\t" + description;
    FirstTabAt(s, |symbol|);
    assert s[..|symbol|] == symbol && s[|symbol| + 1..] == description;
  }

  lemma {:induction false} FirstTabAt(s: string, k: nat)
    requires k < |s| && s[k] == '\t' && forall i :: 0 <= i < k ==> s[i] != '\t'
    ensures FirstTab(s, 0) == k
  {
    var r := FirstTab(s, 0);
    assert s[r] == '\t';
  }

  /** `symbol, description = line.strip().split('\t', 1)`. */
  function ParseLine(line: string): (r: Option<(string, string)>)
  {
    SplitFirstTab(Strip(line))
  }

  /** A line parses exactly when its stripped text holds a tab, and then it
      is the stripped text split at its first tab. */
  lemma ParseLineIff(line: string)
    ensures ParseLine(line).None? <==> '\t' !in Strip(line)
    ensures ParseLine(line).Some? ==>
              var (symbol, description) := ParseLine(line).value;
              Strip(line) == symbol + "\t" + description && '\t' !in symbol
  {
  }

  /** `file.readlines()[1:]`: the lines after the header. */
  function Body(lines: seq<string>): (r: seq<string>)
    ensures |r| == if lines == [] then 0 else |lines| - 1
    ensures forall i :: 0 <= i < |r| ==> r[i] == lines[i + 1]
  {
    if lines == [] then [] else lines[1..]
  }

  /** Each line after the header, split or not. */
  type Parsed = seq<Option<(string, string)>>

  function ParseAll(body: seq<string>, k: nat): (ps: Parsed)
    requires k <= |body|
    ensures |ps| == k
  {
    if k == 0 then [] else ParseAll(body, k - 1) + [ParseLine(body[k - 1])]
  }

  lemma {:induction false} ParseAllAt(body: seq<string>, k: nat, i: nat)
    requires i < k <= |body|
    ensures ParseAll(body, k)[i] == ParseLine(body[i])
  {
    if i < k - 1 {
      ParseAllAt(body, k - 1, i);
    }
  }

  /** `line.strip().split('\t', 1)` on line `i` of the body. */
  method ParseLineAt(body: seq<string>, i: nat) returns (parsed: Option<(string, string)>)
    requires i < |body|
    ensures parsed == ParseAll(body, |body|)[i]
  {
    parsed := SplitFirstTab(Strip(body[i]));
    ParseAllAt(body, |body|, i);
  }

  // ---- the dictionary copies ----

  /** The dictionary the loop has built after the first `k` lines: each line
      stores its description under its symbol, later lines overwriting
      earlier ones; nothing once a line does not split. */
  function DescriptionsOf(ps: Parsed, k: nat): Option<map<string, string>>
    requires k <= |ps|
  {
    if k == 0 then Some(map[])
    else match DescriptionsOf(ps, k - 1)
      case None => None
      case Some(m) =>
        match ps[k - 1]
        case None => None
        case Some(entry) => Some(m[entry.0 := entry.1])
  }

  /** Loading fails exactly when some line after the header does not split. */
  lemma {:induction false} DescriptionsFailIff(ps: Parsed, k: nat)
    requires k <= |ps|
    ensures DescriptionsOf(ps, k).None? <==> exists i :: 0 <= i < k && ps[i].None?
  {
    if k > 0 {
      DescriptionsFailIff(ps, k - 1);
    }
  }

  /** Each symbol maps to the description on the last line that names it. */
  lemma {:induction false} LaterLineWins(ps: Parsed, k: nat, i: nat)
    requires k <= |ps| && DescriptionsOf(ps, k).Some? && i < k && ps[i].Some?
    requires forall j :: i < j < k && ps[j].Some? ==> ps[j].value.0 != ps[i].value.0
    ensures ps[i].value.0 in DescriptionsOf(ps, k).value
    ensures DescriptionsOf(ps, k).value[ps[i].value.0] == ps[i].value.1
  {
    if i < k - 1 {
      LaterLineWins(ps, k - 1, i);
    }
  }

  /** Every symbol of the dictionary comes from some line. */
  lemma {:induction false} DescriptionKeysFromLines(ps: Parsed, k: nat, symbol: string)
    requires k <= |ps| && DescriptionsOf(ps, k).Some? && symbol in DescriptionsOf(ps, k).value
    ensures exists i :: 0 <= i < k && ps[i].Some? && ps[i].value.0 == symbol
  {
    var entry := ps[k - 1].value;
    if symbol != entry.0 {
      DescriptionKeysFromLines(ps, k - 1, symbol);
    }
  }

  /** Once a prefix fails to load, the whole body does. */
  lemma {:induction false} DescriptionsStayFailed(ps: Parsed, k: nat)
    requires k <= |ps| && DescriptionsOf(ps, k).None?
    ensures DescriptionsOf(ps, |ps|).None?
    decreases |ps| - k
  {
    if k < |ps| {
      DescriptionsStayFailed(ps, k + 1);
    }
  }

  lemma DescriptionsStep(ps: Parsed, i: nat, m: map<string, string>)
    requires i < |ps| && DescriptionsOf(ps, i) == Some(m)
    ensures DescriptionsOf(ps, i + 1) == if ps[i].None? then None else Some(m[ps[i].value.0 := ps[i].value.1])
  {
  }

  /** What `load_stock_descriptions` (dictionary form) gives for the lines
      of a ticker file. */
  function DescriptionFile(lines: seq<string>): Option<map<string, string>>
  {
    var body := Body(lines);
    DescriptionsOf(ParseAll(body, |body|), |body|)
  }

  /** `load_stock_descriptions` (dictionary form): the loop over the lines
      after the header; `None` is the uncaught unpacking error. */
  method LoadStockDescriptions(lines: seq<string>) returns (r: Option<map<string, string>>)
    ensures r == DescriptionFile(lines)
  {
    var body := Body(lines);
    ghost var ps := ParseAll(body, |body|);
    var descriptions: map<string, string> := map[];
    var i := 0;
    while i < |body|
      invariant 0 <= i <= |body|
      invariant DescriptionsOf(ps, i) == Some(descriptions)
    {
      var parsed := ParseLineAt(body, i);
      DescriptionsStep(ps, i, descriptions);
      if parsed.None? {
        DescriptionsStayFailed(ps, i + 1);
        return None;
      }
      var (symbol, description) := parsed.value;
      descriptions := descriptions[symbol := description];
      i := i + 1;
    }
    assert i == |ps|;
    r := Some(descriptions);
  }

  /** `descriptions.get(symbol, 'No description available')`. */
  const NoDescription := "No description available"

  function DescriptionFor(descriptions: map<string, string>, symbol: string): (d: string)
    ensures symbol in descriptions ==> d == descriptions[symbol]
    ensures symbol !in descriptions ==> d == NoDescription
  {
    if symbol in descriptions then descriptions[symbol] else NoDescription
  }

  // ---- the list copy ----

  /** One `{'Symbol': …, 'Description': …}` entry. */
  datatype Entry = Entry(symbol: string, description: string)

  /** The list the loop has built after the first `k` lines: one entry per
      line, in file order, duplicates kept; nothing once a line does not split. */
  function EntriesOf(ps: Parsed, k: nat): (r: Option<seq<Entry>>)
    requires k <= |ps|
    ensures r.Some? ==> |r.value| == k
    ensures r.Some? ==> forall i :: 0 <= i < k ==> ps[i] == Some((r.value[i].symbol, r.value[i].description))
    ensures r.None? <==> exists i :: 0 <= i < k && ps[i].None?
  {
    if k == 0 then Some([])
    else
      match EntriesOf(ps, k - 1)
      case None => None
      case Some(es) =>
        match ps[k - 1]
        case None => None
        case Some(entry) => Some(es + [Entry(entry.0, entry.1)])
  }

  /** What `load_stock_descriptions` (list form) gives for the lines of a
      ticker file. */
  function EntryFile(lines: seq<string>): Option<seq<Entry>>
  {
    var body := Body(lines);
    EntriesOf(ParseAll(body, |body|), |body|)
  }

  /** `load_stock_descriptions` (list form). */
  method LoadStockDescriptionList(lines: seq<string>) returns (r: Option<seq<Entry>>)
    ensures r == EntryFile(lines)
  {
    var body := Body(lines);
    ghost var ps := ParseAll(body, |body|);
    var entries: seq<Entry> := [];
    var i := 0;
    while i < |body|
      invariant 0 <= i <= |body|
      invariant EntriesOf(ps, i) == Some(entries)
    {
      var parsed := ParseLineAt(body, i);
      if parsed.None? {
        assert EntriesOf(ps, |ps|).None?;
        return None;
      }
      var (symbol, description) := parsed.value;
      entries := entries + [Entry(symbol, description)];
      i := i + 1;
    }
    r := Some(entries);
  }
}
