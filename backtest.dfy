/** The walk-forward simulation `backtest` of
    `scripts/backtesting_stock_analysis.py`. Time advances in fixed periods from
    the earliest to the latest date of the score table. In each period the
    best-scored symbol of the day is bought at that day's open (unless it is
    already held), the period's bars are scanned for a stop-loss breach (which
    sells at the stop price and buys the best symbol of the breach day), and
    the position is marked to market at the open of the period's last day.
    Switches are only printed by the script; the log holds Stop-Loss and
    Reevaluate entries. */
module Backtest {
  import opened Market
  import opened ScoreTable

  datatype Action = StopLoss | Reevaluate

  /** One row of `investment_log`. */
  datatype LogEntry = LogEntry(date: int, symbol: string, action: Action, shares: real, price: real, value: real)

  /** The exceptions the loop can raise; each ends the run without a log. */
  datatype Failure =
    | EmptyScoreTable                          // `stock_scores['Date']` of an empty frame
    | NoOpenPrice(symbol: string, date: int)   // `.values[0]` with no bar on that date
    | NoCandidateAfterStopLoss(date: int)      // no score row on the breach day

  datatype Outcome = Completed(log: seq<LogEntry>) | Crashed(failure: Failure)

  /** The loop's variables: `current_date`, `current_investment`,
      `current_stock`, `current_shares` and `entry_price`. Before the first
      entry `stock` is None and `entryPrice` is never read. */
  datatype State = State(date: int, capital: real, stock: Option<string>, shares: real, entryPrice: real)

  datatype Params = Params(table: seq<ScoreRow>, folder: map<string, CsvFile>, stopLoss: real, period: int)

  /** Prices are positive, so buying divides by a non-zero open. */
  ghost predicate PositiveOpens(folder: map<string, CsvFile>)
  {
    forall name, b :: name in folder && b in folder[name].bars ==> b.open > 0.0
  }

  ghost predicate ValidParams(p: Params)
  {
    p.period > 0 && PositiveOpens(p.folder)
  }

  lemma FrameOpensPositive(folder: map<string, CsvFile>, symbol: string)
    requires PositiveOpens(folder)
    ensures forall b :: b in Frame(GetStockData(folder, symbol)) ==> b.open > 0.0
  {
  }

  /** `stock_data.loc[stock_data.index == date]`: the first bar of that date. */
  function BarOn(bars: seq<Bar>, date: int): (r: Option<Bar>)
    ensures r.None? <==> forall b :: b in bars ==> b.date != date
    ensures r.Some? ==> r.value in bars && r.value.date == date
  {
    if bars == [] then None
    else if bars[0].date == date then Some(bars[0])
    else BarOn(bars[1..], date)
  }

  /** `.values[0]`: the bar found is the first of its date in file order. */
  lemma {:induction false} BarOnIsFirst(bars: seq<Bar>, date: int, i: nat)
    requires i < |bars| && bars[i].date == date
    requires forall m :: 0 <= m < i ==> bars[m].date != date
    ensures BarOn(bars, date) == Some(bars[i])
    decreases i
  {
    if i > 0 {
      BarOnIsFirst(bars[1..], date, i - 1);
    }
  }

  /** A bar of the holding period `stock_data.loc[start:end]` whose low
      reaches the stop price. */
  predicate Breaches(b: Bar, start: int, end: int, stopPrice: real)
  {
    start <= b.date <= end && b.low <= stopPrice
  }

  /** The first bar from index `from` on, in file order, at which the scan of
      the holding period stops for a stop-loss. */
  function FirstBreach(bars: seq<Bar>, start: int, end: int, stopPrice: real, from: nat): (r: Option<nat>)
    requires from <= |bars|
    decreases |bars| - from
    ensures r.None? <==> forall j :: from <= j < |bars| ==> !Breaches(bars[j], start, end, stopPrice)
    ensures r.Some? ==> && from <= r.value < |bars| && Breaches(bars[r.value], start, end, stopPrice)
                        && forall j :: from <= j < r.value ==> !Breaches(bars[j], start, end, stopPrice)
  {
    if from == |bars| then None
    else if Breaches(bars[from], start, end, stopPrice) then Some(from)
    else FirstBreach(bars, start, end, stopPrice, from + 1)
  }

  /** `entry_price * (1 - stop_loss)`: the price at which a holding is sold. */
  function StopPrice(entryPrice: real, stopLoss: real): real
  {
    entryPrice * (1.0 - stopLoss)
  }

  /** `current_investment / entry_price`: the shares the capital buys. */
  function SharesFor(capital: real, price: real): real
    requires price > 0.0
  {
    capital / price
  }

  /** `current_shares * price`: what a holding is worth at `price`. */
  function ValueAt(shares: real, price: real): real
  {
    shares * price
  }

  /** Buying `symbol` on `date` with all the capital at that day's open. */
  function EnterAt(s: State, symbol: string, data: seq<Bar>, date: int): (r: Option<State>)
    requires forall b :: b in data ==> b.open > 0.0
    ensures r.None? <==> forall b :: b in data ==> b.date != date
    ensures r.Some? ==> && r.value.stock == Some(symbol) && r.value.date == s.date
                        && r.value.capital == s.capital && r.value.entryPrice > 0.0
                        && ValueAt(r.value.shares, r.value.entryPrice) == s.capital
                        && exists b :: b in data && b.date == date && b.open == r.value.entryPrice
  {
    match BarOn(data, date)
    case None => None
    case Some(b) => Some(s.(stock := Some(symbol), shares := SharesFor(s.capital, b.open), entryPrice := b.open))
  }

  datatype Step = Idle(next: State) | Traded(next: State, entries: seq<LogEntry>) | Failed(failure: Failure)

  /** Marking to market at the open of the period's last day. */
  function Reevaluation(h: State, data: seq<Bar>, endDate: int, before: seq<LogEntry>): Step
    requires h.stock.Some?
  {
    match BarOn(data, endDate)
    case None => Failed(NoOpenPrice(h.stock.value, endDate))
    case Some(b) =>
      var value := ValueAt(h.shares, b.open);
      Traded(h.(date := endDate, capital := value),
             before + [LogEntry(endDate, h.stock.value, Reevaluate, h.shares, b.open, value)])
  }

  /** No log entry is due: no row for the day, a falsy symbol, or an empty frame. */
  predicate NoCandidate(p: Params, date: int)
  {
    var best := GetBestStock(date, p.table);
    best.None? || best.value.symbol == "" || Frame(GetStockData(p.folder, best.value.symbol)) == []
  }

  /** One pass of the `while` loop. */
  function Period(p: Params, s: State): (o: Step)
    requires ValidParams(p)
    ensures !o.Failed? ==> o.next.date == s.date + p.period
    ensures LoggedPeriod(s.date, s.date + p.period, o)
  {
    if NoCandidate(p, s.date) then Idle(s.(date := s.date + p.period))
    else Follow(p, s, GetBestStock(s.date, p.table).value.symbol)
  }

  /** Holding `symbol` for the period, buying it first unless already held. */
  function Follow(p: Params, s: State, symbol: string): (o: Step)
    requires ValidParams(p)
    ensures !o.Failed? ==> o.next.date == s.date + p.period
    ensures LoggedPeriod(s.date, s.date + p.period, o)
  {
    var held := Held(p, s, symbol);
    if held.None? then Failed(NoOpenPrice(symbol, s.date))
    else Hold(p, held.value, Frame(GetStockData(p.folder, symbol)), s.date + p.period)
  }

  /** The position after the period's first trade: unchanged when `symbol`
      is already held, otherwise all the capital in `symbol` at that day's open. */
  function Held(p: Params, s: State, symbol: string): (r: Option<State>)
    requires ValidParams(p)
    ensures r.Some? ==> r.value.stock == Some(symbol) && r.value.date == s.date
    ensures s.stock == Some(symbol) ==> r == Some(s)
    ensures s.stock != Some(symbol) && r.Some? ==> ValueAt(r.value.shares, r.value.entryPrice) == s.capital
  {
    if s.stock == Some(symbol) then Some(s)
    else
      FrameOpensPositive(p.folder, symbol);
      EnterAt(s, symbol, Frame(GetStockData(p.folder, symbol)), s.date)
  }

  /** Holding `h`, bought from the bars `data`, from `h.date` to `endDate`:
      the first bar whose low reaches the stop price triggers a stop-loss. */
  function Hold(p: Params, h: State, data: seq<Bar>, endDate: int): (o: Step)
    requires ValidParams(p) && h.stock.Some?
    ensures !o.Failed? ==> o.next.date == endDate
    ensures LoggedPeriod(h.date, endDate, o)
  {
    var first := FirstBreach(data, h.date, endDate, StopPrice(h.entryPrice, p.stopLoss), 0);
    if first.None? then
      ReevaluationLogs(h, data, endDate, []);
      Reevaluation(h, data, endDate, [])
    else StopOut(p, h, data[first.value], endDate)
  }

  /** Selling the holding at the stop price on `day` and buying, at that
      day's open, the best-scored symbol of the day. */
  function StopOut(p: Params, h: State, day: Bar, endDate: int): (o: Step)
    requires ValidParams(p) && h.stock.Some? && h.date <= day.date <= endDate
    ensures !o.Failed? ==> o.next.date == endDate
    ensures LoggedPeriod(h.date, endDate, o)
  {
    var stopPrice := StopPrice(h.entryPrice, p.stopLoss);
    var value := ValueAt(h.shares, stopPrice);
    var exit := LogEntry(day.date, h.stock.value, StopLoss, h.shares, stopPrice, value);
    var best := GetBestStock(day.date, p.table);
    if best.None? then Failed(NoCandidateAfterStopLoss(day.date))
    else
      var next := best.value.symbol;
      var data := Frame(GetStockData(p.folder, next));
      FrameOpensPositive(p.folder, next);
      match EnterAt(h.(capital := value), next, data, day.date)
      case None => Failed(NoOpenPrice(next, day.date))
      case Some(h') =>
        ReevaluationLogs(h', data, endDate, [exit]);
        Reevaluation(h', data, endDate, [exit])
  }

  function Prepend(entries: seq<LogEntry>, o: Outcome): Outcome
  {
    match o
    case Completed(log) => Completed(entries + log)
    case Crashed(_) => o
  }

  /** The loop from state `s` to its end: `while current_date <= last`. */
  function Simulate(p: Params, last: int, s: State): Outcome
    requires ValidParams(p)
    decreases last - s.date
  {
    if s.date > last then Completed([])
    else match Period(p, s)
      case Failed(f) => Crashed(f)
      case Idle(n) => Simulate(p, last, n)
      case Traded(n, e) => Prepend(e, Simulate(p, last, n))
  }

  function MinDate(table: seq<ScoreRow>): (d: int)
    requires table != []
    ensures exists row :: row in table && row.date == d
    ensures forall row :: row in table ==> d <= row.date
  {
    if |table| == 1 then table[0].date
    else var m := MinDate(table[1..]); if table[0].date <= m then table[0].date else m
  }

  function MaxDate(table: seq<ScoreRow>): (d: int)
    requires table != []
    ensures exists row :: row in table && row.date == d
    ensures forall row :: row in table ==> row.date <= d
  {
    if |table| == 1 then table[0].date
    else var m := MaxDate(table[1..]); if table[0].date >= m then table[0].date else m
  }

  /** The start of the run: all capital in cash at the earliest scored date. */
  function Start(table: seq<ScoreRow>, initial: real): State
    requires table != []
  {
    State(MinDate(table), initial, None, 0.0, 0.0)
  }

  function RunBacktest(p: Params, initial: real): Outcome
    requires ValidParams(p)
  {
    if p.table == [] then Crashed(EmptyScoreTable)
    else Simulate(p, MaxDate(p.table), Start(p.table, initial))
  }

  // ---- the imperative loop ----

  /** The body of the `while` loop for one period: picking and entering the
      best-scored symbol, then monitoring it. */
  method RunPeriod(p: Params, s: State) returns (o: Step)
    requires ValidParams(p)
    ensures o == Period(p, s)
  {
    var date := s.date;
    var endDate := date + p.period;
    var best := GetBestStock(date, p.table);
    if best.None? || best.value.symbol == "" {
      PeriodIdles(p, s);
      return Idle(s.(date := endDate));
    }
    var symbol := best.value.symbol;
    var data := Frame(GetStockData(p.folder, symbol));
    if data == [] {
      PeriodIdles(p, s);
      return Idle(s.(date := endDate));
    }
    PeriodFollows(p, s);
    o := FollowPeriod(p, s, symbol, data);
  }

  /** Entering `symbol` unless it is already held, then monitoring it. */
  method FollowPeriod(p: Params, s: State, symbol: string, data: seq<Bar>) returns (o: Step)
    requires ValidParams(p) && data == Frame(GetStockData(p.folder, symbol))
    ensures o == Follow(p, s, symbol)
  {
    var h := s;
    if s.stock != Some(symbol) {
      var bar := BarOn(data, s.date);
      if bar.None? {
        HeldMissing(p, s, symbol);
        FollowFails(p, s, symbol);
        return Failed(NoOpenPrice(symbol, s.date));
      }
      FrameOpensPositive(p.folder, symbol);
      h := s.(stock := Some(symbol), shares := SharesFor(s.capital, bar.value.open), entryPrice := bar.value.open);
      HeldEnters(p, s, symbol, bar.value);
    }
    FollowHolds(p, s, symbol, h);
    o := Monitor(p, h, data, s.date + p.period);
  }

  /** Without a bar on the day, a symbol not yet held cannot be bought. */
  lemma HeldMissing(p: Params, s: State, symbol: string)
    requires ValidParams(p) && s.stock != Some(symbol)
    requires BarOn(Frame(GetStockData(p.folder, symbol)), s.date).None?
    ensures Held(p, s, symbol).None?
  {
  }

  /** A symbol not yet held is bought with all the capital at the open of
      the day's bar. */
  lemma HeldEnters(p: Params, s: State, symbol: string, b: Bar)
    requires ValidParams(p) && s.stock != Some(symbol)
    requires BarOn(Frame(GetStockData(p.folder, symbol)), s.date) == Some(b) && b.open > 0.0
    ensures Held(p, s, symbol) == Some(s.(stock := Some(symbol), shares := SharesFor(s.capital, b.open), entryPrice := b.open))
  {
  }

  /** A symbol bought at the start of a period is bought at the open of
      its bar on that day. */
  lemma HeldAtOpen(p: Params, s: State, sym: string, h: State)
    requires ValidParams(p) && s.stock != Some(sym) && Held(p, s, sym) == Some(h)
    ensures BarOn(Frame(GetStockData(p.folder, sym)), s.date).Some?
    ensures h.entryPrice == BarOn(Frame(GetStockData(p.folder, sym)), s.date).value.open
  {
    var data := Frame(GetStockData(p.folder, sym));
    FrameOpensPositive(p.folder, sym);
    if BarOn(data, s.date).None? {
      HeldMissing(p, s, sym);
    } else {
      HeldEnters(p, s, sym, BarOn(data, s.date).value);
    }
  }

  lemma PeriodIdles(p: Params, s: State)
    requires ValidParams(p) && NoCandidate(p, s.date)
    ensures Period(p, s) == Idle(s.(date := s.date + p.period))
  {
  }

  lemma PeriodFollows(p: Params, s: State)
    requires ValidParams(p) && !NoCandidate(p, s.date)
    ensures Period(p, s) == Follow(p, s, GetBestStock(s.date, p.table).value.symbol)
  {
  }

  lemma FollowFails(p: Params, s: State, symbol: string)
    requires ValidParams(p) && Held(p, s, symbol).None?
    ensures Follow(p, s, symbol) == Failed(NoOpenPrice(symbol, s.date))
  {
  }

  lemma FollowHolds(p: Params, s: State, symbol: string, h: State)
    requires ValidParams(p) && Held(p, s, symbol) == Some(h)
    ensures Follow(p, s, symbol) == Hold(p, h, Frame(GetStockData(p.folder, symbol)), s.date + p.period)
  {
    assert Held(p, s, symbol).value == h;
  }

  /** The scan over the period's bars, which stops at the first stop-loss,
      and the reevaluation at the end of the period. The rows of
      `stock_data.loc[current_date:end]` are the rows of the frame dated in
      that range, visited in file order. */
  method Monitor(p: Params, h: State, data: seq<Bar>, endDate: int) returns (o: Step)
    requires ValidParams(p) && h.stock.Some?
    ensures o == Hold(p, h, data, endDate)
  {
    var stock, shares, entryPrice, capital, bars := h.stock, h.shares, h.entryPrice, h.capital, data;
    var log: seq<LogEntry> := [];
    ghost var stopPrice := StopPrice(h.entryPrice, p.stopLoss);
    ghost var stopped := false;
    var i := 0;
    while i < |data|
      invariant 0 <= i <= |data|
      invariant forall j :: 0 <= j < i ==> !Breaches(data[j], h.date, endDate, stopPrice)
      invariant stock == h.stock && shares == h.shares && entryPrice == h.entryPrice
      invariant capital == h.capital && bars == data && log == [] && !stopped
    {
      var day := data[i];
      if h.date <= day.date <= endDate && day.low <= StopPrice(entryPrice, p.stopLoss) {
        HoldBreach(p, h, data, endDate, i);
        var exitPrice := StopPrice(entryPrice, p.stopLoss);
        capital := ValueAt(shares, exitPrice);
        log := log + [LogEntry(day.date, stock.value, StopLoss, shares, exitPrice, capital)];
        var next := GetBestStock(day.date, p.table);
        if next.None? {
          return Failed(NoCandidateAfterStopLoss(day.date));
        }
        bars := Frame(GetStockData(p.folder, next.value.symbol));
        FrameOpensPositive(p.folder, next.value.symbol);
        var bar := BarOn(bars, day.date);
        if bar.None? {
          return Failed(NoOpenPrice(next.value.symbol, day.date));
        }
        entryPrice := bar.value.open;
        shares := SharesFor(capital, entryPrice);
        stock := Some(next.value.symbol);
        assert Hold(p, h, data, endDate) == Reevaluation(State(h.date, capital, stock, shares, entryPrice), bars, endDate, log);
        stopped := true;
        break;
      }
      i := i + 1;
    }
    if !stopped {
      HoldClear(p, h, data, endDate);
    }
    assert Hold(p, h, data, endDate) == Reevaluation(State(h.date, capital, stock, shares, entryPrice), bars, endDate, log);
    var bar := BarOn(bars, endDate);
    if bar.None? {
      o := Failed(NoOpenPrice(stock.value, endDate));
    } else {
      capital := ValueAt(shares, bar.value.open);
      log := log + [LogEntry(endDate, stock.value, Reevaluate, shares, bar.value.open, capital)];
      o := Traded(State(endDate, capital, stock, shares, entryPrice), log);
    }
  }

  lemma HoldBreach(p: Params, h: State, data: seq<Bar>, endDate: int, k: nat)
    requires ValidParams(p) && h.stock.Some?
    requires k < |data| && Breaches(data[k], h.date, endDate, StopPrice(h.entryPrice, p.stopLoss))
    requires forall j :: 0 <= j < k ==> !Breaches(data[j], h.date, endDate, StopPrice(h.entryPrice, p.stopLoss))
    ensures Hold(p, h, data, endDate) == StopOut(p, h, data[k], endDate)
  {
    FirstBreachIsFirst(data, h.date, endDate, StopPrice(h.entryPrice, p.stopLoss), k);
  }

  lemma HoldClear(p: Params, h: State, data: seq<Bar>, endDate: int)
    requires ValidParams(p) && h.stock.Some?
    requires forall j :: 0 <= j < |data| ==> !Breaches(data[j], h.date, endDate, StopPrice(h.entryPrice, p.stopLoss))
    ensures Hold(p, h, data, endDate) == Reevaluation(h, data, endDate, [])
  {
    assert FirstBreach(data, h.date, endDate, StopPrice(h.entryPrice, p.stopLoss), 0).None?;
  }

  /** The first breaching bar is the one the scan stops at. */
  lemma FirstBreachIsFirst(bars: seq<Bar>, start: int, end: int, stopPrice: real, k: nat)
    requires k < |bars| && Breaches(bars[k], start, end, stopPrice)
    requires forall j :: 0 <= j < k ==> !Breaches(bars[j], start, end, stopPrice)
    ensures FirstBreach(bars, start, end, stopPrice, 0) == Some(k)
  {
    var r := FirstBreach(bars, start, end, stopPrice, 0);
    assert r.Some?;
  }

  /** `backtest`: the whole run, crashing where the script raises. */
  method RunBacktestLoop(table: seq<ScoreRow>, initial: real, stopLoss: real, period: int, folder: map<string, CsvFile>)
    returns (o: Outcome)
    requires period > 0 && PositiveOpens(folder)
    ensures o == RunBacktest(Params(table, folder, stopLoss, period), initial)
  {
    var p := Params(table, folder, stopLoss, period);
    if table == [] {
      return Crashed(EmptyScoreTable);
    }
    var last := MaxDate(table);
    var s := Start(table, initial);
    var log: seq<LogEntry> := [];
    ghost var whole := RunBacktest(p, initial);
    while s.date <= last
      invariant whole == Prepend(log, Simulate(p, last, s))
      decreases last - s.date
    {
      var step := RunPeriod(p, s);
      SimulateAdvance(p, last, s, log);
      match step
      case Failed(f) =>
        return Crashed(f);
      case Idle(n) =>
        s := n;
      case Traded(n, e) =>
        log := log + e;
        s := n;
    }
    assert log + [] == log;
    o := Completed(log);
  }

  /** One pass of the loop seen from the whole run: a failure ends it, an
      idle period only moves on, a trading period moves its entries into
      the log. */
  lemma SimulateAdvance(p: Params, last: int, s: State, log: seq<LogEntry>)
    requires ValidParams(p) && s.date <= last
    ensures Period(p, s).Failed? ==> Prepend(log, Simulate(p, last, s)) == Crashed(Period(p, s).failure)
    ensures Period(p, s).Idle? ==> Prepend(log, Simulate(p, last, s)) == Prepend(log, Simulate(p, last, Period(p, s).next))
    ensures Period(p, s).Traded? ==>
              Prepend(log, Simulate(p, last, s)) == Prepend(log + Period(p, s).entries, Simulate(p, last, Period(p, s).next))
  {
    var step := Period(p, s);
    if step.Traded? {
      PrependTwice(log, step.entries, Simulate(p, last, step.next));
    }
  }

  lemma PrependTwice(a: seq<LogEntry>, b: seq<LogEntry>, o: Outcome)
    ensures Prepend(a, Prepend(b, o)) == Prepend(a + b, o)
  {
    if o.Completed? {
      assert a + (b + o.log) == (a + b) + o.log;
    }
  }

  // ---- what the log records ----

  /** The entries one trading period appends: a Reevaluate dated at the end
      of the period, valued at the new capital, optionally preceded by one
      Stop-Loss dated inside the period; every entry is valued at its shares
      times its price. */
  predicate PeriodLog(start: int, endDate: int, e: seq<LogEntry>, next: State)
  {
    && (|e| == 1 || |e| == 2)
    && Last(e).action == Reevaluate && Last(e).date == endDate
    && Last(e).value == next.capital && next.stock == Some(Last(e).symbol) && Last(e).shares == next.shares
    && (|e| == 2 ==> e[0].action == StopLoss && start <= e[0].date <= endDate)
    && (forall i :: 0 <= i < |e| ==> e[i].value == ValueAt(e[i].shares, e[i].price))
  }

  lemma ReevaluationLogs(h: State, data: seq<Bar>, endDate: int, before: seq<LogEntry>)
    requires h.stock.Some?
    ensures var o := Reevaluation(h, data, endDate, before);
            o.Traded? ==> && o.entries[..|before|] == before && |o.entries| == |before| + 1
                          && Last(o.entries).action == Reevaluate && Last(o.entries).date == endDate
                          && Last(o.entries).symbol == h.stock.value && Last(o.entries).shares == h.shares
                          && Last(o.entries).value == ValueAt(Last(o.entries).shares, Last(o.entries).price)
                          && BarOn(data, endDate).Some? && Last(o.entries).price == BarOn(data, endDate).value.open
                          && o.next == h.(date := endDate, capital := Last(o.entries).value)
  {
    var o := Reevaluation(h, data, endDate, before);
    if o.Traded? {
      assert o.entries[..|before|] == before;
    }
  }

  /** A stop-loss sells at the stop price, not at the low: the exit is worth
      `1 - stopLoss` of the holding at its entry price. All of it is then
      put into the best symbol of the breach day at that day's open, and the
      period closes at the open of that symbol's bar on its last day. */
  lemma StopOutLogs(p: Params, h: State, day: Bar, endDate: int)
    requires ValidParams(p) && h.stock.Some?
    requires Breaches(day, h.date, endDate, StopPrice(h.entryPrice, p.stopLoss))
    ensures var o := StopOut(p, h, day, endDate);
            var best := GetBestStock(day.date, p.table);
            o.Traded? ==> && |o.entries| == 2
                          && o.entries[0] == LogEntry(day.date, h.stock.value, StopLoss, h.shares,
                                                      StopPrice(h.entryPrice, p.stopLoss),
                                                      ValueAt(h.shares, StopPrice(h.entryPrice, p.stopLoss)))
                          && o.entries[0].value == ValueAt(h.shares, h.entryPrice) * (1.0 - p.stopLoss)
                          && best.Some? && o.next.stock == Some(best.value.symbol)
                          && BarOn(Frame(GetStockData(p.folder, best.value.symbol)), day.date).Some?
                          && o.next.entryPrice == BarOn(Frame(GetStockData(p.folder, best.value.symbol)), day.date).value.open
                          && ValueAt(o.next.shares, o.next.entryPrice) == o.entries[0].value
                          && AtOpen(p.folder, Last(o.entries))
  {
    var stopPrice := StopPrice(h.entryPrice, p.stopLoss);
    var value := ValueAt(h.shares, stopPrice);
    var exit := LogEntry(day.date, h.stock.value, StopLoss, h.shares, stopPrice, value);
    var best := GetBestStock(day.date, p.table);
    if best.Some? {
      var next := best.value.symbol;
      var data := Frame(GetStockData(p.folder, next));
      FrameOpensPositive(p.folder, next);
      var entered := EnterAt(h.(capital := value), next, data, day.date);
      if entered.Some? {
        assert StopOut(p, h, day, endDate) == Reevaluation(entered.value, data, endDate, [exit]);
        ReevaluationLogs(entered.value, data, endDate, [exit]);
      }
    }
  }

  /** A Reevaluate entry is valued at the open of its symbol's bar on its
      date; a Stop-Loss entry is valued at the stop price instead. */
  predicate AtOpen(folder: map<string, CsvFile>, e: LogEntry)
  {
    e.action == Reevaluate ==>
      var bar := BarOn(Frame(GetStockData(folder, e.symbol)), e.date);
      bar.Some? && e.price == bar.value.open
  }

  /** Every entry of `log` is valued as `AtOpen` says. */
  predicate ReevaluatedAtOpen(folder: map<string, CsvFile>, log: seq<LogEntry>)
  {
    log == [] || (AtOpen(folder, log[0]) && ReevaluatedAtOpen(folder, log[1..]))
  }

  /** What holding `h` to `endDate` yields when it trades: the entries are
      valued at the opens, the first sells `h`'s symbol; without a breach
      the position is unchanged and marked at the end; after a breach the
      new position is worth what the exit brought (`1 - stopLoss` of `h`'s
      worth at its entry price) and is the best symbol of the breach day,
      bought at that day's open. */
  predicate HeldThrough(p: Params, h: State, endDate: int, o: Step)
    requires h.stock.Some?
  {
    o.Traded? ==>
      && (|o.entries| == 1 || |o.entries| == 2)
      && ReevaluatedAtOpen(p.folder, o.entries)
      && o.entries[0].symbol == h.stock.value
      && (|o.entries| == 1 ==> o.next == h.(date := endDate, capital := Last(o.entries).value))
      && (|o.entries| == 2 ==>
            && o.entries[0].value == ValueAt(h.shares, h.entryPrice) * (1.0 - p.stopLoss)
            && ValueAt(o.next.shares, o.next.entryPrice) == o.entries[0].value
            && GetBestStock(o.entries[0].date, p.table).Some?
            && o.next.stock == Some(GetBestStock(o.entries[0].date, p.table).value.symbol)
            && BarOn(Frame(GetStockData(p.folder, o.next.stock.value)), o.entries[0].date).Some?
            && o.next.entryPrice == BarOn(Frame(GetStockData(p.folder, o.next.stock.value)), o.entries[0].date).value.open)
  }

  lemma HoldEntry(p: Params, h: State, endDate: int, o: Step)
    requires ValidParams(p) && h.stock.Some? && h.date <= endDate
    requires o == Hold(p, h, Frame(GetStockData(p.folder, h.stock.value)), endDate)
    ensures HeldThrough(p, h, endDate, o)
  {
    var data := Frame(GetStockData(p.folder, h.stock.value));
    var first := FirstBreach(data, h.date, endDate, StopPrice(h.entryPrice, p.stopLoss), 0);
    if first.None? {
      HoldClear(p, h, data, endDate);
      ReevaluationLogs(h, data, endDate, []);
      if o.Traded? {
        assert AtOpen(p.folder, o.entries[0]);
      }
    } else {
      var k := first.value;
      HoldBreach(p, h, data, endDate, k);
      StopOutLogs(p, h, data[k], endDate);
      if o.Traded? {
        assert AtOpen(p.folder, o.entries[0]);
        assert AtOpen(p.folder, o.entries[1]);
      }
    }
  }

  /** Following the symbol already held for one period: the period yields
      what holding the position itself yields. */
  lemma FollowKept(p: Params, s: State, sym: string)
    requires ValidParams(p) && s.stock == Some(sym)
    ensures HeldThrough(p, s, s.date + p.period, Follow(p, s, sym))
  {
    var data := Frame(GetStockData(p.folder, sym));
    assert Follow(p, s, sym) == Hold(p, s, data, s.date + p.period) by {
      FollowHolds(p, s, sym, s);
    }
    HoldEntry(p, s, s.date + p.period, Follow(p, s, sym));
  }

  /** Switching to `sym` for one period: all the capital buys it at the
      open of the day, and the period yields what holding that position
      yields. */
  lemma FollowSwitched(p: Params, s: State, sym: string)
    requires ValidParams(p) && s.stock != Some(sym)
    ensures Follow(p, s, sym).Traded? ==>
              && Held(p, s, sym).Some?
              && var h := Held(p, s, sym).value;
                 && h.stock == Some(sym) && h.date == s.date && ValueAt(h.shares, h.entryPrice) == s.capital
                 && BarOn(Frame(GetStockData(p.folder, sym)), s.date).Some?
                 && h.entryPrice == BarOn(Frame(GetStockData(p.folder, sym)), s.date).value.open
                 && HeldThrough(p, h, s.date + p.period, Follow(p, s, sym))
  {
    var held := Held(p, s, sym);
    if held.Some? {
      var h := held.value;
      assert Follow(p, s, sym) == Hold(p, h, Frame(GetStockData(p.folder, sym)), s.date + p.period) by {
        FollowHolds(p, s, sym, h);
      }
      HoldEntry(p, h, s.date + p.period, Follow(p, s, sym));
      HeldAtOpen(p, s, sym, h);
    } else {
      FollowFails(p, s, sym);
    }
  }

  /** One pass of the loop that trades: there is a candidate for the day,
      and the position `h` held through the period is `s` itself when the
      candidate is already held, and otherwise all of `s`'s capital put into
      the candidate at the open of its bar on the day. The period then
      yields what holding `h` yields: `h` unchanged but for date and capital
      without a breach, and after a breach the best symbol of the breach day
      bought with everything the exit brought. */
  lemma PeriodEntry(p: Params, s: State)
    requires ValidParams(p)
    ensures var o := Period(p, s);
            o.Traded? ==>
              && !NoCandidate(p, s.date)
              && var sym := GetBestStock(s.date, p.table).value.symbol;
                 && Held(p, s, sym).Some?
                 && var h := Held(p, s, sym).value;
                    && h.stock == Some(sym) && h.date == s.date
                    && (s.stock == Some(sym) ==> h == s)
                    && (s.stock != Some(sym) ==>
                          && ValueAt(h.shares, h.entryPrice) == s.capital
                          && BarOn(Frame(GetStockData(p.folder, sym)), s.date).Some?
                          && h.entryPrice == BarOn(Frame(GetStockData(p.folder, sym)), s.date).value.open)
                    && HeldThrough(p, h, s.date + p.period, o)
  {
    if !NoCandidate(p, s.date) {
      var sym := GetBestStock(s.date, p.table).value.symbol;
      assert Period(p, s) == Follow(p, s, sym) by {
        PeriodFollows(p, s);
      }
      if s.stock == Some(sym) {
        FollowKept(p, s, sym);
      } else {
        FollowSwitched(p, s, sym);
      }
    }
  }

  /** What the position is worth at its entry price after a trading pass:
      the capital `s` started with when the candidate is bought, the
      position `s` itself when it was already held, and everything the exit
      brought after a stop-loss. */
  lemma PeriodEntryValue(p: Params, s: State)
    requires ValidParams(p)
    ensures var o := Period(p, s);
            o.Traded? ==>
              && !NoCandidate(p, s.date)
              && var sym := GetBestStock(s.date, p.table).value.symbol;
                 && (|o.entries| == 1 && s.stock != Some(sym) ==> ValueAt(o.next.shares, o.next.entryPrice) == s.capital)
                 && (|o.entries| == 1 && s.stock == Some(sym) ==> o.next.shares == s.shares && o.next.entryPrice == s.entryPrice)
                 && (|o.entries| == 2 && s.stock != Some(sym) ==> o.entries[0].value == s.capital * (1.0 - p.stopLoss))
                 && (|o.entries| == 2 && s.stock == Some(sym) ==>
                       o.entries[0].value == ValueAt(s.shares, s.entryPrice) * (1.0 - p.stopLoss))
                 && (|o.entries| == 2 ==> ValueAt(o.next.shares, o.next.entryPrice) == o.entries[0].value)
  {
    var o := Period(p, s);
    if o.Traded? {
      PeriodEntry(p, s);
      var sym := GetBestStock(s.date, p.table).value.symbol;
      EntryWorth(p, s, sym, Held(p, s, sym).value, o);
    }
  }

  lemma EntryWorth(p: Params, s: State, sym: string, h: State, o: Step)
    requires h.stock == Some(sym) && o.Traded?
    requires s.stock == Some(sym) ==> h == s
    requires s.stock != Some(sym) ==> ValueAt(h.shares, h.entryPrice) == s.capital
    requires HeldThrough(p, h, s.date + p.period, o)
    ensures && (|o.entries| == 1 && s.stock != Some(sym) ==> ValueAt(o.next.shares, o.next.entryPrice) == s.capital)
            && (|o.entries| == 1 && s.stock == Some(sym) ==> o.next.shares == s.shares && o.next.entryPrice == s.entryPrice)
            && (|o.entries| == 2 && s.stock != Some(sym) ==> o.entries[0].value == s.capital * (1.0 - p.stopLoss))
            && (|o.entries| == 2 && s.stock == Some(sym) ==>
                  o.entries[0].value == ValueAt(s.shares, s.entryPrice) * (1.0 - p.stopLoss))
            && (|o.entries| == 2 ==> ValueAt(o.next.shares, o.next.entryPrice) == o.entries[0].value)
  {
  }

  /** A step that trades writes the entries of one period. */
  predicate LoggedPeriod(start: int, endDate: int, o: Step)
  {
    o.Traded? ==> PeriodLog(start, endDate, o.entries, o.next)
  }

  /** A period with a candidate never idles: it trades or raises. */
  lemma FollowNeverIdles(p: Params, s: State, symbol: string)
    requires ValidParams(p)
    ensures !Follow(p, s, symbol).Idle?
  {
    if Held(p, s, symbol).None? {
      FollowFails(p, s, symbol);
    } else {
      var h := Held(p, s, symbol).value;
      FollowHolds(p, s, symbol, h);
      HoldNeverIdles(p, s, symbol, h);
    }
  }

  lemma HoldNeverIdles(p: Params, s: State, symbol: string, h: State)
    requires ValidParams(p) && h.stock.Some?
    requires Follow(p, s, symbol) == Hold(p, h, Frame(GetStockData(p.folder, symbol)), s.date + p.period)
    ensures !Follow(p, s, symbol).Idle?
  {
  }

  /** No log entry is written, and the date still advances, exactly when
      there is no candidate for the day. */
  lemma PeriodIdleIff(p: Params, s: State)
    requires ValidParams(p)
    ensures Period(p, s).Idle? <==> NoCandidate(p, s.date)
  {
    if !NoCandidate(p, s.date) {
      PeriodFollows(p, s);
      FollowNeverIdles(p, s, GetBestStock(s.date, p.table).value.symbol);
    }
  }

  predicate Nondecreasing(log: seq<LogEntry>)
  {
    forall i, j :: 0 <= i < j < |log| ==> log[i].date <= log[j].date
  }

  /** Every entry is worth its shares times its price. */
  predicate Priced(log: seq<LogEntry>)
  {
    forall i :: 0 <= i < |log| ==> log[i].value == ValueAt(log[i].shares, log[i].price)
  }

  /** The end of the `k`-th period after `start`. */
  function PeriodEnd(start: int, period: int, k: nat): int
  {
    start + k * period
  }

  /** Every Reevaluate entry closes a whole number of periods after `start`. */
  ghost predicate OnCadence(log: seq<LogEntry>, start: int, period: int)
  {
    forall i :: 0 <= i < |log| && log[i].action == Reevaluate ==> exists k: nat :: log[i].date == PeriodEnd(start, period, k)
  }

  /** A period's entries followed by the log of the later periods stay in
      date order, from the period's start on. */
  lemma TradedOrdered(start: int, next: State, e: seq<LogEntry>, rest: seq<LogEntry>)
    requires start <= next.date && PeriodLog(start, next.date, e, next)
    requires Nondecreasing(rest) && forall i :: 0 <= i < |rest| ==> next.date <= rest[i].date
    ensures Nondecreasing(e + rest) && forall i :: 0 <= i < |e + rest| ==> start <= (e + rest)[i].date
  {
    assert forall i :: 0 <= i < |e| ==> start <= e[i].date <= next.date;
  }

  lemma ConcatPriced(e: seq<LogEntry>, rest: seq<LogEntry>)
    requires Priced(e) && Priced(rest)
    ensures Priced(e + rest)
  {
  }

  /** One step of the loop from `s`: it fails, idles to `n`, or trades the
      entries `e` and moves to `n`. */
  lemma SimulateStep(p: Params, last: int, s: State)
    requires ValidParams(p) && s.date <= last
    ensures var step := Period(p, s);
            && (step.Failed? ==> Simulate(p, last, s).Crashed?)
            && (step.Idle? ==> Simulate(p, last, s) == Simulate(p, last, step.next))
            && (step.Traded? ==> Simulate(p, last, s) == Prepend(step.entries, Simulate(p, last, step.next)))
            && (!step.Failed? ==> step.next.date == s.date + p.period)
            && (step.Traded? ==> PeriodLog(s.date, s.date + p.period, step.entries, step.next))
  {
  }

  /** A completed run logs in date order, from its starting date on. */
  lemma {:induction false} SimulateOrdered(p: Params, last: int, s: State)
    requires ValidParams(p)
    decreases last - s.date
    ensures var o := Simulate(p, last, s);
            o.Completed? ==> Nondecreasing(o.log) && forall i :: 0 <= i < |o.log| ==> s.date <= o.log[i].date
  {
    if s.date <= last {
      SimulateStep(p, last, s);
      var step := Period(p, s);
      if !step.Failed? {
        SimulateOrdered(p, last, step.next);
        var rest := Simulate(p, last, step.next);
        if step.Traded? && rest.Completed? {
          TradedOrdered(s.date, step.next, step.entries, rest.log);
        }
      }
    }
  }

  /** Every entry of a completed run is worth its shares times its price. */
  lemma {:induction false} SimulatePriced(p: Params, last: int, s: State)
    requires ValidParams(p)
    decreases last - s.date
    ensures var o := Simulate(p, last, s);
            o.Completed? ==> Priced(o.log)
  {
    if s.date <= last {
      SimulateStep(p, last, s);
      var step := Period(p, s);
      if !step.Failed? {
        SimulatePriced(p, last, step.next);
        var rest := Simulate(p, last, step.next);
        if step.Traded? && rest.Completed? {
          ConcatPriced(step.entries, rest.log);
        }
      }
    }
  }

  lemma {:induction false} ConcatAtOpen(folder: map<string, CsvFile>, e: seq<LogEntry>, rest: seq<LogEntry>)
    requires ReevaluatedAtOpen(folder, e) && ReevaluatedAtOpen(folder, rest)
    ensures ReevaluatedAtOpen(folder, e + rest)
  {
    if e != [] {
      ConcatAtOpen(folder, e[1..], rest);
      assert (e + rest)[1..] == e[1..] + rest;
    } else {
      assert e + rest == rest;
    }
  }

  /** Every Reevaluate entry of a completed run is valued at the open of its
      symbol's bar on its date. */
  lemma {:induction false} SimulateAtOpen(p: Params, last: int, s: State)
    requires ValidParams(p)
    decreases last - s.date
    ensures var o := Simulate(p, last, s);
            o.Completed? ==> ReevaluatedAtOpen(p.folder, o.log)
  {
    if s.date <= last {
      SimulateStep(p, last, s);
      var step := Period(p, s);
      if !step.Failed? {
        SimulateAtOpen(p, last, step.next);
        var rest := Simulate(p, last, step.next);
        if step.Traded? && rest.Completed? {
          assert ReevaluatedAtOpen(p.folder, step.entries) by {
            PeriodEntry(p, s);
          }
          ConcatAtOpen(p.folder, step.entries, rest.log);
        }
      }
    }
  }

  /** The entries of the period from `start` (none when it idles) followed
      by a log on cadence from the next period's start are on cadence. */
  lemma CadenceStep(start: int, period: int, n: State, e: seq<LogEntry>, rest: seq<LogEntry>)
    requires n.date == start + period
    requires e == [] || PeriodLog(start, n.date, e, n)
    requires OnCadence(rest, n.date, period)
    ensures OnCadence(e + rest, start, period)
  {
    forall i | 0 <= i < |rest| && rest[i].action == Reevaluate
      ensures exists k: nat :: rest[i].date == PeriodEnd(start, period, k)
    {
      var k: nat :| rest[i].date == PeriodEnd(n.date, period, k);
      assert rest[i].date == PeriodEnd(start, period, k + 1);
    }
    if e != [] {
      assert Last(e).date == PeriodEnd(start, period, 1);
    }
  }

  /** Every Reevaluate entry of a completed run closes a whole number of
      periods after the starting date. */
  lemma {:induction false} SimulateOnCadence(p: Params, last: int, s: State)
    requires ValidParams(p)
    decreases last - s.date
    ensures var o := Simulate(p, last, s);
            o.Completed? ==> OnCadence(o.log, s.date, p.period)
  {
    if s.date <= last {
      SimulateStep(p, last, s);
      var step := Period(p, s);
      if !step.Failed? {
        SimulateOnCadence(p, last, step.next);
        var rest := Simulate(p, last, step.next);
        if rest.Completed? {
          var e := if step.Traded? then step.entries else [];
          CadenceStep(s.date, p.period, step.next, e, rest.log);
          assert step.Idle? ==> e + rest.log == rest.log;
        }
      }
    }
  }

  /** `backtest`'s log, when the run completes: in date order from the
      earliest scored date, every entry worth shares times price, every
      Reevaluate a whole number of periods after that date and valued at
      the open of its symbol's bar on that date. */
  lemma BacktestLog(p: Params, initial: real)
    requires ValidParams(p)
    ensures var o := RunBacktest(p, initial);
            o.Completed? ==> && p.table != [] && Nondecreasing(o.log) && Priced(o.log)
                             && OnCadence(o.log, MinDate(p.table), p.period)
                             && ReevaluatedAtOpen(p.folder, o.log)
                             && forall i :: 0 <= i < |o.log| ==> MinDate(p.table) <= o.log[i].date
  {
    if p.table != [] {
      var s := Start(p.table, initial);
      SimulateOrdered(p, MaxDate(p.table), s);
      SimulatePriced(p, MaxDate(p.table), s);
      SimulateOnCadence(p, MaxDate(p.table), s);
      SimulateAtOpen(p, MaxDate(p.table), s);
    }
  }
}
