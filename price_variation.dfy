/** `calculate_price_variation` of `scripts/plot_stock_analysis.py` (the
    same computation sits inline in the plotting function of the market-cap
    script): the latest close, and its percentage change against the close
    two and six weeks before the last bar's date. */
module PriceVariation {
  import opened Market

  /** `timedelta(weeks=2)` and `timedelta(weeks=6)` in days. */
  const TwoWeeks := 14
  const SixWeeks := 42

  /** The index of the last of the first `k` bars dated on or before
      `cutoff`, if there is one. */
  function LastOnOrBefore(data: seq<Bar>, cutoff: int, k: nat): (r: Option<nat>)
    requires k <= |data|
    ensures r.Some? ==> r.value < k && data[r.value].date <= cutoff
    ensures r.Some? ==> forall j :: r.value < j < k ==> data[j].date > cutoff
    ensures r.None? <==> forall j :: 0 <= j < k ==> data[j].date > cutoff
  {
    if k == 0 then None
    else if data[k - 1].date <= cutoff then Some(k - 1)
    else LastOnOrBefore(data, cutoff, k - 1)
  }

  /** `data.loc[data.index <= cutoff]['Close'].iloc[-1]` when that selection
      is not empty, else `None`. */
  function CloseOnOrBefore(data: seq<Bar>, cutoff: int): Option<real>
  {
    match LastOnOrBefore(data, cutoff, |data|)
    case None => None
    case Some(i) => Some(data[i].close)
  }

  /** The lookup agrees with the date filter the other scripts use: no price
      exactly when the filtered rows are empty, and otherwise the close of
      the last filtered row. */
  lemma {:induction false} CloseOnOrBeforeIsLastOfUpTo(data: seq<Bar>, cutoff: int)
    ensures CloseOnOrBefore(data, cutoff).None? <==> UpTo(data, cutoff) == []
    ensures CloseOnOrBefore(data, cutoff).Some? ==>
              UpTo(data, cutoff) != [] && CloseOnOrBefore(data, cutoff).value == Last(UpTo(data, cutoff)).close
    decreases |data|
  {
    if data != [] {
      var init := data[..|data| - 1];
      CloseOnOrBeforeIsLastOfUpTo(init, cutoff);
      if Last(data).date > cutoff {
        LastOnOrBeforeInit(data, cutoff);
      }
    }
  }

  /** Past a last bar dated after the cutoff, the search goes on in the
      earlier bars. */
  lemma LastOnOrBeforeInit(data: seq<Bar>, cutoff: int)
    requires data != [] && Last(data).date > cutoff
    ensures LastOnOrBefore(data, cutoff, |data|) == LastOnOrBefore(data[..|data| - 1], cutoff, |data| - 1)
  {
    var init := data[..|data| - 1];
    LastOnOrBeforeSamePrefix(data, init, cutoff, |data| - 1);
  }

  lemma {:induction false} LastOnOrBeforeSamePrefix(a: seq<Bar>, b: seq<Bar>, cutoff: int, k: nat)
    requires k <= |a| && k <= |b| && forall j :: 0 <= j < k ==> a[j] == b[j]
    ensures LastOnOrBefore(a, cutoff, k) == LastOnOrBefore(b, cutoff, k)
  {
    if k > 0 {
      LastOnOrBeforeSamePrefix(a, b, cutoff, k - 1);
    }
  }

  /** An earlier cutoff finds a price only if the later one does. */
  lemma EarlierCutoff(data: seq<Bar>, early: int, late: int)
    requires early <= late && CloseOnOrBefore(data, early).Some?
    ensures CloseOnOrBefore(data, late).Some?
  {
    var i := LastOnOrBefore(data, early, |data|).value;
    assert data[i].date <= late;
  }

  /** `((current - past) / past * 100) if past else None`: no change for a
      missing or zero past price, so the division is always defined. */
  function Change(current: real, past: Option<real>): (r: Option<real>)
    ensures r.None? <==> past.None? || past.value == 0.0
    ensures r.Some? ==> r.value * past.value == (current - past.value) * 100.0
  {
    if past.None? || past.value == 0.0 then None
    else Some((current - past.value) / past.value * 100.0)
  }

  /** A price that has not moved has a zero change, and a positive past
      price gives a change with the sign of the move. */
  lemma ChangeSign(current: real, past: real)
    requires past > 0.0
    ensures Change(current, Some(past)).Some?
    ensures current == past ==> Change(current, Some(past)).value == 0.0
    ensures current > past ==> Change(current, Some(past)).value > 0.0
    ensures current < past ==> Change(current, Some(past)).value < 0.0
  {
    var c := Change(current, Some(past)).value;
    assert c * past == (current - past) * 100.0;
    if current > past {
      assert c * past > 0.0;
    }
    if current < past {
      assert c * past < 0.0;
    }
  }

  /** `(current_price, variation_2w, variation_6w)`. */
  datatype Variation = Variation(current: real, change2w: Option<real>, change6w: Option<real>)

  /** `calculate_price_variation`; `None` when the data is empty and
      `iloc[-1]` raises. The cutoffs are counted back from the date of the
      last row. */
  function CalculatePriceVariation(data: seq<Bar>): (r: Option<Variation>)
    ensures r.None? <==> data == []
    ensures r.Some? ==> r.value.current == Last(data).close
    ensures r.Some? ==> r.value.change2w == Change(Last(data).close, CloseOnOrBefore(data, Last(data).date - TwoWeeks))
    ensures r.Some? ==> r.value.change6w == Change(Last(data).close, CloseOnOrBefore(data, Last(data).date - SixWeeks))
  {
    if data == [] then None
    else
      var current := Last(data).close;
      var lastDate := Last(data).date;
      Some(Variation(current,
                     Change(current, CloseOnOrBefore(data, lastDate - TwoWeeks)),
                     Change(current, CloseOnOrBefore(data, lastDate - SixWeeks))))
  }

  /** Whenever there is a six-week price there is a two-week price, since
      the six-week cutoff is the earlier one. */
  lemma SixWeekPriceImpliesTwoWeekPrice(data: seq<Bar>)
    requires data != [] && CloseOnOrBefore(data, Last(data).date - SixWeeks).Some?
    ensures CloseOnOrBefore(data, Last(data).date - TwoWeeks).Some?
  {
    EarlierCutoff(data, Last(data).date - SixWeeks, Last(data).date - TwoWeeks);
  }
}
