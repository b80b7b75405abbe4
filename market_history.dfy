/** The historical series shown next to the computed results. The data provider lists
    entries newest first; the calculators keep the twelve most recent, oldest first. */
module MarketHistory {
  import opened Common

  /** How many of the most recent entries are kept (`slice(0, 12)`). */
  const WindowSize := 12

  function Reverse<T>(s: seq<T>): (r: seq<T>)
    ensures |r| == |s|
    ensures forall i :: 0 <= i < |s| ==> r[i] == s[|s| - 1 - i]
  {
    if s == [] then [] else Reverse(s[1..]) + [s[0]]
  }

  /** `slice(0, 12).reverse()`: the first twelve entries, in reverse order. */
  function Recent<T>(s: seq<T>): (r: seq<T>)
    ensures |r| == Min(WindowSize, |s|)
    ensures forall i :: 0 <= i < |r| ==> r[i] == s[|r| - 1 - i]
  {
    Reverse(s[..Min(WindowSize, |s|)])
  }

  /** One month of the monthly time series: its date key and its parsed '4. close'. */
  datatype MonthlyClose = MonthlyClose(date: string, close: real)

  /** One row of the rate-of-return table; `None` is the non-finite value that a zero
      close produces. */
  datatype ReturnPoint = ReturnPoint(date: string, ror: Option<real>)

  /** `((nextClose - currentClose) / currentClose) * 100`. */
  function RateOfReturn(currentClose: real, nextClose: real): (r: Option<real>)
    ensures r.None? <==> currentClose == 0.0
    ensures r.Some? ==> r.value * currentClose == (nextClose - currentClose) * 100.0
  {
    if currentClose == 0.0 then None else Some((nextClose - currentClose) / currentClose * 100.0)
  }

  /** The loop that pushes one rate of return per pair of consecutive months of the
      twelve most recent, oldest first; the last month has no successor and gets no row. */
  method RateOfReturnWindow(series: seq<MonthlyClose>) returns (history: seq<ReturnPoint>)
    ensures var k := Min(WindowSize, |series|);
      && |history| == (if k == 0 then 0 else k - 1)
      && forall i :: 0 <= i < |history| ==>
           history[i] == ReturnPoint(series[k - 1 - i].date,
                                     RateOfReturn(series[k - 1 - i].close, series[k - 2 - i].close))
  {
    var dates := Recent(series);
    ghost var k := Min(WindowSize, |series|);
    history := [];
    var i := 0;
    while i < |dates| - 1
      invariant 0 <= i <= if k == 0 then 0 else k - 1
      invariant |history| == i
      invariant forall j :: 0 <= j < i ==>
                  history[j] == ReturnPoint(series[k - 1 - j].date,
                                            RateOfReturn(series[k - 1 - j].close, series[k - 2 - j].close))
    {
      var currentClose := dates[i].close;
      var nextClose := dates[i + 1].close;
      history := history + [ReturnPoint(dates[i].date, RateOfReturn(currentClose, nextClose))];
      i := i + 1;
    }
  }
}
