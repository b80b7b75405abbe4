/** The Inflation Calculator: the rule of 72 at a fixed inflation rate, the halved value of
    a contribution, and the twelve most recent inflation figures, oldest first. */
module Inflation {
  import opened Common
  import opened MarketHistory

  /** The guard of `calculateInflationHalving`: a non-empty field that parses to a positive
      number. */
  function ValidateContribution(contributionText: string, parseFloat: string -> Option<real>): (r: Result<real>)
    ensures contributionText == [] ==> r == Err(MissingInput)
    ensures r.Ok? <==> contributionText != [] && parseFloat(contributionText).Some? && parseFloat(contributionText).value > 0.0
    ensures r.Ok? ==> r.value == parseFloat(contributionText).value
    ensures r.Err? && contributionText != [] ==> r == Err(InvalidNumber)
  {
    if contributionText == [] then Err(MissingInput)
    else match parseFloat(contributionText)
      case None => Err(InvalidNumber)
      case Some(contribution) => if contribution <= 0.0 then Err(InvalidNumber) else Ok(contribution)
  }

  const RuleOf72: real := 72.0
  /** The fixed inflation rate, in percent. */
  const CurrentInflationRate: real := 9.1

  /** `ruleOf72 / currentInflationRate`: the same for every input, a little under 8 years. */
  function YearsUntilHalved(): (r: real)
    ensures r * CurrentInflationRate == RuleOf72
    ensures 7.91 < r < 7.92
  {
    RuleOf72 / CurrentInflationRate
  }

  /** `contribution / 2`: doubling it gives the contribution back. */
  function HalvedValue(contribution: real): (r: real)
    ensures r * 2.0 == contribution
    ensures contribution > 0.0 ==> 0.0 < r < contribution
  {
    contribution / 2.0
  }

  /** The two figures handed to `setResults`, before they are formatted. */
  datatype HalvingResult = HalvingResult(yearsUntilHalved: real, halvedValue: real)

  /** `calculateInflationHalving`: validate, compute both figures and, after every valid
      submission, request the inflation series. */
  function CalculateInflationHalving(contributionText: string, parseFloat: string -> Option<real>)
    : (s: Submission<HalvingResult>)
    ensures var v := ValidateContribution(contributionText, parseFloat);
      && (v.Err? ==> s == Submission(Err(v.error), false))
      && (v.Ok? ==>
            && s.fetchHistory
            && s.outcome.Ok?
            && s.outcome.value.yearsUntilHalved * CurrentInflationRate == RuleOf72
            && s.outcome.value.halvedValue * 2.0 == v.value
            && 0.0 < s.outcome.value.halvedValue < v.value)
  {
    match ValidateContribution(contributionText, parseFloat)
    case Err(e) => Submission(Err(e), false)
    case Ok(contribution) => Submission(Ok(HalvingResult(YearsUntilHalved(), HalvedValue(contribution))), true)
  }

  /** One entry of the provider's inflation series, as text. */
  datatype InflationRecord = InflationRecord(date: string, value: string)

  /** One entry of the history table: the date and `parseFloat(item.value)`. */
  datatype InflationPoint = InflationPoint(date: string, value: Option<real>)

  /** `map((item) => ({ date: item.date, value: parseFloat(item.value) }))`. */
  function ToPoints(records: seq<InflationRecord>, parseFloat: string -> Option<real>): (r: seq<InflationPoint>)
    ensures |r| == |records|
    ensures forall i :: 0 <= i < |r| ==> r[i] == InflationPoint(records[i].date, parseFloat(records[i].value))
  {
    if records == [] then [] else [InflationPoint(records[0].date, parseFloat(records[0].value))] + ToPoints(records[1..], parseFloat)
  }

  /** `data.slice(0, 12).reverse().map(...)`: the twelve most recent records, oldest first,
      each with its date kept and its value parsed. */
  function InflationHistory(data: seq<InflationRecord>, parseFloat: string -> Option<real>): (h: seq<InflationPoint>)
    ensures |h| == Min(WindowSize, |data|)
    ensures forall i :: 0 <= i < |h| ==>
              h[i] == InflationPoint(data[|h| - 1 - i].date, parseFloat(data[|h| - 1 - i].value))
  {
    ToPoints(Recent(data), parseFloat)
  }

  /** Mapping commutes with taking a prefix and reversing it: the history could as well be
      built by parsing everything first. */
  lemma HistoryFromParsedSeries(data: seq<InflationRecord>, parseFloat: string -> Option<real>)
    ensures InflationHistory(data, parseFloat) == Recent(ToPoints(data, parseFloat))
  {
    var h := InflationHistory(data, parseFloat);
    var points := ToPoints(data, parseFloat);
    var g := Recent(points);
    assert |h| == |g|;
    forall i | 0 <= i < |h|
      ensures h[i] == g[i]
    {
      var k := |h| - 1 - i;
      assert g[i] == points[k];
      assert points[k] == InflationPoint(data[k].date, parseFloat(data[k].value));
    }
  }
}
