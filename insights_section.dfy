/** The portfolio insights panel (src/components/customer/InsightsSection.tsx):
    the risk profile named from the risk distribution, and the request that
    loads the insights with its built-in fallback. */
module Insights {
  import opened Js

  /** The share of the portfolio at each risk level, in percent. */
  datatype RiskDistribution = RiskDistribution(low: real, moderate: real, high: real)

  datatype InsightsData = InsightsData(
    totalInvested: real,
    riskDistribution: RiskDistribution,
    expectedReturns: real,
    insights: seq<string>)

  datatype RiskProfile = Conservative | Balanced | Aggressive

  /** The largest of the three shares. */
  function MaxShare(d: RiskDistribution): (m: real)
    ensures m >= d.low && m >= d.moderate && m >= d.high
    ensures m == d.low || m == d.moderate || m == d.high
  {
    if d.low >= d.moderate && d.low >= d.high then d.low
    else if d.moderate >= d.high then d.moderate
    else d.high
  }

  /** The profile: the level holding the largest share, ties going to the
      lower risk. */
  function RiskLevelOf(d: RiskDistribution): (p: RiskProfile)
    ensures p == Conservative <==> d.low >= d.moderate && d.low >= d.high
    ensures p == Balanced <==> d.moderate > d.low && d.moderate >= d.high
    ensures p == Aggressive <==> d.high > d.low && d.high > d.moderate
  {
    var m := MaxShare(d);
    if m == d.low then Conservative
    else if m == d.moderate then Balanced
    else Aggressive
  }

  /** Raising the high share while the others stay never moves the profile
      towards less risk. */
  lemma MoreHighRiskNeverSafer(d: RiskDistribution, extra: real)
    requires extra >= 0.0
    ensures RiskLevelOf(d) == Aggressive ==> RiskLevelOf(d.(high := d.high + extra)) == Aggressive
    ensures RiskLevelOf(d.(high := d.high + extra)) == Conservative ==> RiskLevelOf(d) == Conservative
  {
  }

  /** The advice lines of the built-in insights, by position. */
  function MockInsightText(k: nat): string
    requires k < 5
  {
    match k
    case 0 => "Your portfolio has a high-risk allocation of 59.46%, which may lead to higher volatility but potentially greater returns."
    case 1 => "Consider diversifying into more low-risk investments to balance your portfolio and reduce overall risk."
    case 2 => "Your expected returns of \U{20B9}12,500 represent a 16.67% return on your total investment."
    case 3 => "Market conditions favor technology and healthcare sectors, which align well with your current investments."
    case _ => "Consider reviewing your portfolio quarterly to maintain optimal risk balance."
  }

  function MockInsightTexts(): (t: seq<string>)
    ensures |t| == 5
  {
    seq(5, k requires 0 <= k < 5 => MockInsightText(k))
  }

  /** The insights shown when the request fails. */
  function MockInsights(): (m: InsightsData)
    ensures |m.insights| == 5 && m.totalInvested == 75000.0 && m.expectedReturns == 12500.0
  {
    InsightsData(75000.0, RiskDistribution(27.03, 13.51, 59.46), 12500.0, MockInsightTexts())
  }

  /** The built-in portfolio reads as aggressive: its high share is the
      largest. */
  lemma MockIsAggressive()
    ensures RiskLevelOf(MockInsights().riskDistribution) == Aggressive
  {
  }

  /** The insights a finished request leaves: `data.data || data` on
      success, the built-in insights on any failure. */
  function LoadedInsights(response: Option<Envelope<InsightsData>>): (r: InsightsData)
    ensures response.None? ==> r == MockInsights()
    ensures response.Some? ==> r == response.value.data.GetOr(response.value.body)
  {
    if response.Some? then Unwrap(response.value.(alt := None)) else MockInsights()
  }

  class InsightsSection {
    var insights: Option<InsightsData>
    var loading: bool
    var error: Option<string>

    constructor ()
      ensures insights.None? && loading && error.None?
    {
      insights := None;
      loading := true;
      error := None;
    }

    /** A request starts: loading, error cleared. */
    method BeginFetch()
      modifies this
      ensures loading && error.None? && insights == old(insights)
    {
      loading := true;
      error := None;
    }

    /** A request ends: insights are installed either way, the error is
        cleared on failure, and loading is over. */
    method FinishFetch(response: Option<Envelope<InsightsData>>)
      modifies this
      ensures insights == Some(LoadedInsights(response)) && !loading
      ensures response.None? ==> error.None?
      ensures response.Some? ==> error == old(error)
    {
      if response.Some? {
        insights := Some(Unwrap(response.value.(alt := None)));
      } else {
        insights := Some(MockInsights());
        error := None;
      }
      loading := false;
    }

    /** The whole request: it always ends with insights, no error, and not
        loading. */
    method FetchInsights(response: Option<Envelope<InsightsData>>)
      modifies this
      ensures insights == Some(LoadedInsights(response)) && !loading && error.None?
    {
      BeginFetch();
      FinishFetch(response);
    }
  }
}
