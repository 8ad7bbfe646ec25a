/** The recommendations panel (src/components/customer/ProductRecommendations.tsx):
    the list it loads, its fallback to three built-in products, and the
    "Invest Now" button that buys a product at its minimum. */
module Recommendations {
  import opened Js
  import opened Types
  import opened Marketplace

  /** A recommended product as the built-in list writes it: no creator and
      no timestamps. */
  function MockProduct(id: string, name: string, kind: string, tenure: int, annual: real,
                       min: real, max: real, description: string): InvestmentProduct {
    InvestmentProduct(id, name, kind, tenure, annual, "moderate", min, Some(max), Some(description), None, None, None)
  }

  /** The three products shown when the request fails. */
  function MockRecommendations(): (r: seq<InvestmentProduct>)
    ensures |r| == 3
    ensures forall i :: 0 <= i < |r| ==> r[i].maxInvestment.Some? && 0.0 < r[i].minInvestment <= r[i].maxInvestment.value
    ensures forall i :: 0 <= i < |r| ==> r[i].riskLevel == "moderate" && r[i].annualYield > 0.0 && r[i].tenureMonths > 0
    ensures forall i, j :: 0 <= i < j < |r| ==> r[i].id != r[j].id
  {
    [MockProduct("rec-1", "Business Bonds", "bond", 12, 11.0, 1000.0, 100000.0, "12-month bond with moderate risk"),
     MockProduct("rec-2", "Grip High Yield Bond Special 2", "bond", 12, 10.0, 1000.0, 100000.0, "12-month bond with moderate risk"),
     MockProduct("rec-3", "Mutual Growth Plus Fund", "mf", 18, 9.0, 1500.0, 75000.0, "18-month mutual fund with moderate risk")]
  }

  /** Two of the built-in products carry investment types outside the
      enumeration ('bond' and 'mf'). */
  lemma MockTypesOutsideEnum()
    ensures ParseType(MockRecommendations()[0].investmentType).None?
    ensures ParseType(MockRecommendations()[2].investmentType).None?
    ensures ParseRisk(MockRecommendations()[1].riskLevel) == Some(MODERATE)
  {
  }

  /** The list a finished request leaves: the body read as
      `data.data || data.recommendations || data` when the request succeeded,
      otherwise the built-in list. */
  function LoadedRecommendations(response: Option<Envelope<seq<InvestmentProduct>>>): (r: seq<InvestmentProduct>)
    ensures response.None? ==> r == MockRecommendations()
    ensures response.Some? && response.value.data.Some? ==> r == response.value.data.value
    ensures response.Some? && response.value.data.None? && response.value.alt.Some? ==> r == response.value.alt.value
    ensures response.Some? && response.value.data.None? && response.value.alt.None? ==> r == response.value.body
  {
    match response
    case None => MockRecommendations()
    case Some(e) => Unwrap(e)
  }

  /** "Invest Now": the amount handed over is the product's minimum, and the
      click does nothing when the panel was given no handler. */
  function InvestNow(product: InvestmentProduct, hasHandler: bool): (p: Option<Purchase>)
    ensures p.Some? <==> hasHandler
    ensures p.Some? ==> p.value.productId == product.id && p.value.amount == product.minInvestment
    ensures p.Some? && product.maxInvestment.Some? && product.minInvestment <= product.maxInvestment.value ==>
              product.minInvestment <= p.value.amount <= product.maxInvestment.value
  {
    if hasHandler then Some(Purchase(product.id, product.minInvestment)) else None
  }

  /** Every built-in recommendation bought through "Invest Now" buys an
      amount within that product's limits, and the marketplace guard lets it
      through. */
  lemma MockInvestWithinLimits(i: int)
    requires 0 <= i < |MockRecommendations()|
    ensures var p := MockRecommendations()[i];
            var purchase := InvestNow(p, true).value;
            p.minInvestment <= purchase.amount <= p.maxInvestment.value &&
            MayInvest(Some(p), purchase.amount)
  {
  }

  class ProductRecommendations {
    var recommendations: seq<InvestmentProduct>
    var loading: bool
    var error: Option<string>

    /** The panel before its first request: empty, loading, no error. */
    constructor ()
      ensures recommendations == [] && loading && error.None?
    {
      recommendations := [];
      loading := true;
      error := None;
    }

    /** A request starts: loading, error cleared, list kept. */
    method BeginFetch()
      modifies this
      ensures loading && error.None? && recommendations == old(recommendations)
    {
      loading := true;
      error := None;
    }

    /** A request ends: the list is the decoded body or, on any failure, the
        built-in one; a failure clears the error again, and loading is over. */
    method FinishFetch(response: Option<Envelope<seq<InvestmentProduct>>>)
      modifies this
      ensures recommendations == LoadedRecommendations(response)
      ensures !loading
      ensures response.None? ==> error.None?
      ensures response.Some? ==> error == old(error)
    {
      if response.Some? {
        recommendations := Unwrap(response.value);
      } else {
        recommendations := MockRecommendations();
        error := None;
      }
      loading := false;
    }

    /** The whole request, from the panel's point of view. */
    method FetchRecommendations(response: Option<Envelope<seq<InvestmentProduct>>>)
      modifies this
      ensures recommendations == LoadedRecommendations(response)
      ensures !loading && error.None?
      ensures response.None? ==> |recommendations| == 3
    {
      BeginFetch();
      FinishFetch(response);
    }
  }
}
