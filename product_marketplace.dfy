/** The purchase dialog of the product marketplace
    (src/components/customer/ProductMarketplace.tsx): which product is
    selected, the amount typed in, the expected return shown, and what
    confirming hands to the dashboard. */
module Marketplace {
  import opened Js
  import opened Types
  import opened InvestmentHistoryView

  /** The text colours the risk switch chooses from. */
  datatype RiskColor = Success | Accent | DestructiveText | Muted

  /** The colour for a risk level: the three levels have their own, any
      other string is muted. */
  function RiskColorOf(risk: string): (c: RiskColor)
    ensures c == Success <==> risk == "low"
    ensures c == Accent <==> risk == "moderate"
    ensures c == DestructiveText <==> risk == "high"
    ensures c == Muted <==> ParseRisk(risk).None?
  {
    if risk == "low" then Success
    else if risk == "moderate" then Accent
    else if risk == "high" then DestructiveText
    else Muted
  }

  /** The colour and the badge agree: red text goes with the destructive
      badge and the accent with the secondary one, and a muted colour (an
      unknown level) gets the default badge. */
  lemma RiskColorMatchesBadge(risk: string)
    ensures RiskColorOf(risk) == DestructiveText <==> RiskBadgeVariant(risk) == Destructive
    ensures RiskColorOf(risk) == Accent <==> RiskBadgeVariant(risk) == Secondary
    ensures RiskColorOf(risk) == Muted ==> RiskBadgeVariant(risk) == Default
    ensures RiskColorOf(risk) == Success ==> RiskBadgeVariant(risk) == Default
  {
  }

  /** What confirming the dialog asks the dashboard to buy. */
  datatype Purchase = Purchase(productId: string, amount: real)

  /** The only guard on confirming: a product is selected and the amount is
      not zero. Neither the minimum nor the maximum is consulted. */
  function MayInvest(selected: Option<InvestmentProduct>, amount: real): (b: bool)
    ensures selected.Some? ==> (b <==> TruthyNumber(Some(amount)))
    ensures b ==> selected.Some?
  {
    selected.Some? && amount != 0.0
  }

  /** The expected return shown in the dialog: 0 without a selection or with a
      zero amount, otherwise the maturity return of the amount in the product. */
  function CalculateExpectedReturn(selected: Option<InvestmentProduct>, amount: real): (r: real)
    ensures !MayInvest(selected, amount) ==> r == 0.0
    ensures MayInvest(selected, amount) ==> r == ExpectedReturn(amount, selected.value)
    ensures selected.Some? ==> r == ExpectedReturn(amount, selected.value)
  {
    if selected.None? || amount == 0.0 then 0.0 else ExpectedReturn(amount, selected.value)
  }

  /** The total shown after the tenure: the amount plus its expected return. */
  function MaturityTotal(selected: Option<InvestmentProduct>, amount: real): (t: real)
    ensures t - amount == CalculateExpectedReturn(selected, amount)
  {
    amount + CalculateExpectedReturn(selected, amount)
  }

  /** For a product with non-negative yield and tenure, a non-negative amount
      never shows a maturity total below itself. */
  lemma MaturityNotBelowAmount(product: InvestmentProduct, amount: real)
    requires product.annualYield >= 0.0 && product.tenureMonths >= 0 && amount >= 0.0
    ensures MaturityTotal(Some(product), amount) >= amount
  {
    ExpectedReturnMonotone(0.0, amount, product);
  }

  /** The dialog forwards amounts below the product minimum, above its
      maximum, and below zero alike. */
  lemma InvestIgnoresLimits(p: InvestmentProduct, amount: real)
    requires amount != 0.0
    ensures MayInvest(Some(p), amount)
    ensures MayInvest(Some(p), -1.0)
    ensures amount < p.minInvestment ==> MayInvest(Some(p), amount)
  {
  }

  class ProductMarketplace {
    var selected: Option<InvestmentProduct>
    var investmentAmount: real
    var isDialogOpen: bool

    constructor ()
      ensures selected.None? && investmentAmount == 0.0 && !isDialogOpen
    {
      selected := None;
      investmentAmount := 0.0;
      isDialogOpen := false;
    }

    /** Open the dialog on a product, with its minimum as the amount. */
    method OpenInvestDialog(product: InvestmentProduct)
      modifies this
      ensures selected == Some(product) && investmentAmount == product.minInvestment && isDialogOpen
    {
      selected := Some(product);
      investmentAmount := product.minInvestment;
      isDialogOpen := true;
    }

    /** The amount field: text that is not a number, or is zero, reads as 0. */
    method SetAmountInput(parsed: Option<real>)
      modifies this`investmentAmount
      ensures investmentAmount == NumberInput(parsed)
      ensures investmentAmount != 0.0 ==> parsed == Some(investmentAmount)
    {
      investmentAmount := NumberInput(parsed);
    }

    /** The Cancel button closes the dialog and keeps the selection. */
    method CloseDialog()
      modifies this`isDialogOpen
      ensures !isDialogOpen
    {
      isDialogOpen := false;
    }

    /** Confirm: when the guard passes, hand (selected id, amount) to the
        dashboard once and reset the dialog; otherwise do nothing. */
    method HandleInvest() returns (purchase: Option<Purchase>)
      modifies this
      ensures !MayInvest(old(selected), old(investmentAmount)) ==>
                purchase.None? && selected == old(selected) &&
                investmentAmount == old(investmentAmount) && isDialogOpen == old(isDialogOpen)
      ensures MayInvest(old(selected), old(investmentAmount)) ==>
                purchase == Some(Purchase(old(selected).value.id, old(investmentAmount))) &&
                selected.None? && investmentAmount == 0.0 && !isDialogOpen
    {
      if !MayInvest(selected, investmentAmount) {
        return None;
      }
      purchase := Some(Purchase(selected.value.id, investmentAmount));
      isDialogOpen := false;
      investmentAmount := 0.0;
      selected := None;
    }
  }

  /** Opening the dialog on a product and confirming at once buys its minimum,
      provided that minimum is not zero. */
  method OpenThenInvest(m: ProductMarketplace, product: InvestmentProduct) returns (purchase: Option<Purchase>)
    modifies m
    ensures product.minInvestment != 0.0 ==> purchase == Some(Purchase(product.id, product.minInvestment))
    ensures product.minInvestment == 0.0 ==> purchase.None? && m.isDialogOpen
  {
    m.OpenInvestDialog(product);
    purchase := m.HandleInvest();
  }
}
