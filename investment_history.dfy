/** What the investment history table (src/components/customer/InvestmentHistory.tsx)
    derives for each row: amounts and percentages, the product fields shown,
    the status category and whether Cancel is offered; and what a cancel
    request leads to. */
module InvestmentHistoryView {
  import opened Js
  import opened Types
  import opened Portfolio

  /** The badge variants the risk switch chooses from. */
  datatype BadgeVariant = Default | Secondary | Destructive

  /** The badge for a risk level. The same switch appears in the marketplace
      and recommendations views. */
  function RiskBadgeVariant(risk: string): (v: BadgeVariant)
    ensures v == Secondary <==> risk == "moderate"
    ensures v == Destructive <==> risk == "high"
    ensures v == Default <==> risk != "moderate" && risk != "high"
    ensures ParseRisk(risk).None? ==> v == Default
  {
    if risk == "low" then Default
    else if risk == "moderate" then Secondary
    else if risk == "high" then Destructive
    else Default
  }

  datatype ReturnColor = Positive | Negative

  /** Gains and break-even show as positive, losses as negative. */
  function GetReturnColor(current: real, invested: real): (c: ReturnColor)
    ensures c == Positive <==> invested <= current
  {
    if current - invested >= 0.0 then Positive else Negative
  }

  datatype StatusKind = ActiveStatus | CancelledStatus | OtherStatus

  /** The status category: a missing status means active; 'cancelled' and
      'canceled' in any case mean cancelled; anything else is a third kind. */
  function Classify(status: Option<string>): (k: StatusKind)
    ensures k == ActiveStatus <==> IsActive(status)
    ensures k == CancelledStatus <==> ToLower(StatusOrActive(status)) in ["cancelled", "canceled"]
    ensures !TruthyString(status) ==> k == ActiveStatus
  {
    var s := ToLower(StatusOrActive(status));
    if s == "active" then ActiveStatus
    else if s == "cancelled" || s == "canceled" then CancelledStatus
    else OtherStatus
  }

  /** The Cancel button is offered exactly for rows that are not cancelled,
      which includes every row the summary counts as active. */
  function OffersCancel(inv: UserInvestment): (b: bool)
    ensures b <==> Classify(inv.status) != CancelledStatus
    ensures IsActive(inv.status) ==> b
  {
    var s := ToLower(StatusOrActive(inv.status));
    !(s == "cancelled" || s == "canceled")
  }

  /** One table row as shown. */
  datatype Row = Row(
    amountInvested: real,
    currentValue: real,
    returnAmount: real,
    returnPercentage: real,
    expectedReturn: real,
    expectedPercentage: real,
    productName: string,
    tenureMonths: int,
    annualYield: real,
    investmentType: string,
    riskLevel: string,
    status: StatusKind,
    cancellable: bool)

  /** The row derived from a record. */
  function DeriveRow(inv: UserInvestment): (r: Row)
    ensures r.amountInvested == InvestedOf(inv)
    ensures r.currentValue == CurrentOf(inv)
    ensures r.returnAmount == r.currentValue - r.amountInvested
    ensures r.returnPercentage == Percentage(r.returnAmount, r.amountInvested)
    ensures r.expectedPercentage == Percentage(r.expectedReturn, r.amountInvested)
    ensures r.expectedReturn == ExpectedOf(inv)
    ensures inv.product.None? ==>
              r.productName == "Unknown Product" && r.tenureMonths == 0 && r.annualYield == 0.0 &&
              r.investmentType == "unknown" && r.riskLevel == "moderate"
    ensures inv.product.Some? ==>
              r.tenureMonths == inv.product.value.tenureMonths && r.annualYield == inv.product.value.annualYield &&
              r.productName == OrString(Some(inv.product.value.name), "Unknown Product") &&
              r.investmentType == OrString(Some(inv.product.value.investmentType), "unknown") &&
              r.riskLevel == OrString(Some(inv.product.value.riskLevel), "moderate")
    ensures r.status == Classify(inv.status) && r.cancellable == OffersCancel(inv)
  {
    var amount := InvestedOf(inv);
    var current := OrNumber(inv.currentValue, amount);
    var expected := OrNumber(inv.expectedReturn, 0.0);
    var name := if inv.product.Some? && inv.product.value.name != "" then inv.product.value.name else "Unknown Product";
    var tenure := if inv.product.Some? then inv.product.value.tenureMonths else 0;
    var annual := if inv.product.Some? then inv.product.value.annualYield else 0.0;
    var kind := if inv.product.Some? && inv.product.value.investmentType != "" then inv.product.value.investmentType else "unknown";
    var risk := if inv.product.Some? && inv.product.value.riskLevel != "" then inv.product.value.riskLevel else "moderate";
    Row(amount, current, current - amount, Percentage(current - amount, amount),
        expected, Percentage(expected, amount), name, tenure, annual, kind, risk,
        Classify(inv.status), OffersCancel(inv))
  }

  function Rows(s: seq<UserInvestment>): (r: seq<Row>)
    ensures |r| == |s|
    ensures forall i :: 0 <= i < |s| ==> r[i] == DeriveRow(s[i])
  {
    seq(|s|, i requires 0 <= i < |s| => DeriveRow(s[i]))
  }

  /** Deriving the rows of a prefix is taking a prefix of the rows. */
  lemma RowsOfPrefix(s: seq<UserInvestment>, k: nat)
    requires k <= |s|
    ensures Rows(s)[..k] == Rows(s[..k])
  {
    var a, b := Rows(s)[..k], Rows(s[..k]);
    forall i | 0 <= i < k
      ensures a[i] == b[i]
    {
      assert s[..k][i] == s[i];
    }
  }

  function RowTotal(rows: seq<Row>, f: Row -> real): real {
    if rows == [] then 0.0 else RowTotal(rows[..|rows| - 1], f) + f(rows[|rows| - 1])
  }

  function CountRows(rows: seq<Row>, k: StatusKind): nat {
    if rows == [] then 0 else CountRows(rows[..|rows| - 1], k) + (if rows[|rows| - 1].status == k then 1 else 0)
  }

  /** Totalling a row column is summing the record reading it shows. */
  lemma {:induction false} RowTotalIsSum(s: seq<UserInvestment>, f: Row -> real, g: UserInvestment -> real)
    requires forall x :: f(DeriveRow(x)) == g(x)
    ensures RowTotal(Rows(s), f) == Sum(s, g)
  {
    if s != [] {
      RowTotalIsSum(s[..|s| - 1], f, g);
      RowsOfPrefix(s, |s| - 1);
    }
  }

  /** Counting rows of a kind is counting records, when the rows and records
      agree position by position on which are of that kind. */
  lemma {:induction false} CountRowsPointwise(rows: seq<Row>, s: seq<UserInvestment>)
    requires |rows| == |s|
    requires forall i :: 0 <= i < |s| ==> (rows[i].status == ActiveStatus <==> IsActive(s[i].status))
    ensures CountRows(rows, ActiveStatus) == CountActive(s)
  {
    if s != [] {
      var n := |s| - 1;
      CountRowsPointwise(rows[..n], s[..n]);
      assert rows[n].status == ActiveStatus <==> IsActive(s[n].status);
    }
  }

  /** The rows marked active are the records the summary counts as active. */
  lemma ActiveRowsAreCounted(s: seq<UserInvestment>)
    ensures CountRows(Rows(s), ActiveStatus) == CountActive(s)
  {
    var rows := Rows(s);
    forall i | 0 <= i < |s|
      ensures rows[i].status == ActiveStatus <==> IsActive(s[i].status)
    {
      assert rows[i].status == Classify(s[i].status);
    }
    CountRowsPointwise(rows, s);
  }

  /** The table and the summary cards agree: the rows' invested amounts,
      current values and expected returns add up to the summary's totals, and
      the rows marked active are as many as the summary's active count. */
  lemma RowsAgreeWithSummary(s: seq<UserInvestment>)
    ensures RowTotal(Rows(s), (r: Row) => r.amountInvested) == Summarize(s).totalInvested
    ensures RowTotal(Rows(s), (r: Row) => r.currentValue) == Summarize(s).currentValue
    ensures RowTotal(Rows(s), (r: Row) => r.expectedReturn) == Summarize(s).totalReturns
    ensures CountRows(Rows(s), ActiveStatus) == Summarize(s).activeInvestments
  {
    RowTotalIsSum(s, (r: Row) => r.amountInvested, InvestedOf);
    RowTotalIsSum(s, (r: Row) => r.currentValue, CurrentOf);
    RowTotalIsSum(s, (r: Row) => r.expectedReturn, ExpectedOf);
    ActiveRowsAreCounted(s);
  }

  /** What a cancel request leads to: a toast, and the parent's refresh. */
  datatype CancelEffect = CancelEffect(succeeded: bool, refreshed: bool)

  /** The refresh runs only after a successful response, and only when the
      parent supplied one; a failed request shows the error toast only. */
  function HandleCancelInvestment(responseOk: bool, hasCallback: bool): (e: CancelEffect)
    ensures e.refreshed <==> responseOk && hasCallback
    ensures e.succeeded <==> responseOk
  {
    if responseOk then CancelEffect(true, hasCallback) else CancelEffect(false, false)
  }
}
