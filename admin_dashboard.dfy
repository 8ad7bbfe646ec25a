/** The admin dashboard (src/pages/AdminDashboard.tsx): the product catalog it
    keeps, creating, editing and deleting products through the form, and the
    statistics cards computed from the catalog. */
module AdminDashboardPage {
  import opened Js
  import opened Types
  import opened ProductEditor

  /** `prev.map(p => p.id === id ? q : p)`. */
  function ReplaceById(s: seq<InvestmentProduct>, id: string, q: InvestmentProduct): (r: seq<InvestmentProduct>)
    ensures |r| == |s|
    ensures forall i :: 0 <= i < |s| && s[i].id != id ==> r[i] == s[i]
    ensures forall i :: 0 <= i < |s| && s[i].id == id ==> r[i] == q
  {
    seq(|s|, i requires 0 <= i < |s| => if s[i].id == id then q else s[i])
  }

  /** `prev.filter(p => p.id !== id)`. */
  function RemoveById(s: seq<InvestmentProduct>, id: string): (r: seq<InvestmentProduct>)
    ensures |r| <= |s|
    ensures forall i :: 0 <= i < |r| ==> r[i].id != id
    ensures forall i :: 0 <= i < |s| && s[i].id != id ==> s[i] in r
    ensures forall x :: x in r ==> x in s
  {
    if s == [] then []
    else RemoveById(s[..|s| - 1], id) + (if s[|s| - 1].id == id then [] else [s[|s| - 1]])
  }

  /** Filtering distributes over concatenation, so the products kept stay in
      their relative order. */
  lemma {:induction false} RemoveByIdAppend(a: seq<InvestmentProduct>, b: seq<InvestmentProduct>, id: string)
    ensures RemoveById(a + b, id) == RemoveById(a, id) + RemoveById(b, id)
    decreases |b|
  {
    if b == [] {
      assert a + b == a;
    } else {
      var b', x := b[..|b| - 1], b[|b| - 1];
      assert (a + b)[..|a + b| - 1] == a + b';
      RemoveByIdAppend(a, b', id);
    }
  }

  /** Deleting an id no product has changes nothing. */
  lemma {:induction false} RemoveAbsentId(s: seq<InvestmentProduct>, id: string)
    requires forall i :: 0 <= i < |s| ==> s[i].id != id
    ensures RemoveById(s, id) == s
  {
    if s != [] {
      var s' := s[..|s| - 1];
      RemoveAbsentId(s', id);
      assert s == s' + [s[|s| - 1]];
    }
  }

  /** Deleting after editing the same id is deleting: the edited product goes
      too, and nothing else is touched. */
  lemma {:induction false} RemoveAfterReplace(s: seq<InvestmentProduct>, id: string, q: InvestmentProduct)
    requires q.id == id
    ensures RemoveById(ReplaceById(s, id, q), id) == RemoveById(s, id)
  {
    if s != [] {
      var s' := s[..|s| - 1];
      RemoveAfterReplace(s', id, q);
      assert ReplaceById(s, id, q)[..|s| - 1] == ReplaceById(s', id, q);
    }
  }

  /** The product an edit produces: id, creator and creation time from the
      product being edited, the eight form fields from the form, and a new
      update time. */
  function EditedProduct(editing: InvestmentProduct, data: FormData, now: string): (p: InvestmentProduct)
    ensures p.id == editing.id && p.createdAt == editing.createdAt && p.createdBy == editing.createdBy
    ensures p.updatedAt == Some(now)
    ensures p.name == data.name && p.investmentType == data.investmentType && p.tenureMonths == data.tenureMonths
    ensures p.annualYield == data.annualYield && p.riskLevel == data.riskLevel
    ensures p.minInvestment == data.minInvestment && p.maxInvestment == data.maxInvestment
    ensures p.description == Some(data.description)
  {
    editing.(name := data.name, investmentType := data.investmentType, tenureMonths := data.tenureMonths,
             annualYield := data.annualYield, riskLevel := data.riskLevel, minInvestment := data.minInvestment,
             maxInvestment := data.maxInvestment, description := Some(data.description), updatedAt := Some(now))
  }

  /** The product a create produces: the form fields, a fresh id, the
      signed-in user as creator, and both times set to now. */
  function NewProduct(data: FormData, id: string, userId: Option<string>, now: string): (p: InvestmentProduct)
    ensures p.id == id && p.createdBy == userId && p.createdAt == Some(now) && p.updatedAt == Some(now)
    ensures EditedProduct(p, data, now) == p
  {
    InvestmentProduct(id, data.name, data.investmentType, data.tenureMonths, data.annualYield, data.riskLevel,
                      data.minInvestment, data.maxInvestment, Some(data.description), userId, Some(now), Some(now))
  }

  /** Opening a product in the form and submitting it untouched gives back the
      same product with a new update time, provided its fields are all truthy
      (otherwise the form's defaults replace them). */
  lemma EditRoundTrip(p: InvestmentProduct, now: string)
    requires p.investmentType != "" && p.tenureMonths != 0 && p.riskLevel != "" && p.minInvestment != 0.0
    requires p.description.Some? && p.description.value != ""
    requires p.maxInvestment.None? || p.maxInvestment.value != 0.0
    ensures EditedProduct(p, Submitted(InitialForm(Some(p))), now) == p.(updatedAt := Some(now))
  {
  }

  /** The sum of the annual yields. */
  function SumYield(s: seq<InvestmentProduct>): (r: real)
    ensures s == [] ==> r == 0.0
    ensures |s| == 1 ==> r == s[0].annualYield
  {
    if s == [] then 0.0 else SumYield(s[..|s| - 1]) + s[|s| - 1].annualYield
  }

  /** Sum over length, or 0 for an empty catalog (`NaN || 0`). */
  function AverageYield(s: seq<InvestmentProduct>): (avg: real)
    ensures s == [] ==> avg == 0.0
    ensures s != [] ==> avg * (|s| as real) == SumYield(s)
  {
    if s == [] then 0.0 else SumYield(s) / (|s| as real)
  }

  lemma {:induction false} SumYieldBounds(s: seq<InvestmentProduct>, lo: real, hi: real)
    requires forall i :: 0 <= i < |s| ==> lo <= s[i].annualYield <= hi
    ensures (|s| as real) * lo <= SumYield(s) <= (|s| as real) * hi
  {
    if s != [] {
      var n := |s| as real;
      SumYieldBounds(s[..|s| - 1], lo, hi);
      assert (n - 1.0) * lo + lo == n * lo;
      assert (n - 1.0) * hi + hi == n * hi;
    }
  }

  /** The average lies between any lower and upper bound of the yields. */
  lemma AverageWithinBounds(s: seq<InvestmentProduct>, lo: real, hi: real)
    requires s != []
    requires forall i :: 0 <= i < |s| ==> lo <= s[i].annualYield <= hi
    ensures lo <= AverageYield(s) <= hi
  {
    SumYieldBounds(s, lo, hi);
    var n := |s| as real;
    var avg := AverageYield(s);
    assert n * avg == SumYield(s);
    ScaleCancel(lo, avg, n);
    ScaleCancel(avg, hi, n);
  }

  /** Multiplying by a positive count preserves order both ways. */
  lemma ScaleCancel(x: real, y: real, n: real)
    requires n > 0.0 && n * x <= n * y
    ensures x <= y
  {
    assert n * (y - x) >= 0.0;
  }

  /** The number of products whose risk is 'high'. */
  function HighRiskCount(s: seq<InvestmentProduct>): (n: nat)
    ensures n <= |s|
    ensures n == 0 <==> forall i :: 0 <= i < |s| ==> s[i].riskLevel != "high"
  {
    if s == [] then 0
    else HighRiskCount(s[..|s| - 1]) + (if s[|s| - 1].riskLevel == "high" then 1 else 0)
  }

  /** Deleting a product never raises the high-risk count. */
  lemma {:induction false} RemoveLowersHighRisk(s: seq<InvestmentProduct>, id: string)
    ensures HighRiskCount(RemoveById(s, id)) <= HighRiskCount(s)
  {
    if s != [] {
      var s', x := s[..|s| - 1], s[|s| - 1];
      RemoveLowersHighRisk(s', id);
      HighRiskAppend(RemoveById(s', id), if x.id == id then [] else [x]);
    }
  }

  lemma {:induction false} HighRiskAppend(a: seq<InvestmentProduct>, b: seq<InvestmentProduct>)
    ensures HighRiskCount(a + b) == HighRiskCount(a) + HighRiskCount(b)
    decreases |b|
  {
    if b == [] {
      assert a + b == a;
    } else {
      assert (a + b)[..|a + b| - 1] == a + b[..|b| - 1];
      HighRiskAppend(a, b[..|b| - 1]);
    }
  }

  /** The four statistics cards. The active-user count is a fixed figure. */
  datatype Stats = Stats(totalProducts: nat, averageYield: real, highRiskProducts: nat, activeUsers: string)

  function ComputeStats(s: seq<InvestmentProduct>): (st: Stats)
    ensures st.totalProducts == |s| && st.highRiskProducts <= st.totalProducts
    ensures st.averageYield == AverageYield(s) && st.highRiskProducts == HighRiskCount(s)
    ensures st.activeUsers == "24"
  {
    Stats(|s|, AverageYield(s), HighRiskCount(s), "24")
  }

  /** The two products the dashboard starts with. */
  function InitialProducts(userId: Option<string>, now: string): (s: seq<InvestmentProduct>)
    ensures |s| == 2 && s[0].id != s[1].id
    ensures HighRiskCount(s) == 1
  {
    [InvestmentProduct("1", "Growth Equity Fund", "stocks", 24, 12.5, "high", 10000.0, Some(500000.0),
                       Some("High-growth equity fund focusing on emerging markets"), userId, Some(now), None),
     InvestmentProduct("2", "Stable Bond Portfolio", "bonds", 12, 7.8, "low", 5000.0, Some(200000.0),
                       Some("Conservative bond portfolio with steady returns"), userId, Some(now), None)]
  }

  class AdminDashboard {
    var products: seq<InvestmentProduct>
    var editing: Option<InvestmentProduct>
    var showForm: bool

    constructor (userId: Option<string>, now: string)
      ensures products == InitialProducts(userId, now) && editing.None? && !showForm
    {
      products := InitialProducts(userId, now);
      editing := None;
      showForm := false;
    }

    /** "Add Product" shows the form. */
    method OpenCreateForm()
      modifies this`showForm
      ensures showForm
    {
      showForm := true;
    }

    /** "Edit" shows the form on a product. */
    method HandleEdit(product: InvestmentProduct)
      modifies this`editing, this`showForm
      ensures editing == Some(product) && showForm
    {
      editing := Some(product);
      showForm := true;
    }

    /** The form's Cancel hides it and forgets the product being edited. */
    method CancelForm()
      modifies this`editing, this`showForm
      ensures editing.None? && !showForm
    {
      showForm := false;
      editing := None;
    }

    /** Submit the form: an edit replaces every product with the edited id
        and leaves the others; a create appends one product. Either way the
        form closes. */
    method HandleProductSubmit(data: FormData, newId: string, userId: Option<string>, now: string)
      modifies this
      ensures old(editing).Some? ==>
                products == ReplaceById(old(products), old(editing).value.id, EditedProduct(old(editing).value, data, now))
      ensures old(editing).None? ==> products == old(products) + [NewProduct(data, newId, userId, now)]
      ensures |products| == |old(products)| + (if old(editing).None? then 1 else 0)
      ensures editing.None? && !showForm
    {
      if editing.Some? {
        products := ReplaceById(products, editing.value.id, EditedProduct(editing.value, data, now));
      } else {
        products := products + [NewProduct(data, newId, userId, now)];
      }
      showForm := false;
      editing := None;
    }

    /** Delete every product with the id. */
    method HandleDelete(id: string)
      modifies this`products
      ensures products == RemoveById(old(products), id)
      ensures HighRiskCount(products) <= HighRiskCount(old(products))
    {
      RemoveLowersHighRisk(products, id);
      products := RemoveById(products, id);
    }
  }
}
