/** The pure half of the customer dashboard (src/pages/CustomerDashboard.tsx):
    decoding the product list, resolving each investment's product, the
    portfolio summary folded over the raw records, and the summary update the
    offline purchase fallback makes instead of a fold. */
module Portfolio {
  import opened Js
  import opened Types

  // ---------------------------------------------------------------------------
  // Product list decoding

  /** A property of the product-list body, as `Array.isArray` sees it. */
  datatype ListField = Absent | NotAList | List(items: seq<InvestmentProduct>)

  /** The product-list response body: an array, or an object whose `data` or
      `products` property may hold the array. */
  datatype ListBody = ArrayBody(items: seq<InvestmentProduct>) | ObjectBody(data: ListField, products: ListField)

  /** The catalog a product-list response yields: the body when it is an array,
      else its `data` array, else its `products` array, else nothing; a failed
      request (None) also yields the empty catalog. */
  function DecodeProducts(response: Option<ListBody>): (r: seq<InvestmentProduct>)
    ensures response.None? ==> r == []
    ensures response.Some? && response.value.ArrayBody? ==> r == response.value.items
    ensures response.Some? && response.value.ObjectBody? ==>
      r == (if response.value.data.List? then response.value.data.items
            else if response.value.products.List? then response.value.products.items
            else [])
    ensures r != [] ==> response.Some?
  {
    match response
    case None => []
    case Some(ArrayBody(items)) => items
    case Some(ObjectBody(data, products)) =>
      if data.List? then data.items else if products.List? then products.items else []
  }

  // ---------------------------------------------------------------------------
  // Per-record readings shared by the summary and the history table

  /** `amount_invested || amount || 0`. */
  function InvestedOf(inv: UserInvestment): real {
    OrNumber(inv.amountInvested, OrNumber(inv.amount, 0.0))
  }

  /** `current_value || amount_invested || amount || 0`. */
  function CurrentOf(inv: UserInvestment): real {
    OrNumber(inv.currentValue, InvestedOf(inv))
  }

  /** `expected_return || 0`. */
  function ExpectedOf(inv: UserInvestment): real {
    OrNumber(inv.expectedReturn, 0.0)
  }

  /** `status || 'active'`. */
  function StatusOrActive(status: Option<string>): string {
    OrString(status, "active")
  }

  /** A record counts as active when its status, defaulting to 'active',
      lower-cases to 'active'. */
  function IsActive(status: Option<string>): (b: bool)
    ensures !TruthyString(status) ==> b
    ensures b && TruthyString(status) ==> |status.value| == 6
  {
    ToLower(StatusOrActive(status)) == "active"
  }

  /** The test ignores case and treats a missing or empty status as active;
      every other spelling is not active. */
  lemma ActiveSpellings(t: string)
    ensures IsActive(None) && IsActive(Some("")) && IsActive(Some("ACTIVE")) && IsActive(Some("Active"))
    ensures !IsActive(Some("cancelled")) && !IsActive(Some("completed"))
    ensures |t| != 6 && t != "" ==> !IsActive(Some(t))
  {
    assert ToLower("ACTIVE") == "active";
    assert ToLower("Active") == "active";
    assert ToLower("cancelled")[0] == 'c';
    assert ToLower("completed")[1] == 'o';
  }

  // ---------------------------------------------------------------------------
  // The fold

  /** `records.reduce((sum, inv) => sum + f(inv), 0)`. */
  function Sum(s: seq<UserInvestment>, f: UserInvestment -> real): (r: real)
    ensures s == [] ==> r == 0.0
    ensures |s| == 1 ==> r == f(s[0])
    ensures (forall i :: 0 <= i < |s| ==> f(s[i]) >= 0.0) ==> r >= 0.0
  {
    if s == [] then 0.0 else Sum(s[..|s| - 1], f) + f(s[|s| - 1])
  }

  /** `records.filter(inv => IsActive(inv.status)).length`. */
  function CountActive(s: seq<UserInvestment>): (n: nat)
    ensures n <= |s|
  {
    if s == [] then 0
    else CountActive(s[..|s| - 1]) + (if IsActive(s[|s| - 1].status) then 1 else 0)
  }

  /** `totalInvested > 0 ? gain / totalInvested * 100 : 0`. */
  function Percentage(gain: real, invested: real): (r: real)
    ensures invested <= 0.0 ==> r == 0.0
    ensures invested > 0.0 ==> r * invested == gain * 100.0
  {
    if invested > 0.0 then gain / invested * 100.0 else 0.0
  }

  /** The summary the fetch path computes from the raw records. */
  function Summarize(s: seq<UserInvestment>): (r: PortfolioSummary)
    ensures s == [] ==> r == EmptySummary
    ensures r.totalInvested == Sum(s, InvestedOf)
    ensures r.currentValue == Sum(s, CurrentOf)
    ensures r.totalReturns == Sum(s, ExpectedOf)
    ensures r.returnsPercentage == Percentage(r.totalReturns, r.totalInvested)
    ensures r.activeInvestments == CountActive(s) && r.activeInvestments <= |s|
  {
    var invested := Sum(s, InvestedOf);
    var expected := Sum(s, ExpectedOf);
    PortfolioSummary(invested, Sum(s, CurrentOf), expected, Percentage(expected, invested), CountActive(s))
  }

  /** Summing over a longer list adds the last record's term. */
  lemma {:induction false} SumAppend(s: seq<UserInvestment>, x: UserInvestment, f: UserInvestment -> real)
    ensures Sum(s + [x], f) == Sum(s, f) + f(x)
  {
    assert (s + [x])[..|s + [x]| - 1] == s;
  }

  /** The active count grows by one exactly for an active appended record. */
  lemma {:induction false} CountActiveAppend(s: seq<UserInvestment>, x: UserInvestment)
    ensures CountActive(s + [x]) == CountActive(s) + (if IsActive(x.status) then 1 else 0)
  {
    assert (s + [x])[..|s + [x]| - 1] == s;
  }

  /** The count is the length exactly when every record is active, and 0
      exactly when none is. */
  lemma {:induction false} CountActiveExtremes(s: seq<UserInvestment>)
    ensures CountActive(s) == |s| <==> (forall i :: 0 <= i < |s| ==> IsActive(s[i].status))
    ensures CountActive(s) == 0 <==> (forall i :: 0 <= i < |s| ==> !IsActive(s[i].status))
  {
    if s != [] {
      var n := |s| - 1;
      CountActiveExtremes(s[..n]);
      assert forall i :: 0 <= i < n ==> s[..n][i] == s[i];
    }
  }

  /** Two record lists that agree pointwise on `f` have the same sum. */
  lemma {:induction false} SumPointwise(a: seq<UserInvestment>, b: seq<UserInvestment>, f: UserInvestment -> real)
    requires |a| == |b|
    requires forall i :: 0 <= i < |a| ==> f(a[i]) == f(b[i])
    ensures Sum(a, f) == Sum(b, f)
  {
    if a != [] {
      SumPointwise(a[..|a| - 1], b[..|b| - 1], f);
    }
  }

  /** Two record lists that agree pointwise on status have the same active count. */
  lemma {:induction false} CountActivePointwise(a: seq<UserInvestment>, b: seq<UserInvestment>)
    requires |a| == |b|
    requires forall i :: 0 <= i < |a| ==> a[i].status == b[i].status
    ensures CountActive(a) == CountActive(b)
  {
    if a != [] {
      CountActivePointwise(a[..|a| - 1], b[..|b| - 1]);
    }
  }

  // ---------------------------------------------------------------------------
  // Enrichment

  /** `catalog.find(p => p.id === id)`: the first product with that id. */
  function FindById(catalog: seq<InvestmentProduct>, id: string): (r: Option<InvestmentProduct>)
    ensures r.None? <==> forall i :: 0 <= i < |catalog| ==> catalog[i].id != id
    ensures r.Some? ==> exists i :: 0 <= i < |catalog| && catalog[i] == r.value && r.value.id == id &&
                                    forall j :: 0 <= j < i ==> catalog[j].id != id
  {
    if catalog == [] then None
    else if catalog[0].id == id then Some(catalog[0])
    else
      var r := FindById(catalog[1..], id);
      assert forall j :: 1 <= j < |catalog| ==> catalog[j] == catalog[1..][j - 1];
      r
  }

  /** What the per-record product request produced: a response body read as
      `data.data || data.product || data`, a failed or refused request (which
      the inner handler absorbs), or an error raised outside that handler. */
  datatype Lookup = Fetched(body: Envelope<InvestmentProduct>) | Unavailable | Crashed

  /** The lookup for record i; records past the end of the list get none. */
  function LookupAt(lookups: seq<Lookup>, i: nat): Lookup {
    if i < |lookups| then lookups[i] else Unavailable
  }

  /** The product an unresolved record is shown with. Its `min_investment` is
      undefined in the source; nothing reads it, and 0 stands in here. */
  function Placeholder(productId: string): InvestmentProduct {
    InvestmentProduct(productId, "Product Not Found", "unknown", 0, 0.0, "moderate",
                      0.0, None, None, None, None, None)
  }

  /** The product the record ends up with when enrichment does not crash: the
      catalog's, else the fetched one; whichever it is must have a name, or the
      placeholder is used. The request is only made when the catalog misses. */
  function ResolvedProduct(catalog: seq<InvestmentProduct>, productId: string, lookup: Lookup): (r: InvestmentProduct)
    ensures r.name != ""
    ensures r == Placeholder(productId) || r in catalog || (lookup.Fetched? && r == Unwrap(lookup.body))
  {
    var found := match FindById(catalog, productId)
                 case Some(p) => Some(p)
                 case None => if lookup.Fetched? then Some(Unwrap(lookup.body)) else None;
    if found.Some? && found.value.name != "" then found.value else Placeholder(productId)
  }

  /** One record enriched: a crash returns it as it was, otherwise it gets
      the resolved product and keeps every other field. */
  function EnrichOne(catalog: seq<InvestmentProduct>, inv: UserInvestment, lookup: Lookup): (r: UserInvestment)
    ensures r.(product := inv.product) == inv
    ensures lookup.Crashed? ==> r == inv
    ensures !lookup.Crashed? ==> r.product == Some(ResolvedProduct(catalog, inv.productId, lookup))
  {
    if lookup.Crashed? then inv else inv.(product := Some(ResolvedProduct(catalog, inv.productId, lookup)))
  }

  /** Enrichment maps every record to itself with its product resolved; it
      keeps the length and order, and touches no field but `product`. */
  function Enrich(catalog: seq<InvestmentProduct>, records: seq<UserInvestment>, lookups: seq<Lookup>): (r: seq<UserInvestment>)
    ensures |r| == |records|
    ensures forall i :: 0 <= i < |r| ==> r[i].(product := records[i].product) == records[i]
    ensures forall i :: 0 <= i < |r| && LookupAt(lookups, i).Crashed? ==> r[i] == records[i]
    ensures forall i :: 0 <= i < |r| && !LookupAt(lookups, i).Crashed? ==>
              r[i].product == Some(ResolvedProduct(catalog, records[i].productId, LookupAt(lookups, i)))
  {
    seq(|records|, i requires 0 <= i < |records| => EnrichOne(catalog, records[i], LookupAt(lookups, i)))
  }

  /** The resolved product is the catalog's first product with the record's
      id when that one is named, the fetched product when the catalog misses
      and the fetched one is named, and otherwise the placeholder carrying the
      record's product id. */
  lemma ResolvedProductCases(catalog: seq<InvestmentProduct>, productId: string, lookup: Lookup)
    ensures FindById(catalog, productId).Some? && FindById(catalog, productId).value.name != "" ==>
              ResolvedProduct(catalog, productId, lookup) == FindById(catalog, productId).value
    ensures FindById(catalog, productId).Some? && FindById(catalog, productId).value.name == "" ==>
              ResolvedProduct(catalog, productId, lookup) == Placeholder(productId)
    ensures FindById(catalog, productId).None? && lookup.Fetched? && Unwrap(lookup.body).name != "" ==>
              ResolvedProduct(catalog, productId, lookup) == Unwrap(lookup.body)
    ensures FindById(catalog, productId).None? && !lookup.Fetched? ==>
              ResolvedProduct(catalog, productId, lookup) == Placeholder(productId)
    ensures FindById(catalog, productId).None? && lookup.Fetched? && Unwrap(lookup.body).name == "" ==>
              ResolvedProduct(catalog, productId, lookup) == Placeholder(productId)
  {
  }

  /** The summary is computed from the raw records, and enrichment changes
      nothing it reads: summarising the enriched records gives the same. */
  lemma SummaryIgnoresEnrichment(catalog: seq<InvestmentProduct>, records: seq<UserInvestment>, lookups: seq<Lookup>)
    ensures Summarize(Enrich(catalog, records, lookups)) == Summarize(records)
  {
    var e := Enrich(catalog, records, lookups);
    forall i | 0 <= i < |e|
      ensures InvestedOf(e[i]) == InvestedOf(records[i]) && CurrentOf(e[i]) == CurrentOf(records[i])
      ensures ExpectedOf(e[i]) == ExpectedOf(records[i]) && e[i].status == records[i].status
    {
      assert e[i].(product := records[i].product) == records[i];
    }
    SumPointwise(e, records, InvestedOf);
    SumPointwise(e, records, CurrentOf);
    SumPointwise(e, records, ExpectedOf);
    CountActivePointwise(e, records);
  }

  // ---------------------------------------------------------------------------
  // The offline purchase fallback

  /** The record the offline fallback appends: the full amount is invested, the
      expected return is computed from the product, and the current value is
      the amount plus a tenth of the expected return. */
  function OfflineInvestment(id: string, userId: string, product: InvestmentProduct, amount: real, now: string): (r: UserInvestment)
    ensures InvestedOf(r) == amount
    ensures ExpectedOf(r) == ExpectedReturn(amount, product)
    ensures r.currentValue == Some(amount + ExpectedReturn(amount, product) / 10.0)
    ensures IsActive(r.status)
    ensures r.productId == product.id && r.product == Some(product)
  {
    var expected := ExpectedReturn(amount, product);
    UserInvestment(id, userId, product.id, Some(amount), None, now, Some(expected),
                   Some(amount + expected * 0.1), None, Some(product))
  }

  /** The summary the fallback writes: the previous totals plus the new amount
      and value, the records' active count plus one, and returns taken as
      current value minus invested (unlike the fetch path's expected returns). */
  function IncrementalSummary(prev: PortfolioSummary, records: seq<UserInvestment>, amount: real, value: real): (r: PortfolioSummary)
    ensures r.totalInvested == prev.totalInvested + amount
    ensures r.currentValue == prev.currentValue + value
    ensures r.totalReturns == r.currentValue - r.totalInvested
    ensures r.activeInvestments == CountActive(records) + 1
    ensures r.returnsPercentage == Percentage(r.totalReturns, r.totalInvested)
  {
    var invested := prev.totalInvested + amount;
    var current := prev.currentValue + value;
    PortfolioSummary(invested, current, current - invested, Percentage(current - invested, invested), CountActive(records) + 1)
  }

  /** For a product with non-negative yield and tenure, the fallback's new
      value (amount plus a tenth of the expected return) is 0 only when the
      amount is, so the fold reads that value back as the record's current value. */
  lemma OfflineValueReadBack(id: string, userId: string, product: InvestmentProduct, amount: real, now: string)
    requires product.annualYield >= 0.0 && product.tenureMonths >= 0
    ensures CurrentOf(OfflineInvestment(id, userId, product, amount, now)) ==
            OfflineInvestment(id, userId, product, amount, now).currentValue.value
  {
    var inv := OfflineInvestment(id, userId, product, amount, now);
    var k := product.annualYield * (product.tenureMonths as real);
    assert k >= 0.0;
    var v := amount + ExpectedReturn(amount, product) / 10.0;
    assert ExpectedReturn(amount, product) == amount * k / 1200.0;
    assert v == amount * (1.0 + k / 12000.0);
    if amount != 0.0 {
      assert 1.0 + k / 12000.0 > 0.0;
      assert v != 0.0;
    } else {
      assert v == 0.0;
      assert InvestedOf(inv) == 0.0;
    }
  }

  /** Folding a list extended by one record adds that record's readings to
      the totals and counts it if it is active. */
  lemma FoldExtend(records: seq<UserInvestment>, inv: UserInvestment)
    ensures Summarize(records + [inv]).totalInvested == Summarize(records).totalInvested + InvestedOf(inv)
    ensures Summarize(records + [inv]).currentValue == Summarize(records).currentValue + CurrentOf(inv)
    ensures Summarize(records + [inv]).totalReturns == Summarize(records).totalReturns + ExpectedOf(inv)
    ensures Summarize(records + [inv]).activeInvestments ==
            Summarize(records).activeInvestments + (if IsActive(inv.status) then 1 else 0)
  {
    SumAppend(records, inv, InvestedOf);
    SumAppend(records, inv, CurrentOf);
    SumAppend(records, inv, ExpectedOf);
    CountActiveAppend(records, inv);
  }

  /** When the previous summary agrees with the fold of the records on
      invested, current value and active count (as it still does after an
      earlier offline purchase) and the product has non-negative yield and
      tenure, the incremental update agrees with re-folding the extended list
      on those three; it differs in what it calls returns. */
  lemma IncrementalAgreesWithFold(prev: PortfolioSummary, records: seq<UserInvestment>, id: string, userId: string,
                                  product: InvestmentProduct, amount: real, now: string)
    requires prev.totalInvested == Summarize(records).totalInvested
    requires prev.currentValue == Summarize(records).currentValue
    requires prev.activeInvestments == Summarize(records).activeInvestments
    requires product.annualYield >= 0.0 && product.tenureMonths >= 0
    ensures var inv := OfflineInvestment(id, userId, product, amount, now);
            var incr := IncrementalSummary(prev, records, amount, inv.currentValue.value);
            var fold := Summarize(records + [inv]);
            incr.totalInvested == fold.totalInvested &&
            incr.currentValue == fold.currentValue &&
            incr.activeInvestments == fold.activeInvestments &&
            fold.totalReturns == Summarize(records).totalReturns + ExpectedReturn(amount, product) &&
            incr.totalReturns == incr.currentValue - incr.totalInvested
  {
    var inv := OfflineInvestment(id, userId, product, amount, now);
    FoldExtend(records, inv);
    OfflineValueReadBack(id, userId, product, amount, now);
  }

  /** The two definitions of total returns really differ: one purchase of
      1000 at 12% for 12 months on an empty portfolio shows returns of 12
      through the fallback and 120 through a re-fetch. */
  lemma ReturnsDefinitionsDiverge(id: string, userId: string, product: InvestmentProduct, now: string)
    requires product.annualYield == 12.0 && product.tenureMonths == 12
    ensures var inv := OfflineInvestment(id, userId, product, 1000.0, now);
            IncrementalSummary(EmptySummary, [], 1000.0, inv.currentValue.value).totalReturns == 12.0 &&
            Summarize([inv]).totalReturns == 120.0
  {
    var inv := OfflineInvestment(id, userId, product, 1000.0, now);
    assert ExpectedReturn(1000.0, product) == 120.0;
    SumAppend([], inv, ExpectedOf);
    assert [] + [inv] == [inv];
  }
}
