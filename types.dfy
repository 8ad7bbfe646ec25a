/** The shared vocabulary of the marketplace (src/types/index.ts): the three
    enumerations with their wire values, and the User, InvestmentProduct,
    UserInvestment and PortfolioSummary records. */
module Types {
  import opened Js

  datatype UserRole = ADMIN | USER

  datatype RiskLevel = LOW | MODERATE | HIGH

  datatype InvestmentType = STOCKS | BONDS | MUTUAL_FUNDS | FIXED_DEPOSITS | REAL_ESTATE

  function RoleValue(r: UserRole): string {
    match r
    case ADMIN => "admin"
    case USER => "user"
  }

  function RiskValue(r: RiskLevel): string {
    match r
    case LOW => "low"
    case MODERATE => "moderate"
    case HIGH => "high"
  }

  function TypeValue(t: InvestmentType): string {
    match t
    case STOCKS => "stocks"
    case BONDS => "bonds"
    case MUTUAL_FUNDS => "mutual_funds"
    case FIXED_DEPOSITS => "fixed_deposits"
    case REAL_ESTATE => "real_estate"
  }

  /** The role a wire string denotes: exactly 'admin' and 'user' are roles. */
  function ParseRole(s: string): (r: Option<UserRole>)
    ensures r.Some? <==> s == "admin" || s == "user"
    ensures r.Some? ==> RoleValue(r.value) == s
  {
    if s == "admin" then Some(ADMIN) else if s == "user" then Some(USER) else None
  }

  /** The risk level a wire string denotes: exactly 'low', 'moderate', 'high'. */
  function ParseRisk(s: string): (r: Option<RiskLevel>)
    ensures r.Some? <==> s == "low" || s == "moderate" || s == "high"
    ensures r.Some? ==> RiskValue(r.value) == s
  {
    if s == "low" then Some(LOW)
    else if s == "moderate" then Some(MODERATE)
    else if s == "high" then Some(HIGH)
    else None
  }

  /** The investment type a wire string denotes: exactly the five enum values. */
  function ParseType(s: string): (r: Option<InvestmentType>)
    ensures r.Some? <==> s in ["stocks", "bonds", "mutual_funds", "fixed_deposits", "real_estate"]
    ensures r.Some? ==> TypeValue(r.value) == s
  {
    if s == "stocks" then Some(STOCKS)
    else if s == "bonds" then Some(BONDS)
    else if s == "mutual_funds" then Some(MUTUAL_FUNDS)
    else if s == "fixed_deposits" then Some(FIXED_DEPOSITS)
    else if s == "real_estate" then Some(REAL_ESTATE)
    else None
  }

  /** Every enum value survives a trip through its wire string, so the wire
      strings of distinct values are distinct. */
  lemma EnumRoundTrips(role: UserRole, risk: RiskLevel, t: InvestmentType)
    ensures ParseRole(RoleValue(role)) == Some(role)
    ensures ParseRisk(RiskValue(risk)) == Some(risk)
    ensures ParseType(TypeValue(t)) == Some(t)
  {
  }

  datatype User = User(
    id: string,
    firstName: string,
    lastName: Option<string>,
    email: string,
    role: UserRole,
    riskAppetite: RiskLevel,
    balance: real,
    createdAt: Option<string>,
    updatedAt: Option<string>)

  /** A product. Its type and risk level are kept as the strings the code
      stores there, since placeholders and mock data use values outside the
      enumerations ('unknown', 'bond', 'mf'). */
  datatype InvestmentProduct = InvestmentProduct(
    id: string,
    name: string,
    investmentType: string,
    tenureMonths: int,
    annualYield: real,
    riskLevel: string,
    minInvestment: real,
    maxInvestment: Option<real>,
    description: Option<string>,
    createdBy: Option<string>,
    createdAt: Option<string>,
    updatedAt: Option<string>)

  /** An investment record as the components read it. The declared numeric
      fields are read through falsy fallbacks, so they are optional here;
      `amount` and `status` are not declared by the interface but are read
      ad hoc. `product` is absent until enrichment supplies it. */
  datatype UserInvestment = UserInvestment(
    id: string,
    userId: string,
    productId: string,
    amountInvested: Option<real>,
    amount: Option<real>,
    purchaseDate: string,
    expectedReturn: Option<real>,
    currentValue: Option<real>,
    status: Option<string>,
    product: Option<InvestmentProduct>)

  datatype PortfolioSummary = PortfolioSummary(
    totalInvested: real,
    currentValue: real,
    totalReturns: real,
    returnsPercentage: real,
    activeInvestments: nat)

  const EmptySummary := PortfolioSummary(0.0, 0.0, 0.0, 0.0, 0)

  /** The maturity return of `amount` placed in `product`:
      amount · annual yield (in percent) · tenure (in months) / (12 · 100). */
  function ExpectedReturn(amount: real, product: InvestmentProduct): (r: real)
    ensures amount == 0.0 || product.annualYield == 0.0 || product.tenureMonths == 0 ==> r == 0.0
    ensures amount >= 0.0 && product.annualYield >= 0.0 && product.tenureMonths >= 0 ==> r >= 0.0
  {
    amount * product.annualYield * (product.tenureMonths as real) / 1200.0
  }

  /** The expected return grows with the amount for a product with
      non-negative yield and tenure, and is 0 for a zero amount. */
  lemma ExpectedReturnMonotone(a: real, b: real, product: InvestmentProduct)
    requires product.annualYield >= 0.0 && product.tenureMonths >= 0
    requires a <= b
    ensures ExpectedReturn(a, product) <= ExpectedReturn(b, product)
    ensures ExpectedReturn(0.0, product) == 0.0
  {
    var k := product.annualYield * (product.tenureMonths as real);
    assert k >= 0.0;
    assert ExpectedReturn(a, product) == a * k / 1200.0;
    assert ExpectedReturn(b, product) == b * k / 1200.0;
    assert (b - a) * k >= 0.0;
  }

  /** 15000 at 7.8% for 12 months returns 1170. */
  lemma ExpectedReturnExample(product: InvestmentProduct)
    requires product.annualYield == 7.8 && product.tenureMonths == 12
    ensures ExpectedReturn(15000.0, product) == 1170.0
  {
  }
}
