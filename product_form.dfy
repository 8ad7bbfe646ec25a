/** The admin product form (src/components/admin/ProductForm.tsx): the record
    it edits, its starting values, the one-field changes the inputs make, and
    what it submits. */
module ProductEditor {
  import opened Js
  import opened Types

  /** The eight fields the form edits; everything else about a product (id,
      creator, timestamps) is the dashboard's business. */
  datatype FormData = FormData(
    name: string,
    investmentType: string,
    tenureMonths: int,
    annualYield: real,
    riskLevel: string,
    minInvestment: real,
    maxInvestment: Option<real>,
    description: string)

  /** The form for a new product. */
  const NewForm := FormData("", "stocks", 12, 0.0, "moderate", 1000.0, None, "")

  /** The starting values: each field of the product being edited when it is
      truthy, otherwise that field's default. A tenure or minimum of 0 and an
      empty type or risk are therefore replaced, not kept. */
  function InitialForm(product: Option<InvestmentProduct>): (f: FormData)
    ensures product.None? ==> f == NewForm
    ensures product.Some? ==> f.name == product.value.name && f.annualYield == product.value.annualYield
    ensures product.Some? ==> (f.tenureMonths == product.value.tenureMonths || (product.value.tenureMonths == 0 && f.tenureMonths == 12))
    ensures product.Some? ==> (f.minInvestment == product.value.minInvestment || (product.value.minInvestment == 0.0 && f.minInvestment == 1000.0))
    ensures product.Some? ==> (f.investmentType == product.value.investmentType || (product.value.investmentType == "" && f.investmentType == "stocks"))
    ensures product.Some? ==> (f.riskLevel == product.value.riskLevel || (product.value.riskLevel == "" && f.riskLevel == "moderate"))
    ensures product.Some? ==> f.description == OrString(product.value.description, "")
    ensures f.maxInvestment.Some? ==> product.Some? && f.maxInvestment == product.value.maxInvestment && f.maxInvestment.value != 0.0
    ensures product.Some? && TruthyNumber(product.value.maxInvestment) ==> f.maxInvestment == product.value.maxInvestment
    ensures f.tenureMonths != 0 && f.minInvestment != 0.0 && f.investmentType != "" && f.riskLevel != ""
  {
    match product
    case None => NewForm
    case Some(p) =>
      FormData(p.name,
               if p.investmentType != "" then p.investmentType else "stocks",
               if p.tenureMonths != 0 then p.tenureMonths else 12,
               p.annualYield,
               if p.riskLevel != "" then p.riskLevel else "moderate",
               OrNumber(Some(p.minInvestment), 1000.0),
               if TruthyNumber(p.maxInvestment) then p.maxInvestment else None,
               OrString(p.description, ""))
  }

  /** Editing a product with tenure 0 starts the form at 12 months. */
  lemma ZeroTenureBecomesDefault(p: InvestmentProduct)
    requires p.tenureMonths == 0
    ensures InitialForm(Some(p)).tenureMonths == 12
  {
  }

  /** The names of the form's fields. */
  datatype Field = Name | Type | Tenure | Yield | Risk | Min | Max | Description

  /** One input event: the field it names and the value it carries. */
  datatype Change =
    | SetName(name: string)
    | SetType(kind: string)
    | SetTenure(tenure: int)
    | SetYield(annual: real)
    | SetRisk(risk: string)
    | SetMin(min: real)
    | SetMax(max: Option<real>)
    | SetDescription(text: string)
  {
    function FieldOf(): Field {
      match this
      case SetName(_) => Name
      case SetType(_) => Type
      case SetTenure(_) => Tenure
      case SetYield(_) => Yield
      case SetRisk(_) => Risk
      case SetMin(_) => Min
      case SetMax(_) => Max
      case SetDescription(_) => Description
    }
  }

  /** `{ ...prev, [field]: value }`. */
  function ApplyChange(f: FormData, c: Change): (r: FormData)
    ensures Get(r, c.FieldOf()) == c
    ensures forall field :: field != c.FieldOf() ==> Get(r, field) == Get(f, field)
  {
    match c
    case SetName(v) => f.(name := v)
    case SetType(v) => f.(investmentType := v)
    case SetTenure(v) => f.(tenureMonths := v)
    case SetYield(v) => f.(annualYield := v)
    case SetRisk(v) => f.(riskLevel := v)
    case SetMin(v) => f.(minInvestment := v)
    case SetMax(v) => f.(maxInvestment := v)
    case SetDescription(v) => f.(description := v)
  }

  /** The value of one field. */
  function Get(f: FormData, field: Field): Change {
    match field
    case Name => SetName(f.name)
    case Type => SetType(f.investmentType)
    case Tenure => SetTenure(f.tenureMonths)
    case Yield => SetYield(f.annualYield)
    case Risk => SetRisk(f.riskLevel)
    case Min => SetMin(f.minInvestment)
    case Max => SetMax(f.maxInvestment)
    case Description => SetDescription(f.description)
  }

  /** Changes to different fields commute; of two changes to the same field
      the later wins. */
  lemma ChangesCompose(f: FormData, c: Change, d: Change)
    ensures c.FieldOf() != d.FieldOf() ==> ApplyChange(ApplyChange(f, c), d) == ApplyChange(ApplyChange(f, d), c)
    ensures c.FieldOf() == d.FieldOf() ==> ApplyChange(ApplyChange(f, c), d) == ApplyChange(f, d)
  {
  }

  /** What submitting hands over: the form with a falsy maximum made absent. */
  function Submitted(f: FormData): (s: FormData)
    ensures s.(maxInvestment := f.maxInvestment) == f
    ensures s.maxInvestment.Some? ==> s.maxInvestment.value != 0.0
    ensures TruthyNumber(f.maxInvestment) ==> s == f
  {
    f.(maxInvestment := if TruthyNumber(f.maxInvestment) then f.maxInvestment else None)
  }

  /** The starting form of an existing product already has a normalised
      maximum, so submitting it untouched hands over the starting values. */
  lemma SubmitInitialUnchanged(product: Option<InvestmentProduct>)
    ensures Submitted(InitialForm(product)) == InitialForm(product)
  {
  }

  class ProductForm {
    var formData: FormData

    constructor (product: Option<InvestmentProduct>)
      ensures formData == InitialForm(product)
    {
      formData := InitialForm(product);
    }

    /** An input event updates its one field. */
    method HandleChange(c: Change)
      modifies this
      ensures formData == ApplyChange(old(formData), c)
      ensures Get(formData, c.FieldOf()) == c
    {
      formData := ApplyChange(formData, c);
    }

    /** Submit: hand the form over with its maximum normalised; the form
        itself is not changed. */
    method HandleSubmit() returns (submitted: FormData)
      ensures submitted == Submitted(formData)
    {
      submitted := Submitted(formData);
    }
  }
}
