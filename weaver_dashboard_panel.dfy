/** The budget planner of the weaver dashboard panel
    (components/pages/weaver-dashboard.tsx): the same estimator with three
    fields and no overhead term. */
module WeaverDashboardPanel {
  import opened JsNumber
  import Page = WeaverDashboardPage

  datatype Field = Machines | Materials | Labor

  datatype BudgetInputs = BudgetInputs(machines: string, materials: string, labor: string)
  {
    function Get(f: Field): string {
      match f
      case Machines => machines
      case Materials => materials
      case Labor => labor
    }

    function With(f: Field, v: string): (r: BudgetInputs)
      ensures r.Get(f) == v
      ensures forall g :: g != f ==> r.Get(g) == Get(g)
    {
      match f
      case Machines => this.(machines := v)
      case Materials => this.(materials := v)
      case Labor => this.(labor := v)
    }

    /** The same text in the page's four-field form, overhead left empty. */
    function WithEmptyOverhead(): Page.BudgetInputs {
      Page.BudgetInputs(machines, materials, labor, "")
    }
  }

  const EmptyInputs: BudgetInputs := BudgetInputs("", "", "")

  predicate Readable(b: BudgetInputs) {
    Page.Count(b.machines).Int? && Page.Count(b.materials).Int? && Page.Count(b.labor).Int?
  }

  /** 5000 per loom, 200 per kilogram of yarn and 300 per labour day; NaN
      as soon as one field has no leading integer. */
  function BudgetTotal(b: BudgetInputs): (r: Num)
    ensures r.Int? <==> Readable(b)
    ensures Readable(b) ==> r.value == 5000 * Page.Count(b.machines).value
                                     + 200 * Page.Count(b.materials).value
                                     + 300 * Page.Count(b.labor).value
  {
    Plus(Plus(Times(Page.Count(b.machines), 5000), Times(Page.Count(b.materials), 200)),
         Times(Page.Count(b.labor), 300))
  }

  /** The three-field estimate is the four-field one with no overhead. */
  lemma SameAsPageWithoutOverhead(b: BudgetInputs)
    ensures BudgetTotal(b) == Page.BudgetTotal(b.WithEmptyOverhead())
  {
    Page.EmptyCountsZero();
  }

  /** Fields holding integer numerals give exactly the weighted sum, and a
      form left entirely empty estimates 0. */
  lemma TotalOfNumerals(machines: int, materials: int, labor: int)
    ensures BudgetTotal(BudgetInputs(IntString(machines), IntString(materials), IntString(labor)))
         == Int(5000 * machines + 200 * materials + 300 * labor)
    ensures BudgetTotal(EmptyInputs) == Int(0)
  {
    ParseIntRoundTrip(machines);
    ParseIntRoundTrip(materials);
    ParseIntRoundTrip(labor);
    Page.EmptyCountsZero();
  }

  /** Leaving a field empty is the same as typing "0" into it. */
  lemma EmptyFieldIsZero(b: BudgetInputs, f: Field)
    ensures BudgetTotal(b.With(f, "")) == BudgetTotal(b.With(f, "0"))
  {
    Page.EmptyCountsZero();
    var e, z := b.With(f, ""), b.With(f, "0");
    assert forall g :: Page.Count(e.Get(g)) == Page.Count(z.Get(g));
  }

  /** Raising any one count never lowers the estimate. */
  lemma TotalMonotone(b: BudgetInputs, f: Field, v: string)
    requires BudgetTotal(b).Int? && BudgetTotal(b.With(f, v)).Int?
    requires Page.Count(b.Get(f)).value <= Page.Count(v).value
    ensures BudgetTotal(b).value <= BudgetTotal(b.With(f, v)).value
  {
    var c := b.With(f, v);
    assert Page.Count(c.Get(f)) == Page.Count(v);
    match f {
      case Machines =>
      case Materials =>
      case Labor =>
    }
  }

  class BudgetPlanner {
    var inputs: BudgetInputs
    var estimate: string

    constructor ()
      ensures inputs == EmptyInputs && estimate == ""
    {
      inputs := EmptyInputs;
      estimate := "";
    }

    /** An `onChange` handler: only the edited field changes, and the
        estimate already shown stays as it was. */
    method Edit(f: Field, v: string)
      modifies this
      ensures inputs == old(inputs).With(f, v)
      ensures inputs.Get(f) == v
      ensures forall g :: g != f ==> inputs.Get(g) == old(inputs).Get(g)
      ensures estimate == old(estimate)
    {
      inputs := inputs.With(f, v);
    }

    /** `handleBudgetCalculation`: "₹" and the formatted total. */
    method Calculate(format: int -> string)
      modifies this
      ensures inputs == old(inputs)
      ensures estimate == EstimateText(BudgetTotal(inputs), format)
      ensures |estimate| > 0 && estimate[0] == '₹'
    {
      estimate := EstimateText(BudgetTotal(inputs), format);
    }
  }
}
