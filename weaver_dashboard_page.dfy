/** The budget planner of the weaver dashboard page
    (app/weaver-dashboard/page.tsx): four number fields typed as text, and
    an estimate of 5000 per loom, 200 per kilogram of yarn, 300 per labour
    day and 100 per unit of overhead, shown as "₹" and the formatted total. */
module WeaverDashboardPage {
  import opened JsNumber

  datatype Field = Machines | Materials | Labor | Overhead

  /** `budgetInputs`: the text of each field, "" until typed into. */
  datatype BudgetInputs = BudgetInputs(machines: string, materials: string, labor: string, overhead: string)
  {
    function Get(f: Field): string {
      match f
      case Machines => machines
      case Materials => materials
      case Labor => labor
      case Overhead => overhead
    }

    /** `{ ...budgetInputs, [f]: v }`. */
    function With(f: Field, v: string): (r: BudgetInputs)
      ensures r.Get(f) == v
      ensures forall g :: g != f ==> r.Get(g) == Get(g)
    {
      match f
      case Machines => this.(machines := v)
      case Materials => this.(materials := v)
      case Labor => this.(labor := v)
      case Overhead => this.(overhead := v)
    }
  }

  const EmptyInputs: BudgetInputs := BudgetInputs("", "", "", "")

  /** The cost of one unit of each field. */
  function Rate(f: Field): int {
    match f
    case Machines => 5000
    case Materials => 200
    case Labor => 300
    case Overhead => 100
  }

  /** `Number.parseInt(field || "0")`: an empty field counts as 0 and any
      other text is read by `parseInt`. */
  function Count(text: string): (r: Num)
    ensures text == "" ==> r == Int(0)
    ensures text != "" ==> r == ParseInt(text)
  {
    ParseIntRoundTrip(0);
    assert IntString(0) == "0";
    ParseInt(OrDefault(text, "0"))
  }

  /** Every field has a leading integer (or is empty). */
  predicate Readable(b: BudgetInputs) {
    Count(b.machines).Int? && Count(b.materials).Int? && Count(b.labor).Int? && Count(b.overhead).Int?
  }

  /** The weighted sum of the four counts; NaN as soon as one field has no
      leading integer. */
  function BudgetTotal(b: BudgetInputs): (r: Num)
    ensures r.Int? <==> Readable(b)
    ensures Readable(b) ==> r.value == Rate(Machines) * Count(b.machines).value
                                     + Rate(Materials) * Count(b.materials).value
                                     + Rate(Labor) * Count(b.labor).value
                                     + Rate(Overhead) * Count(b.overhead).value
  {
    Plus(Plus(Plus(Times(Count(b.machines), 5000), Times(Count(b.materials), 200)),
              Times(Count(b.labor), 300)),
         Times(Count(b.overhead), 100))
  }

  /** An empty field counts as zero. */
  lemma EmptyCountsZero()
    ensures Count("") == Int(0)
    ensures Count("0") == Int(0)
  {
    ParseIntRoundTrip(0);
    assert IntString(0) == "0";
  }

  /** Leaving a field empty is the same as typing "0" into it, and a form
      left entirely empty estimates 0. */
  lemma EmptyFieldIsZero(b: BudgetInputs, f: Field)
    ensures BudgetTotal(b.With(f, "")) == BudgetTotal(b.With(f, "0"))
    ensures BudgetTotal(EmptyInputs) == Int(0)
  {
    EmptyCountsZero();
    var e, z := b.With(f, ""), b.With(f, "0");
    assert forall g :: Count(e.Get(g)) == Count(z.Get(g));
  }

  /** Fields holding integer numerals give exactly the weighted sum. */
  lemma TotalOfNumerals(machines: int, materials: int, labor: int, overhead: int)
    ensures BudgetTotal(BudgetInputs(IntString(machines), IntString(materials), IntString(labor), IntString(overhead)))
         == Int(5000 * machines + 200 * materials + 300 * labor + 100 * overhead)
  {
    ParseIntRoundTrip(machines);
    ParseIntRoundTrip(materials);
    ParseIntRoundTrip(labor);
    ParseIntRoundTrip(overhead);
  }

  /** Text with no leading integer in any one field makes the estimate NaN. */
  lemma UnreadableFieldGivesNaN(b: BudgetInputs, f: Field, v: string)
    requires v != "" && ParseInt(v) == NaN
    ensures BudgetTotal(b.With(f, v)) == NaN
  {
    assert Count(b.With(f, v).Get(f)).NaN?;
    match f {
      case Machines =>
      case Materials =>
      case Labor =>
      case Overhead =>
    }
  }

  /** Raising any one count never lowers the estimate. */
  lemma TotalMonotone(b: BudgetInputs, f: Field, v: string)
    requires BudgetTotal(b).Int? && BudgetTotal(b.With(f, v)).Int?
    requires Count(b.Get(f)).value <= Count(v).value
    ensures BudgetTotal(b).value <= BudgetTotal(b.With(f, v)).value
  {
    var c := b.With(f, v);
    assert Count(c.Get(f)) == Count(v);
    match f {
      case Machines =>
      case Materials =>
      case Labor =>
      case Overhead =>
    }
  }

  /** The form's state: the typed fields and the last estimate shown. */
  class BudgetPlanner {
    var inputs: BudgetInputs
    var estimate: string

    constructor ()
      ensures inputs == EmptyInputs && estimate == ""
    {
      inputs := EmptyInputs;
      estimate := "";
    }

    /** An `onChange` handler: only the edited field changes, and the
        estimate already shown stays as it was. */
    method Edit(f: Field, v: string)
      modifies this
      ensures inputs == old(inputs).With(f, v)
      ensures inputs.Get(f) == v
      ensures forall g :: g != f ==> inputs.Get(g) == old(inputs).Get(g)
      ensures estimate == old(estimate)
    {
      inputs := inputs.With(f, v);
    }

    /** `handleBudgetCalculation`: "₹" and the formatted total. */
    method Calculate(format: int -> string)
      modifies this
      ensures inputs == old(inputs)
      ensures estimate == EstimateText(BudgetTotal(inputs), format)
      ensures |estimate| > 0 && estimate[0] == '₹'
    {
      estimate := EstimateText(BudgetTotal(inputs), format);
    }
  }
}
