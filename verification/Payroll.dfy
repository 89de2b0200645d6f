/** The payroll rules, modules/labor/payroll_rules.py: federal withholding by the worksheet of IRS
    Publication 15-T, California withholding by the EDD's Method B, and the shift accrual. */
module Payroll {
  import opened Common
  import opened Rounding
  import opened Brackets
  import Rules

  /** A withholding entry: nothing when nothing is due. */
  function Withholding(payable: string, amount: real): seq<Rules.Leg> {
    if amount <= 0.0 then [] else
      [Rules.Leg(Rules.Debit, "WAGES_PAYABLE", "LIABILITY", amount),
       Rules.Leg(Rules.Credit, payable, "LIABILITY", amount)]
  }

  lemma WithholdingSpec(payable: string, amount: real)
    ensures Rules.IsPosting(Withholding(payable, amount))
    ensures Rules.Amount(Withholding(payable, amount)) == Rules.Greatest(0.0, amount)
  {
  }

  // ----- wage_accrual -----

  function WageAccrual(hours: real, rate: real): seq<Rules.Leg> {
    var gross := Cents(hours * rate);
    [Rules.Leg(Rules.Debit, "WAGES_EXPENSE", "EXPENSE", gross),
     Rules.Leg(Rules.Credit, "WAGES_PAYABLE", "LIABILITY", gross)]
  }

  /** A shift's accrual balances, within half a cent of hours x rate. */
  lemma WageAccrualSpec(hours: real, rate: real)
    ensures var legs := WageAccrual(hours, rate);
            Rules.Total(legs, Rules.Debit) == Rules.Total(legs, Rules.Credit)
            && -0.005 <= Rules.Net(legs, "WAGES_EXPENSE") - hours * rate <= 0.005
            && Rules.Net(legs, "WAGES_PAYABLE") == -Rules.Net(legs, "WAGES_EXPENSE")
  {
    var legs := WageAccrual(hours, rate);
    Rules.TwoLegs(legs[0], legs[1]);
    CentsNear(hours * rate);
  }

  // ----- us_federal -----

  datatype W4 = W4(filingStatus: string, multipleJobs: bool, dependents: real, otherIncome: real,
                   deductions: real, extra: real, payPeriods: int)

  type Tables = map<string, map<string, Schedule>>

  datatype Error = MissingTable | NoPeriods

  /** The schedule a W-4 is figured on: its own when the table has one, else the single one. */
  function FederalSchedule(tables: Tables, w4: W4): Result<Schedule, Error> {
    var name := if w4.multipleJobs then "checkbox" else "standard";
    if name !in tables then Failure(MissingTable) else
      var table := tables[name];
      var key := if w4.filingStatus == "married_separately" then "single" else w4.filingStatus;
      if key in table && table[key] != [] then Success(table[key])
      else if "single" in table then Success(table["single"])
      else Failure(MissingTable)
  }

  function StandardAllowance(w4: W4): real {
    if w4.multipleJobs then 0.0 else if w4.filingStatus == "married_jointly" then 12900.0 else 8600.0
  }

  function Annual(gross: real, periods: int): real {
    gross * periods as real
  }

  lemma AnnualMonotone(g: real, h: real, periods: int)
    requires g <= h && periods > 0
    ensures Annual(g, periods) <= Annual(h, periods)
  {
    Slope(periods as real, g, h);
  }

  /** Step 1: the adjusted annual wage. */
  function AdjustedAnnual(gross: real, w4: W4): real {
    Rules.Greatest(0.0, Annual(gross, w4.payPeriods) + w4.otherIncome - w4.deductions - StandardAllowance(w4))
  }

  /** Steps 2 to 4, from the annual tax. */
  function PerPeriod(tax: real, w4: W4): real
    requires w4.payPeriods != 0
  {
    var pp := w4.payPeriods as real;
    Cents(Rules.Greatest(0.0, tax / pp - w4.dependents / pp) + w4.extra)
  }

  function UsFederal(gross: real, w4: W4, tables: Tables): Result<seq<Rules.Leg>, Error> {
    match FederalSchedule(tables, w4)
    case Failure(e) => Failure(e)
    case Success(schedule) =>
      if w4.payPeriods == 0 then Failure(NoPeriods)
      else Success(Withholding("FED_WH_PAYABLE", PerPeriod(BracketTax(AdjustedAnnual(gross, w4), schedule), w4)))
  }

  lemma DivideMonotone(x: real, y: real, d: real)
    requires x <= y && d > 0.0
    ensures x / d <= y / d
  {
  }

  lemma PerPeriodMonotone(x: real, y: real, w4: W4)
    requires x <= y && w4.payPeriods > 0
    ensures PerPeriod(x, w4) <= PerPeriod(y, w4)
  {
    var pp := w4.payPeriods as real;
    DivideMonotone(x, y, pp);
    CentsMonotone(Rules.Greatest(0.0, x / pp - w4.dependents / pp) + w4.extra,
                  Rules.Greatest(0.0, y / pp - w4.dependents / pp) + w4.extra);
  }

  lemma AdjustedMonotone(g: real, h: real, w4: W4)
    requires g <= h && w4.payPeriods > 0
    ensures 0.0 <= AdjustedAnnual(g, w4) <= AdjustedAnnual(h, w4)
  {
    AnnualMonotone(g, h, w4.payPeriods);
  }

  /** On a schedule that climbs, what is withheld never falls as gross pay rises, through the
      division, the credits and the rounding. */
  lemma FederalNeverFalls(g: real, h: real, w4: W4, tables: Tables)
    requires g <= h && w4.payPeriods > 0 && UsFederal(g, w4, tables).Success?
    requires var s := FederalSchedule(tables, w4).value; FromZero(s) && Climbs(s[0], s[1..])
    ensures UsFederal(h, w4, tables).Success?
    ensures Rules.Amount(UsFederal(g, w4, tables).value) <= Rules.Amount(UsFederal(h, w4, tables).value)
  {
    var s := FederalSchedule(tables, w4).value;
    AdjustedMonotone(g, h, w4);
    NeverFallsIff(s);
    PerPeriodMonotone(BracketTax(AdjustedAnnual(g, w4), s), BracketTax(AdjustedAnnual(h, w4), s), w4);
  }

  /** The withholding is balanced and positive, or nothing. */
  lemma FederalIsPosting(gross: real, w4: W4, tables: Tables)
    requires UsFederal(gross, w4, tables).Success?
    ensures Rules.IsPosting(UsFederal(gross, w4, tables).value)
  {
  }

  // ----- what a year of equal periods withholds -----

  /** Amounts of n periods that add up to a year's due, within half a cent a period. */
  ghost predicate AddsUpTo(amount: real, periods: int, due: real) {
    -Annual(0.005, periods) <= Annual(amount, periods) - due <= Annual(0.005, periods)
  }

  lemma NearYear(amount: real, exact: real, periods: int)
    requires periods > 0 && -0.005 <= amount - exact <= 0.005
    ensures AddsUpTo(amount, periods, Annual(exact, periods))
  {
    AnnualMonotone(amount, exact + 0.005, periods);
    AnnualMonotone(exact - 0.005, amount, periods);
    AnnualAdds(exact, 0.005, periods);
    AnnualAdds(exact - 0.005, 0.005, periods);
  }

  lemma AnnualAdds(x: real, y: real, periods: int)
    ensures Annual(x + y, periods) == Annual(x, periods) + Annual(y, periods)
  {
  }

  lemma ShareAnnual(x: real, periods: int)
    requires periods > 0
    ensures Annual(x / periods as real, periods) == x
  {
  }

  /** A floored difference of two yearly amounts, figured per period, is the yearly difference floored. */
  lemma FlooredYear(tax: real, credit: real, periods: int)
    requires periods > 0
    ensures Annual(Rules.Greatest(0.0, tax / periods as real - credit / periods as real), periods)
            == Rules.Greatest(0.0, tax - credit)
  {
    var d := tax / periods as real - credit / periods as real;
    AnnualAdds(d, credit / periods as real, periods);
    ShareAnnual(tax, periods);
    ShareAnnual(credit, periods);
    if d >= 0.0 {
      AnnualMonotone(0.0, d, periods);
    } else {
      AnnualMonotone(d, 0.0, periods);
    }
    assert Annual(0.0, periods) == 0.0;
  }

  /** A year of equal periods withholds the tax on the adjusted annual wage, less the dependents' credit but
      not below nothing, and the extra of each period. */
  lemma FederalYear(gross: real, w4: W4, tables: Tables)
    requires UsFederal(gross, w4, tables).Success? && w4.payPeriods > 0 && w4.extra >= 0.0
    ensures var tax := BracketTax(AdjustedAnnual(gross, w4), FederalSchedule(tables, w4).value);
            AddsUpTo(Rules.Amount(UsFederal(gross, w4, tables).value), w4.payPeriods,
                     Rules.Greatest(0.0, tax - w4.dependents) + Annual(w4.extra, w4.payPeriods))
  {
    var tax := BracketTax(AdjustedAnnual(gross, w4), FederalSchedule(tables, w4).value);
    WithholdingSpec("FED_WH_PAYABLE", PerPeriod(tax, w4));
    PerPeriodYear(tax, w4);
  }

  lemma PerPeriodYear(tax: real, w4: W4)
    requires w4.payPeriods > 0 && w4.extra >= 0.0
    ensures AddsUpTo(Rules.Greatest(0.0, PerPeriod(tax, w4)), w4.payPeriods,
                     Rules.Greatest(0.0, tax - w4.dependents) + Annual(w4.extra, w4.payPeriods))
  {
    var pp := w4.payPeriods as real;
    var after := Rules.Greatest(0.0, tax / pp - w4.dependents / pp);
    CentsNear(after + w4.extra);
    CentsOfPositive(after + w4.extra);
    NearYear(Cents(after + w4.extra), after + w4.extra, w4.payPeriods);
    AnnualAdds(after, w4.extra, w4.payPeriods);
    FlooredYear(tax, w4.dependents, w4.payPeriods);
  }

  // ----- when withholding can fall -----

  /** The W-4 that shows a dip: one annual period, no credits, and an extra amount that puts the two
      taxes on either side of a half cent. */
  function DipW4(status: string, multipleJobs: bool, extra: real): W4 {
    W4(status, multipleJobs, 0.0, 0.0, 0.0, extra, 1)
  }

  lemma RoundsApart(x: real, y: real) returns (extra: real)
    requires 0.0 <= y < x
    ensures Cents(y + extra) < Cents(x + extra) && 0.0 <= extra && Cents(x + extra) > 0.0
  {
    var mid := (x + y) / 2.0;
    var k := (mid * 100.0).Floor + 1;
    extra := (2 * k + 1) as real / 200.0 - mid;
    var a, b := (x + extra) * 100.0, (y + extra) * 100.0;
    assert (mid + extra) * 100.0 == k as real + 0.5;
    assert a > k as real + 0.5 > b;
    HalfEvenIff(a, HalfEven(a));
    HalfEvenIff(b, HalfEven(b));
    assert HalfEven(a) >= k + 1 && HalfEven(b) <= k;
  }

  lemma AnnualOf(status: string, multipleJobs: bool, extra: real, a: real)
    requires a >= 0.0
    ensures var w4 := DipW4(status, multipleJobs, extra);
            AdjustedAnnual(a + StandardAllowance(w4), w4) == a
  {
  }

  lemma OnePeriod(tax: real, status: string, multipleJobs: bool, extra: real)
    requires tax >= 0.0
    ensures PerPeriod(tax, DipW4(status, multipleJobs, extra)) == Cents(tax + extra)
  {
    assert tax / 1.0 == tax;
  }

  /** What a W-4 of one status and one answer to Step 2(c) has withheld. */
  ghost predicate WithholdingNeverFalls(status: string, multipleJobs: bool, tables: Tables) {
    forall w4: W4, g, h ::
      w4.filingStatus == status && w4.multipleJobs == multipleJobs && w4.payPeriods > 0 && g <= h
      && UsFederal(g, w4, tables).Success? && UsFederal(h, w4, tables).Success? ==>
        Rules.Amount(UsFederal(g, w4, tables).value) <= Rules.Amount(UsFederal(h, w4, tables).value)
  }

  lemma FederalDip(status: string, multipleJobs: bool, tables: Tables, x: real, y: real)
    requires FederalSchedule(tables, DipW4(status, multipleJobs, 0.0)).Success?
    requires var s := FederalSchedule(tables, DipW4(status, multipleJobs, 0.0)).value;
             0.0 <= x < y && 0.0 <= BracketTax(y, s) < BracketTax(x, s)
    ensures !WithholdingNeverFalls(status, multipleJobs, tables)
  {
    var s := FederalSchedule(tables, DipW4(status, multipleJobs, 0.0)).value;
    var tx, ty := BracketTax(x, s), BracketTax(y, s);
    var extra := RoundsApart(tx, ty);
    var w4 := DipW4(status, multipleJobs, extra);
    var g, h := x + StandardAllowance(w4), y + StandardAllowance(w4);
    AnnualOf(status, multipleJobs, extra, x);
    AnnualOf(status, multipleJobs, extra, y);
    OnePeriod(tx, status, multipleJobs, extra);
    OnePeriod(ty, status, multipleJobs, extra);
    assert FederalSchedule(tables, w4) == Success(s);
    WithholdingSpec("FED_WH_PAYABLE", Cents(tx + extra));
    WithholdingSpec("FED_WH_PAYABLE", Cents(ty + extra));
    assert Rules.Amount(UsFederal(g, w4, tables).value) == Rules.Greatest(0.0, Cents(tx + extra));
    assert Rules.Amount(UsFederal(h, w4, tables).value) == Rules.Greatest(0.0, Cents(ty + extra));
  }

  /** The worksheet keeps withholding from falling, for every W-4 figured on a schedule, exactly when
      that schedule climbs. */
  lemma FederalIff(status: string, multipleJobs: bool, tables: Tables)
    requires FederalSchedule(tables, DipW4(status, multipleJobs, 0.0)).Success?
    requires var s := FederalSchedule(tables, DipW4(status, multipleJobs, 0.0)).value;
             FromZero(s) && NonNegative(s)
    ensures var s := FederalSchedule(tables, DipW4(status, multipleJobs, 0.0)).value;
            WithholdingNeverFalls(status, multipleJobs, tables) <==> Climbs(s[0], s[1..])
  {
    var s := FederalSchedule(tables, DipW4(status, multipleJobs, 0.0)).value;
    NeverFallsIff(s);
    if Climbs(s[0], s[1..]) {
      forall w4: W4, g, h |
        w4.filingStatus == status && w4.multipleJobs == multipleJobs && w4.payPeriods > 0 && g <= h
        && UsFederal(g, w4, tables).Success? && UsFederal(h, w4, tables).Success?
        ensures Rules.Amount(UsFederal(g, w4, tables).value) <= Rules.Amount(UsFederal(h, w4, tables).value)
      {
        assert FederalSchedule(tables, w4) == Success(s);
        FederalNeverFalls(g, h, w4, tables);
      }
    } else {
      var x, y :| 0.0 <= x <= y && BracketTax(x, s) > BracketTax(y, s);
      FirstBracket(y, s);
      TaxNonNegative(s[0], y, s[1..]);
      FederalDip(status, multipleJobs, tables, x, y);
    }
  }

  // ----- ca_pit -----

  datatype DE4 = DE4(filingStatus: string, allowances: int, additional: int, payPeriods: int)

  datatype CaTables = CaTables(lowIncomeExemption: map<string, real>, deductionPerAllowance: real,
                               standardDeduction: map<string, real>, creditPerAllowance: real,
                               rateTables: map<string, Schedule>)

  function Column(d: DE4): string {
    if d.filingStatus == "married" then (if d.allowances >= 2 then "married_2plus" else "married_0_1")
    else if d.filingStatus == "head_of_household" then "hoh" else "single"
  }

  function RateKey(d: DE4): string {
    if d.filingStatus in {"married", "head_of_household"} then d.filingStatus else "single"
  }

  predicate HasTables(d: DE4, t: CaTables) {
    Column(d) in t.lowIncomeExemption && Column(d) in t.standardDeduction && RateKey(d) in t.rateTables
  }

  function Taxable(gross: real, d: DE4, t: CaTables): real
    requires HasTables(d, t)
  {
    Annual(gross, d.payPeriods) - d.additional as real * t.deductionPerAllowance - t.standardDeduction[Column(d)]
  }

  function ExemptionCredit(d: DE4, t: CaTables): real {
    d.allowances as real * t.creditPerAllowance
  }

  function Share(annual: real, periods: int): real
    requires periods != 0
  {
    annual / periods as real
  }

  lemma ShareMonotone(x: real, y: real, periods: int)
    requires x <= y && periods > 0
    ensures Share(x, periods) <= Share(y, periods)
  {
    DivideMonotone(x, y, periods as real);
  }

  /** Steps 4 and 5, divided back to the period. */
  function CaPerPeriod(tax: real, d: DE4, t: CaTables): real
    requires d.payPeriods != 0
  {
    Cents(Share(Rules.Greatest(0.0, tax - ExemptionCredit(d, t)), d.payPeriods))
  }

  /** A missing table raises; the order of the lookups is not part of this model. */
  function CaPit(gross: real, d: DE4, t: CaTables): Result<seq<Rules.Leg>, Error> {
    if !HasTables(d, t) then Failure(MissingTable)
    else if Annual(gross, d.payPeriods) <= t.lowIncomeExemption[Column(d)] then Success([])
    else if Taxable(gross, d, t) <= 0.0 then Success([])
    else if d.payPeriods == 0 then Failure(NoPeriods)
    else Success(Withholding("STATE_WH_PAYABLE",
                             CaPerPeriod(BracketTax(Taxable(gross, d, t), t.rateTables[RateKey(d)]), d, t)))
  }

  /** Method B's withholding never falls as gross pay rises when the rate table climbs: not at the
      low-income exemption, the deductions, the credit or the rounding. */
  lemma CaNeverFalls(g: real, h: real, d: DE4, t: CaTables)
    requires g <= h && d.payPeriods > 0 && HasTables(d, t)
    requires var s := t.rateTables[RateKey(d)]; FromZero(s) && Climbs(s[0], s[1..])
    ensures CaPit(g, d, t).Success? && CaPit(h, d, t).Success?
    ensures Rules.Amount(CaPit(g, d, t).value) <= Rules.Amount(CaPit(h, d, t).value)
    ensures Rules.IsPosting(CaPit(g, d, t).value)
  {
    var s := t.rateTables[RateKey(d)];
    AnnualMonotone(g, h, d.payPeriods);
    if CaPit(g, d, t).value != [] {
      var x, y := BracketTax(Taxable(g, d, t), s), BracketTax(Taxable(h, d, t), s);
      NeverFallsIff(s);
      assert x <= y;
      CaPerPeriodMonotone(x, y, d, t);
      WithholdingSpec("STATE_WH_PAYABLE", CaPerPeriod(x, d, t));
      WithholdingSpec("STATE_WH_PAYABLE", CaPerPeriod(y, d, t));
    }
    CaIsPosting(g, d, t);
    CaIsPosting(h, d, t);
  }

  ghost predicate CaWithholdingNeverFalls(status: string, t: CaTables) {
    forall d: DE4, g, h ::
      d.filingStatus == status && d.payPeriods > 0 && HasTables(d, t) && g <= h ==>
        Rules.Amount(CaPit(g, d, t).value) <= Rules.Amount(CaPit(h, d, t).value)
  }

  /** The gross pay of a period that leaves a taxable wage of x. */
  lemma GrossFor(x: real, d: DE4, t: CaTables) returns (g: real)
    requires HasTables(d, t) && d.payPeriods > 0
    ensures Taxable(g, d, t) == x
    ensures Annual(g, d.payPeriods)
            == x + d.additional as real * t.deductionPerAllowance + t.standardDeduction[Column(d)]
  {
    var annual := x + d.additional as real * t.deductionPerAllowance + t.standardDeduction[Column(d)];
    g := annual / d.payPeriods as real;
    ShareAnnual(annual, d.payPeriods);
  }

  lemma Enough(unit: real, bound: real) returns (n: int)
    requires unit > 0.0
    ensures n >= 0 && n as real * unit > bound
  {
    if bound < 0.0 {
      n := 0;
    } else {
      n := (bound / unit).Floor + 1;
      assert (bound / unit) * unit == bound;
      StrictlyMore(unit, bound / unit, n as real);
    }
  }

  lemma StrictlyMore(unit: real, x: real, y: real)
    requires unit > 0.0 && x < y
    ensures x * unit < y * unit
  {
  }

  /** Divided over twice as many periods as it has cents, a yearly tax is half a cent a period. */
  lemma HalfCentEach(c: int, tax: real)
    requires c > 0 && tax >= CentsOf(c)
    ensures Cents(Share(tax, 2 * c)) > 0.0 <==> tax > CentsOf(c)
  {
    assert Share(CentsOf(c), 2 * c) == 0.005;
    ShareMonotone(CentsOf(c), tax, 2 * c);
    CentsOfPositive(Share(tax, 2 * c));
    if tax > CentsOf(c) {
      ShareAnnual(tax, 2 * c);
      ShareAnnual(CentsOf(c), 2 * c);
      assert Share(tax, 2 * c) != 0.005;
    }
  }

  /** A DE-4 that shows a dip: no regular allowances, estimated deductions that take the pay past the
      low-income exemption, and a year of periods that leaves half a cent of the floor's tax in each. */
  lemma CaDip(status: string, t: CaTables, x: real, y: real, c: int)
    requires HasTables(DE4(status, 0, 0, 1), t) && t.deductionPerAllowance > 0.0
    requires var s := t.rateTables[RateKey(DE4(status, 0, 0, 1))];
             0.0 < x < y && c > 0 && BracketTax(y, s) == CentsOf(c) < BracketTax(x, s)
    ensures !CaWithholdingNeverFalls(status, t)
  {
    var column := Column(DE4(status, 0, 0, 1));
    var n := Enough(t.deductionPerAllowance, t.lowIncomeExemption[column] - t.standardDeduction[column]);
    var d := DE4(status, 0, n, 2 * c);
    var g := GrossFor(x, d, t);
    var h := GrossFor(y, d, t);
    GrossBelow(g, h, d.payPeriods);
    CaDipAmount(g, d, t, x, c);
    CaDipAmount(h, d, t, y, c);
  }

  lemma GrossBelow(g: real, h: real, periods: int)
    requires periods > 0 && Annual(g, periods) < Annual(h, periods)
    ensures g < h
  {
    if h <= g {
      AnnualMonotone(h, g, periods);
    }
  }

  lemma CaDipAmount(g: real, d: DE4, t: CaTables, x: real, c: int)
    requires HasTables(d, t) && d.allowances == 0 && c > 0 && d.payPeriods == 2 * c
    requires Taxable(g, d, t) == x > 0.0 && Annual(g, d.payPeriods) > t.lowIncomeExemption[Column(d)]
    requires BracketTax(x, t.rateTables[RateKey(d)]) >= CentsOf(c)
    ensures CaPit(g, d, t).Success?
    ensures Rules.Amount(CaPit(g, d, t).value) > 0.0 <==> BracketTax(x, t.rateTables[RateKey(d)]) > CentsOf(c)
    ensures Rules.Amount(CaPit(g, d, t).value) >= 0.0
  {
    var tax := BracketTax(x, t.rateTables[RateKey(d)]);
    NoCredit(t.creditPerAllowance);
    HalfCentEach(c, tax);
    WithholdingSpec("STATE_WH_PAYABLE", CaPerPeriod(tax, d, t));
  }

  lemma NoCredit(credit: real)
    ensures 0 as real * credit == 0.0
  {
  }

  /** Method B keeps withholding from falling, for every DE-4 of a filing status, exactly when the status's
      rate table climbs, for tables in whole cents. */
  lemma CaIff(status: string, t: CaTables)
    requires HasTables(DE4(status, 0, 0, 1), t) && t.deductionPerAllowance > 0.0
    requires var s := t.rateTables[RateKey(DE4(status, 0, 0, 1))];
             FromZero(s) && s[0].rate >= 0.0 && InCents(s[1..])
    ensures var s := t.rateTables[RateKey(DE4(status, 0, 0, 1))];
            CaWithholdingNeverFalls(status, t) <==> Climbs(s[0], s[1..])
  {
    var s := t.rateTables[RateKey(DE4(status, 0, 0, 1))];
    if Climbs(s[0], s[1..]) {
      forall d: DE4, g, h | d.filingStatus == status && d.payPeriods > 0 && HasTables(d, t) && g <= h
        ensures Rules.Amount(CaPit(g, d, t).value) <= Rules.Amount(CaPit(h, d, t).value)
      {
        CaNeverFalls(g, h, d, t);
      }
    } else {
      var x, y, c := DipToCents(s[0], s[1..]);
      FirstBracket(x, s);
      FirstBracket(y, s);
      CaDip(status, t, x, y, c);
    }
  }

  lemma CaPerPeriodMonotone(x: real, y: real, d: DE4, t: CaTables)
    requires x <= y && d.payPeriods > 0
    ensures CaPerPeriod(x, d, t) <= CaPerPeriod(y, d, t)
  {
    var a, b := Rules.Greatest(0.0, x - ExemptionCredit(d, t)), Rules.Greatest(0.0, y - ExemptionCredit(d, t));
    ShareMonotone(a, b, d.payPeriods);
    CentsMonotone(Share(a, d.payPeriods), Share(b, d.payPeriods));
  }

  lemma CaIsPosting(gross: real, d: DE4, t: CaTables)
    requires CaPit(gross, d, t).Success?
    ensures Rules.IsPosting(CaPit(gross, d, t).value) && Rules.Amount(CaPit(gross, d, t).value) >= 0.0
  {
  }

  /** A year of equal periods withholds nothing up to the low-income exemption or the deductions, and above
      them the tax on the taxable wage less the exemption credit. */
  lemma CaYear(gross: real, d: DE4, t: CaTables)
    requires d.payPeriods > 0 && HasTables(d, t)
    ensures CaPit(gross, d, t).Success?
    ensures var amount := Rules.Amount(CaPit(gross, d, t).value);
            if Annual(gross, d.payPeriods) <= t.lowIncomeExemption[Column(d)] || Taxable(gross, d, t) <= 0.0
            then amount == 0.0
            else AddsUpTo(amount, d.payPeriods,
                          Rules.Greatest(0.0, BracketTax(Taxable(gross, d, t), t.rateTables[RateKey(d)])
                                              - ExemptionCredit(d, t)))
  {
    if Annual(gross, d.payPeriods) > t.lowIncomeExemption[Column(d)] && Taxable(gross, d, t) > 0.0 {
      var tax := BracketTax(Taxable(gross, d, t), t.rateTables[RateKey(d)]);
      WithholdingSpec("STATE_WH_PAYABLE", CaPerPeriod(tax, d, t));
      CaPerPeriodYear(Rules.Greatest(0.0, tax - ExemptionCredit(d, t)), d.payPeriods);
    }
  }

  lemma CaPerPeriodYear(due: real, periods: int)
    requires periods > 0 && due >= 0.0
    ensures AddsUpTo(Rules.Greatest(0.0, Cents(Share(due, periods))), periods, due)
  {
    var share := Share(due, periods);
    ShareMonotone(0.0, due, periods);
    assert Share(0.0, periods) == 0.0;
    CentsNear(share);
    CentsOfPositive(share);
    NearYear(Cents(share), share, periods);
    ShareAnnual(due, periods);
  }

  // ----- the shipped tables -----

  /** The Publication 15-T schedule for single filers with Step 2(c) checked, as the platform ships it. */
  const SINGLE_TWO_JOBS: Schedule := [
    Bracket(0.0, 0.0, 0.0), Bracket(8050.0, 0.0, 0.10), Bracket(14250.0, 620.0, 0.12),
    Bracket(33250.0, 2900.0, 0.22), Bracket(60900.0, 8983.0, 0.24), Bracket(108938.0, 20512.0, 0.32),
    Bracket(136163.0, 29224.0, 0.35), Bracket(328350.0, 96489.63, 0.37)]

  lemma CentsIs(x: real, n: int)
    requires -0.5 < n as real - x * 100.0 < 0.5
    ensures Cents(x) == n as real / 100.0
  {
    HalfEvenIff(x * 100.0, n);
  }

  lemma TwoJobsRises()
    ensures FromZero(SINGLE_TWO_JOBS)
  {
    var s := SINGLE_TWO_JOBS;
    assert Rising(s[7], s[8..]);
    assert s[7..][1..] == s[8..] && Rising(s[6], s[7..]);
    assert s[6..][1..] == s[7..] && Rising(s[5], s[6..]);
    assert s[5..][1..] == s[6..] && Rising(s[4], s[5..]);
    assert s[4..][1..] == s[5..] && Rising(s[3], s[4..]);
    assert s[3..][1..] == s[4..] && Rising(s[2], s[3..]);
    assert s[2..][1..] == s[3..] && Rising(s[1], s[2..]);
    assert s[1..][1..] == s[2..] && Rising(s[0], s[1..]);
  }

  lemma TwoJobsTaxes()
    ensures BracketTax(108937.92, SINGLE_TWO_JOBS) == 20512.1008
    ensures BracketTax(108938.04, SINGLE_TWO_JOBS) == 20512.0128
  {
    TwoJobsRises();
    PickIs(NOTHING, 108937.92, SINGLE_TWO_JOBS, 4);
    PickIs(NOTHING, 108938.04, SINGLE_TWO_JOBS, 5);
  }

  lemma TwoJobsAnnual(gross: real)
    requires gross >= 0.0
    ensures AdjustedAnnual(gross, W4("single", true, 0.0, 0.0, 0.0, 0.0, 12)) == gross * 12.0
  {
  }

  lemma TwoJobsPeriod(tax: real)
    requires tax >= 0.0
    ensures PerPeriod(tax, W4("single", true, 0.0, 0.0, 0.0, 0.0, 12)) == Cents(tax / 12.0)
  {
  }

  lemma TwoJobsFederal(tables: Tables, gross: real)
    requires "checkbox" in tables && "single" in tables["checkbox"] && tables["checkbox"]["single"] == SINGLE_TWO_JOBS
    requires gross >= 0.0 && BracketTax(gross * 12.0, SINGLE_TWO_JOBS) >= 0.0
    ensures UsFederal(gross, W4("single", true, 0.0, 0.0, 0.0, 0.0, 12), tables)
            == Success(Withholding("FED_WH_PAYABLE", Cents(BracketTax(gross * 12.0, SINGLE_TWO_JOBS) / 12.0)))
  {
    var w4 := W4("single", true, 0.0, 0.0, 0.0, 0.0, 12);
    assert FederalSchedule(tables, w4) == Success(SINGLE_TWO_JOBS);
    TwoJobsAnnual(gross);
    TwoJobsPeriod(BracketTax(gross * 12.0, SINGLE_TWO_JOBS));
  }

  /** Its sixth bracket begins twelve cents below what the fifth reached, so a monthly worker who earns a
      cent more has a cent less withheld. */
  lemma TwoJobsDips(tables: Tables)
    requires "checkbox" in tables && "single" in tables["checkbox"] && tables["checkbox"]["single"] == SINGLE_TWO_JOBS
    ensures var w4 := W4("single", true, 0.0, 0.0, 0.0, 0.0, 12);
            && UsFederal(9078.16, w4, tables) == Success(Withholding("FED_WH_PAYABLE", 1709.34))
            && UsFederal(9078.17, w4, tables) == Success(Withholding("FED_WH_PAYABLE", 1709.33))
  {
    TwoJobsTaxes();
    TwoJobsFederal(tables, 9078.16);
    TwoJobsFederal(tables, 9078.17);
    CentsIs(20512.1008 / 12.0, 170934);
    CentsIs(20512.0128 / 12.0, 170933);
  }

  /** The rate table begins as the EDD's single one that the platform ships does. */
  predicate BeginsSingle(s: Schedule) {
    |s| >= 4 && Rising(s[0], s[1..])
    && s[0] == Bracket(0.0, 0.0, 0.011) && s[1] == Bracket(11079.0, 121.87, 0.022)
    && s[2] == Bracket(26264.0, 455.94, 0.044) && s[3] == Bracket(41452.0, 1124.21, 0.066)
  }

  lemma SingleTaxBelow(s: Schedule)
    requires BeginsSingle(s)
    ensures BracketTax(41451.98, s) == 1124.21112
  {
    PickIs(NOTHING, 41451.98, s, 2);
    assert TaxIn(s[2], 41451.98) == 1124.21112;
  }

  lemma SingleTaxAt(s: Schedule)
    requires BeginsSingle(s)
    ensures BracketTax(41452.0, s) == 1124.21
  {
    if |s| > 4 {
      RisingNext(s[0], s[1..], 3);
    }
    PickIs(NOTHING, 41452.0, s, 3);
    AtOwnFloor(s[3]);
  }

  /** The state's parameters for a single filer are those shipped, but for the table's later brackets. */
  predicate ShipsSingle(t: CaTables, s: Schedule) {
    && BeginsSingle(s) && "single" in t.rateTables && t.rateTables["single"] == s
    && "single" in t.lowIncomeExemption && t.lowIncomeExemption["single"] == 18896.0
    && "single" in t.standardDeduction && t.standardDeduction["single"] == 5706.0
  }

  lemma SingleTaxable(t: CaTables, s: Schedule, gross: real)
    requires ShipsSingle(t, s)
    ensures Taxable(gross, DE4("single", 0, 0, 2), t) == gross * 2.0 - 5706.0
  {
    NoCredit(t.deductionPerAllowance);
    assert Annual(gross, 2) == gross * 2.0;
  }

  lemma HalfYear(tax: real, t: CaTables)
    requires tax >= 0.0
    ensures CaPerPeriod(tax, DE4("single", 0, 0, 2), t) == Cents(tax / 2.0)
  {
    NoCredit(t.creditPerAllowance);
    assert ExemptionCredit(DE4("single", 0, 0, 2), t) == 0.0;
    assert Rules.Greatest(0.0, tax - 0.0) == tax && Share(tax, 2) == tax / 2.0;
  }

  lemma SingleCaPit(t: CaTables, s: Schedule, gross: real)
    requires ShipsSingle(t, s) && gross > 9448.0 && BracketTax(gross * 2.0 - 5706.0, s) >= 0.0
    ensures CaPit(gross, DE4("single", 0, 0, 2), t)
            == Success(Withholding("STATE_WH_PAYABLE", Cents(BracketTax(gross * 2.0 - 5706.0, s) / 2.0)))
  {
    SingleTaxable(t, s, gross);
    HalfYear(BracketTax(gross * 2.0 - 5706.0, s), t);
  }

  lemma TaxesInCents()
    ensures Cents(562.10556) == 562.11 && Cents(562.105) == 562.10
  {
    CentsIs(562.10556, 56211);
    HalfEvenIff(56210.5, 56210);
  }

  /** A cent more of gross, a cent less withheld. */
  lemma SingleCaDips(t: CaTables, s: Schedule)
    requires ShipsSingle(t, s)
    ensures var d := DE4("single", 0, 0, 2);
            && CaPit(23578.99, d, t) == Success(Withholding("STATE_WH_PAYABLE", 562.11))
            && CaPit(23579.0, d, t) == Success(Withholding("STATE_WH_PAYABLE", 562.10))
  {
    SingleTaxBelow(s);
    SingleTaxAt(s);
    SingleCaPit(t, s, 23578.99);
    SingleCaPit(t, s, 23579.0);
    TaxesInCents();
  }

  /** Of the nine schedules the platform ships, the four that hold these neighbours do not climb: the
      federal one for two jobs and a single filer, and the state's three. */
  lemma FourDoNotClimb(s: Schedule, i: nat)
    requires i + 1 < |s|
    requires
      || (s[i] == Bracket(60900.0, 8983.0, 0.24) && s[i + 1] == Bracket(108938.0, 20512.0, 0.32))
      || (s[i] == Bracket(26264.0, 455.94, 0.044) && s[i + 1] == Bracket(41452.0, 1124.21, 0.066))
      || (s[i] == Bracket(52528.0, 911.88, 0.044) && s[i + 1] == Bracket(82904.0, 2248.42, 0.066))
      || (s[i] == Bracket(0.0, 0.0, 0.011) && s[i + 1] == Bracket(22173.0, 243.90, 0.022))
    ensures !Climbs(s[0], s[1..])
  {
    DipAt(s[0], s[1..], i);
  }
}
