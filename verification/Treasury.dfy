/** An instrument's payout, modules/treasury: the ledger folded by dimension (ledger.py), the
    distribution rule with its lifetime cap (treasury_rules.py), and the period run that posts it. */
module Treasury {
  import opened Common
  import opened Rounding
  import Rules

  // ----- months -----

  datatype Month = Month(year: int, month: int)

  predicate IsMonth(m: Month) {
    1 <= m.month <= 12
  }

  /** Months counted from year zero. */
  function Index(m: Month): int {
    12 * m.year + m.month - 1
  }

  /** months(): every month from start to end, once, in order; none when start is after end. */
  method Months(start: Month, end: Month) returns (out: seq<Month>)
    requires IsMonth(start) && IsMonth(end)
    ensures |out| == if Index(start) <= Index(end) then Index(end) - Index(start) + 1 else 0
    ensures forall i :: 0 <= i < |out| ==> IsMonth(out[i]) && Index(out[i]) == Index(start) + i
  {
    out := [];
    var y, m := start.year, start.month;
    while y < end.year || (y == end.year && m <= end.month)
      invariant IsMonth(Month(y, m)) && Index(Month(y, m)) == Index(start) + |out|
      invariant |out| > 0 ==> Index(Month(y, m)) <= Index(end) + 1
      invariant forall i :: 0 <= i < |out| ==> IsMonth(out[i]) && Index(out[i]) == Index(start) + i
      decreases Index(end) - Index(Month(y, m))
    {
      out := out + [Month(y, m)];
      m := if m < 12 then m + 1 else 1;
      if m == 1 {
        y := y + 1;
      }
    }
  }

  // ----- the ledger -----

  /** A period by its closing day; ISO dates compare as month, then day. */
  datatype Period = Period(month: int, day: nat)

  predicate Before(a: Period, b: Period) {
    a.month < b.month || (a.month == b.month && a.day < b.day)
  }

  datatype Value = Text(text: string) | Closing(period: Period)

  type Dims = map<string, Value>

  datatype EntryId = Dist(instrument: string, period: Period) | Other(id: string)

  datatype Row = Row(entryId: EntryId, debitAccount: string, creditAccount: string, amount: real,
                     dimensions: Dims, dims: Dims, dimsPrivate: Dims)

  /** The partitions, by month. */
  type Ledger = map<int, seq<Row>>

  function Partition(ledger: Ledger, month: int): seq<Row> {
    if month in ledger then ledger[month] else []
  }

  /** A row's dimensions, whichever field they landed in. */
  function AllDims(row: Row): Dims {
    row.dimensions + row.dims + row.dimsPrivate
  }

  function PeriodOf(row: Row): Option<Period> {
    if "period" in AllDims(row) && AllDims(row)["period"].Closing? then Some(AllDims(row)["period"].period) else None
  }

  function AccountOn(row: Row, side: Rules.Side): string {
    if side.Credit? then row.creditAccount else row.debitAccount
  }

  predicate Matches(row: Row, side: Rules.Side, account: string, dim: string, value: Value) {
    AccountOn(row, side) == account && dim in AllDims(row) && AllDims(row)[dim] == value
  }

  predicate Counts(row: Row, side: Rules.Side, account: string, dim: string, value: Value, before: Option<Period>) {
    Matches(row, side, account, dim, value)
    && (before.Some? && PeriodOf(row).Some? ==> Before(PeriodOf(row).value, before.value))
  }

  function RowsSum(rows: seq<Row>, side: Rules.Side, account: string, dim: string, value: Value,
                   before: Option<Period>): real {
    if rows == [] then 0.0 else
      var last := |rows| - 1;
      RowsSum(rows[..last], side, account, dim, value, before)
      + (if Counts(rows[last], side, account, dim, value, before) then rows[last].amount else 0.0)
  }

  function FoldSum(ledger: Ledger, side: Rules.Side, account: string, dim: string, value: Value,
                   from: int, upto: int, before: Option<Period>): real
    decreases upto - from + 1
  {
    if upto < from then 0.0
    else FoldSum(ledger, side, account, dim, value, from, upto - 1, before)
         + RowsSum(Partition(ledger, upto), side, account, dim, value, before)
  }

  /** The inner loop, over one partition. */
  method FoldRows(rows: seq<Row>, side: Rules.Side, account: string, dim: string, value: Value, before: Option<Period>)
    returns (total: real)
    ensures total == RowsSum(rows, side, account, dim, value, before)
  {
    total := 0.0;
    for k := 0 to |rows|
      invariant total == RowsSum(rows[..k], side, account, dim, value, before)
    {
      PrefixStep(rows, k);
      var row := rows[k];
      if AccountOn(row, side) != account {
        continue;
      }
      var dims := AllDims(row);
      if dim !in dims || dims[dim] != value {
        continue;
      }
      if before.Some? && PeriodOf(row).Some? && !Before(PeriodOf(row).value, before.value) {
        continue;
      }
      total := total + row.amount;
    }
    assert rows[..|rows|] == rows;
  }

  /** fold_credits() and, on the debit side with no bound, fold_debits(): the nested loops. */
  method Fold(ledger: Ledger, side: Rules.Side, account: string, dim: string, value: Value,
              inception: Month, upto: Month, before: Option<Period>) returns (total: real)
    requires IsMonth(inception) && IsMonth(upto)
    ensures total == FoldSum(ledger, side, account, dim, value, Index(inception), Index(upto), before)
  {
    total := 0.0;
    var months := Months(inception, upto);
    var first := Index(inception);
    for i := 0 to |months|
      invariant total == FoldSum(ledger, side, account, dim, value, first, first + i - 1, before)
    {
      assert Index(months[i]) == first + i;
      var sum := FoldRows(Partition(ledger, Index(months[i])), side, account, dim, value, before);
      total := total + sum;
    }
  }

  // ----- the rule -----

  datatype Terms = Terms(factor: real, cap: Option<real>)

  function ShareAmount(netIncome: real, terms: Terms, paid: real): real {
    var amount := Rules.Mul(netIncome, terms.factor);
    match terms.cap
    case None => amount
    case Some(cap) => Rules.Clamp(amount, Some(0.0), Some(cap - paid))
  }

  /** distribution_share(): nothing to pay is no legs. */
  function DistributionShare(netIncome: real, terms: Terms, paid: real): seq<Rules.Leg> {
    var amount := ShareAmount(netIncome, terms, paid);
    if amount <= 0.0 then [] else
      [Rules.Leg(Rules.Debit, "RETAINED_EARNINGS", "EQUITY", amount),
       Rules.Leg(Rules.Credit, "DIVIDENDS_PAYABLE", "LIABILITY", amount)]
  }

  /** One period's payout: balanced or nothing, never past the cap, the whole remainder when the share
      would pass it, and nothing on a loss or once the cap is reached. */
  lemma ShareSpec(netIncome: real, terms: Terms, paid: real)
    ensures var legs := DistributionShare(netIncome, terms, paid);
            var share := Rules.Mul(netIncome, terms.factor);
            && Rules.IsPosting(legs)
            && (share <= 0.0 ==> legs == [])
            && match terms.cap
               case None => Rules.Amount(legs) == Rules.Greatest(0.0, share)
               case Some(cap) =>
                 && (paid <= cap ==> paid + Rules.Amount(legs) == Rules.Least(cap, paid + Rules.Greatest(0.0, share)))
                 && (paid >= cap ==> legs == [])
  {
  }

  /** What a period pays on one instance. */
  function Payout(netIncome: real, terms: Terms, paid: real): real {
    Rules.Amount(DistributionShare(netIncome, terms, paid))
  }

  /** Every instance matched to an instrument runs against the same income and the same paid total. */
  function Effects(insts: seq<Terms>, netIncome: real, paid: real): seq<Rules.Leg> {
    if insts == [] then [] else
      Effects(insts[..|insts| - 1], netIncome, paid) + DistributionShare(netIncome, insts[|insts| - 1], paid)
  }

  function Due(insts: seq<Terms>, netIncome: real, paid: real): real {
    if insts == [] then 0.0 else
      Due(insts[..|insts| - 1], netIncome, paid) + Payout(netIncome, insts[|insts| - 1], paid)
  }

  lemma {:induction false} TotalAppends(a: seq<Rules.Leg>, b: seq<Rules.Leg>, side: Rules.Side)
    ensures Rules.Total(a + b, side) == Rules.Total(a, side) + Rules.Total(b, side)
  {
    if a == [] {
      Nothing(b);
    } else {
      HeadTail(a);
      Assoc([a[0]], a[1..], b);
      DropHead(a[0], a[1..] + b);
      TotalAppends(a[1..], b, side);
    }
  }

  /** The entry of a period balances and pays what its instances pay; there is none exactly when that is
      nothing. */
  lemma {:induction false} EffectsSpec(insts: seq<Terms>, netIncome: real, paid: real)
    ensures var legs := Effects(insts, netIncome, paid);
            var due := Due(insts, netIncome, paid);
            && Rules.Total(legs, Rules.Debit) == Rules.Total(legs, Rules.Credit) == due >= 0.0
            && (legs == [] <==> due == 0.0)
  {
    if insts != [] {
      var front, last := insts[..|insts| - 1], insts[|insts| - 1];
      EffectsSpec(front, netIncome, paid);
      var share := DistributionShare(netIncome, last, paid);
      TotalAppends(Effects(front, netIncome, paid), share, Rules.Debit);
      TotalAppends(Effects(front, netIncome, paid), share, Rules.Credit);
      if share != [] {
        Rules.TwoLegs(share[0], share[1]);
        assert share == [share[0], share[1]];
      }
    }
  }

  lemma DueOfOne(terms: Terms, netIncome: real, paid: real)
    ensures Due([terms], netIncome, paid) == Payout(netIncome, terms, paid)
  {
    assert [terms][..0] == [];
  }

  // ----- the run -----

  function Paid(ledger: Ledger, instrument: string, inception: int, period: Period): real {
    FoldSum(ledger, Rules.Credit, "DIVIDENDS_PAYABLE", "instrument_id", Text(instrument), inception, period.month,
            Some(period))
  }

  predicate Pays(row: Row, instrument: string) {
    Matches(row, Rules.Credit, "DIVIDENDS_PAYABLE", "instrument_id", Text(instrument))
  }

  function Declaration(instrument: string, holder: string, period: Period, amount: real): Row {
    Row(Dist(instrument, period), "RETAINED_EARNINGS", "DIVIDENDS_PAYABLE", amount, map[],
        map["holder" := Text(holder), "period" := Closing(period), "instrument_id" := Text(instrument)], map[])
  }

  lemma DeclarationSpec(instrument: string, holder: string, period: Period, amount: real)
    ensures var row := Declaration(instrument, holder, period, amount);
            Pays(row, instrument) && PeriodOf(row) == Some(period)
  {
    var row := Declaration(instrument, holder, period, amount);
    assert AllDims(row) == row.dims;
  }

  /** post_journal_entry: an entry whose id and timestamp are already in its partition is a duplicate. */
  function Post(ledger: Ledger, month: int, row: Row): Ledger {
    if exists r :: r in Partition(ledger, month) && r.entryId == row.entryId then ledger
    else ledger[month := Partition(ledger, month) + [row]]
  }

  /** One instrument's period close: fold what it paid before the period, run what is matched, post. */
  function Close(ledger: Ledger, instrument: string, holder: string, insts: seq<Terms>, inception: int,
                 period: Period, netIncome: real): Ledger {
    var legs := Effects(insts, netIncome, Paid(ledger, instrument, inception, period));
    if legs == [] then ledger
    else Post(ledger, period.month, Declaration(instrument, holder, period, Rules.Total(legs, Rules.Credit)))
  }

  lemma CloseIs(ledger: Ledger, instrument: string, holder: string, insts: seq<Terms>, inception: int,
                period: Period, netIncome: real)
    ensures var due := Due(insts, netIncome, Paid(ledger, instrument, inception, period));
            && due >= 0.0
            && Close(ledger, instrument, holder, insts, inception, period, netIncome)
               == if due == 0.0 then ledger
                  else Post(ledger, period.month, Declaration(instrument, holder, period, due))
  {
    EffectsSpec(insts, netIncome, Paid(ledger, instrument, inception, period));
  }

  datatype PeriodClose = PeriodClose(period: Period, netIncome: real)

  function Run(ledger: Ledger, instrument: string, holder: string, insts: seq<Terms>, inception: int,
               closes: seq<PeriodClose>): Ledger {
    if closes == [] then ledger else
      var last := closes[|closes| - 1];
      Close(Run(ledger, instrument, holder, insts, inception, closes[..|closes| - 1]),
            instrument, holder, insts, inception, last.period, last.netIncome)
  }

  // ----- what a post changes in a fold -----

  predicate CountsFor(row: Row, instrument: string, before: Period) {
    Counts(row, Rules.Credit, "DIVIDENDS_PAYABLE", "instrument_id", Text(instrument), Some(before))
  }

  function Rows(rows: seq<Row>, instrument: string, before: Period): real {
    RowsSum(rows, Rules.Credit, "DIVIDENDS_PAYABLE", "instrument_id", Text(instrument), Some(before))
  }

  function PaidTo(ledger: Ledger, instrument: string, from: int, upto: int, before: Period): real {
    FoldSum(ledger, Rules.Credit, "DIVIDENDS_PAYABLE", "instrument_id", Text(instrument), from, upto, Some(before))
  }

  lemma {:induction false} RowsSame(rows: seq<Row>, instrument: string, a: Period, b: Period)
    requires forall i :: 0 <= i < |rows| ==> CountsFor(rows[i], instrument, a) == CountsFor(rows[i], instrument, b)
    ensures Rows(rows, instrument, a) == Rows(rows, instrument, b)
  {
    if rows != [] {
      RowsSame(rows[..|rows| - 1], instrument, a, b);
    }
  }

  lemma {:induction false} RowsNone(rows: seq<Row>, instrument: string, before: Period)
    requires forall i :: 0 <= i < |rows| ==> !Pays(rows[i], instrument)
    ensures Rows(rows, instrument, before) == 0.0
  {
    if rows != [] {
      RowsNone(rows[..|rows| - 1], instrument, before);
    }
  }

  /** Every payout on the ledger is filed by the given period's month, for an earlier period or none,
      and an entry id of the distribution run is on nothing but its own declaration. */
  ghost predicate Quiet(ledger: Ledger, instrument: string, p: Period) {
    && (forall m, r :: r in Partition(ledger, m) && Pays(r, instrument) ==>
          m <= p.month && (PeriodOf(r).Some? ==> Before(PeriodOf(r).value, p)))
    && (forall m, r, q :: r in Partition(ledger, m) && r.entryId == Dist(instrument, q) ==>
          Pays(r, instrument) && PeriodOf(r) == Some(q))
  }

  lemma {:induction false} FoldSame(ledger: Ledger, instrument: string, from: int, upto: int, p: Period, q: Period)
    requires Quiet(ledger, instrument, p) && (p == q || Before(p, q)) && upto <= p.month
    ensures PaidTo(ledger, instrument, from, upto, p) == PaidTo(ledger, instrument, from, upto, q)
    decreases upto - from + 1
  {
    if upto >= from {
      FoldSame(ledger, instrument, from, upto - 1, p, q);
      var rows := Partition(ledger, upto);
      forall i | 0 <= i < |rows| ensures CountsFor(rows[i], instrument, p) == CountsFor(rows[i], instrument, q) {
        assert rows[i] in rows;
      }
      RowsSame(rows, instrument, p, q);
    }
  }

  lemma {:induction false} FoldPast(ledger: Ledger, instrument: string, from: int, upto: int, p: Period, q: Period)
    requires Quiet(ledger, instrument, p) && upto >= p.month
    ensures PaidTo(ledger, instrument, from, upto, q) == PaidTo(ledger, instrument, from, p.month, q)
    decreases upto - p.month
  {
    if upto > p.month && upto >= from {
      FoldPast(ledger, instrument, from, upto - 1, p, q);
      var rows := Partition(ledger, upto);
      forall i | 0 <= i < |rows| ensures !Pays(rows[i], instrument) {
        assert rows[i] in rows;
      }
      RowsNone(rows, instrument, q);
    }
  }

  /** On a quiet ledger what was paid before a period is all that was ever paid. */
  lemma PaidStays(ledger: Ledger, instrument: string, inception: int, p: Period, q: Period)
    requires Quiet(ledger, instrument, p) && (p == q || Before(p, q))
    ensures Paid(ledger, instrument, inception, p) == Paid(ledger, instrument, inception, q)
  {
    FoldSame(ledger, instrument, inception, p.month, p, q);
    FoldPast(ledger, instrument, inception, q.month, p, q);
  }

  lemma PaidToStep(ledger: Ledger, instrument: string, from: int, upto: int, q: Period)
    requires from <= upto
    ensures PaidTo(ledger, instrument, from, upto, q)
            == PaidTo(ledger, instrument, from, upto - 1, q) + Rows(Partition(ledger, upto), instrument, q)
  {
  }

  lemma RowsNext(rows: seq<Row>, row: Row, instrument: string, q: Period)
    ensures Rows(rows + [row], instrument, q)
            == Rows(rows, instrument, q) + (if CountsFor(row, instrument, q) then row.amount else 0.0)
  {
    Cut(rows, [row]);
  }

  lemma {:induction false} FoldPosted(ledger: Ledger, instrument: string, from: int, upto: int, q: Period, month: int,
                                      row: Row)
    ensures PaidTo(ledger[month := Partition(ledger, month) + [row]], instrument, from, upto, q)
            == PaidTo(ledger, instrument, from, upto, q)
               + (if from <= month <= upto && CountsFor(row, instrument, q) then row.amount else 0.0)
    decreases upto - from + 1
  {
    if upto >= from {
      var after := ledger[month := Partition(ledger, month) + [row]];
      FoldPosted(ledger, instrument, from, upto - 1, q, month, row);
      PaidToStep(ledger, instrument, from, upto, q);
      PaidToStep(after, instrument, from, upto, q);
      if upto == month {
        RowsNext(Partition(ledger, month), row, instrument, q);
      } else {
        assert Partition(after, upto) == Partition(ledger, upto);
      }
    }
  }

  /** A declaration counts toward the periods after it and toward no other. */
  lemma DeclarationCounts(instrument: string, holder: string, p: Period, amount: real, q: Period)
    ensures var row := Declaration(instrument, holder, p, amount);
            CountsFor(row, instrument, q) <==> Before(p, q)
  {
    DeclarationSpec(instrument, holder, p, amount);
  }

  lemma FreshEntry(ledger: Ledger, instrument: string, p: Period)
    requires Quiet(ledger, instrument, p)
    ensures forall r :: r in Partition(ledger, p.month) ==> r.entryId != Dist(instrument, p)
  {
    forall r | r in Partition(ledger, p.month) ensures r.entryId != Dist(instrument, p) {
      assert r.entryId == Dist(instrument, p) ==> PeriodOf(r) == Some(p);
    }
  }

  lemma PostStaysQuiet(ledger: Ledger, instrument: string, holder: string, p: Period, amount: real, q: Period)
    requires Quiet(ledger, instrument, p) && Before(p, q)
    ensures Quiet(ledger[p.month := Partition(ledger, p.month) + [Declaration(instrument, holder, p, amount)]],
                  instrument, q)
  {
    var row := Declaration(instrument, holder, p, amount);
    var after := ledger[p.month := Partition(ledger, p.month) + [row]];
    DeclarationSpec(instrument, holder, p, amount);
    assert forall m, r :: r in Partition(after, m) ==> r in Partition(ledger, m) || (m == p.month && r == row);
  }

  lemma QuietLater(ledger: Ledger, instrument: string, p: Period, q: Period)
    requires Quiet(ledger, instrument, p) && (p == q || Before(p, q))
    ensures Quiet(ledger, instrument, q)
  {
  }

  /** A close on a quiet ledger adds what the rule pays to everything later, and to nothing else. */
  lemma CloseSpec(ledger: Ledger, instrument: string, holder: string, insts: seq<Terms>, inception: int,
                  c: PeriodClose, next: Period)
    requires Quiet(ledger, instrument, c.period) && Before(c.period, next) && inception <= c.period.month
    ensures var after := Close(ledger, instrument, holder, insts, inception, c.period, c.netIncome);
            var paid := Paid(ledger, instrument, inception, c.period);
            Quiet(after, instrument, next)
            && Paid(after, instrument, inception, next) == paid + Due(insts, c.netIncome, paid)
  {
    var p := c.period;
    var due := Due(insts, c.netIncome, Paid(ledger, instrument, inception, p));
    CloseIs(ledger, instrument, holder, insts, inception, p, c.netIncome);
    PaidStays(ledger, instrument, inception, p, next);
    if due == 0.0 {
      QuietLater(ledger, instrument, p, next);
    } else {
      FreshEntry(ledger, instrument, p);
      PostStaysQuiet(ledger, instrument, holder, p, due, next);
      FoldPosted(ledger, instrument, inception, next.month, next, p.month, Declaration(instrument, holder, p, due));
      DeclarationCounts(instrument, holder, p, due, next);
    }
  }

  // ----- in-order runs -----

  ghost predicate InOrder(start: Period, closes: seq<PeriodClose>, next: Period) {
    && (forall i :: 0 <= i < |closes| ==> closes[i].period == start || Before(start, closes[i].period))
    && (forall i, j :: 0 <= i < j < |closes| ==> Before(closes[i].period, closes[j].period))
    && (forall i :: 0 <= i < |closes| ==> Before(closes[i].period, next))
    && (start == next || Before(start, next))
  }

  /** The shares of the profitable periods, before any cap. */
  function Shares(terms: Terms, closes: seq<PeriodClose>): real {
    if closes == [] then 0.0 else
      var last := |closes| - 1;
      Shares(terms, closes[..last]) + Rules.Greatest(0.0, Rules.Mul(closes[last].netIncome, terms.factor))
  }

  /** What has been paid when `owed` was due and the terms may cap it. */
  function Capped(terms: Terms, owed: real): real {
    match terms.cap case None => owed case Some(cap) => Rules.Least(cap, owed)
  }

  /** One close takes what is paid from the capped total before it to the capped total after it. */
  lemma CappedStep(netIncome: real, terms: Terms, owed: real)
    ensures var paid := Capped(terms, owed);
            paid + Payout(netIncome, terms, paid)
            == Capped(terms, owed + Rules.Greatest(0.0, Rules.Mul(netIncome, terms.factor)))
  {
    ShareSpec(netIncome, terms, Capped(terms, owed));
  }

  /** Nothing is posted for `next` or later, and what was paid is the capped amount owed. */
  ghost predicate Stands(ledger: Ledger, instrument: string, inception: int, next: Period, terms: Terms, owed: real) {
    Quiet(ledger, instrument, next) && Paid(ledger, instrument, inception, next) == Capped(terms, owed)
  }

  lemma CloseCaps(ledger: Ledger, instrument: string, holder: string, terms: Terms, inception: int,
                  c: PeriodClose, owed: real, next: Period)
    requires Stands(ledger, instrument, inception, c.period, terms, owed)
    requires Before(c.period, next) && inception <= c.period.month
    ensures Stands(Close(ledger, instrument, holder, [terms], inception, c.period, c.netIncome), instrument, inception,
                   next, terms, owed + Rules.Greatest(0.0, Rules.Mul(c.netIncome, terms.factor)))
  {
    CloseSpec(ledger, instrument, holder, [terms], inception, c, next);
    DueOfOne(terms, c.netIncome, Paid(ledger, instrument, inception, c.period));
    CappedStep(c.netIncome, terms, owed);
  }

  lemma InOrderFront(start: Period, closes: seq<PeriodClose>, next: Period)
    requires InOrder(start, closes, next) && closes != []
    ensures InOrder(start, closes[..|closes| - 1], closes[|closes| - 1].period)
    ensures Before(closes[|closes| - 1].period, next) && start.month <= closes[|closes| - 1].period.month
  {
  }

  /** Over any in-order run of period closes an instrument with one instance has paid its shares up to the
      cap: it never passes the cap, lands exactly on it when the shares do, and pays nothing after. */
  lemma {:induction false} RunPays(ledger: Ledger, instrument: string, holder: string, terms: Terms, inception: int,
                                   start: Period, closes: seq<PeriodClose>, next: Period)
    requires Quiet(ledger, instrument, start) && inception <= start.month && InOrder(start, closes, next)
    requires terms.cap.Some? ==> Paid(ledger, instrument, inception, start) <= terms.cap.value
    ensures Stands(Run(ledger, instrument, holder, [terms], inception, closes), instrument, inception, next,
                   terms, Paid(ledger, instrument, inception, start) + Shares(terms, closes))
    decreases |closes|
  {
    if closes == [] {
      PaidStays(ledger, instrument, inception, start, next);
      QuietLater(ledger, instrument, start, next);
    } else {
      var last := closes[|closes| - 1];
      var front := closes[..|closes| - 1];
      InOrderFront(start, closes, next);
      RunPays(ledger, instrument, holder, terms, inception, start, front, last.period);
      var owed := Paid(ledger, instrument, inception, start) + Shares(terms, front);
      CloseCaps(Run(ledger, instrument, holder, [terms], inception, front), instrument, holder, terms, inception, last,
                owed, next);
    }
  }

  // ----- recomputing a posted period -----

  /** A close of the same period or a later one does not change what an earlier fold reads. */
  lemma CloseKeepsPaid(ledger: Ledger, instrument: string, holder: string, insts: seq<Terms>, inception: int,
                       c: PeriodClose, q: Period)
    requires !Before(c.period, q)
    ensures Paid(Close(ledger, instrument, holder, insts, inception, c.period, c.netIncome), instrument, inception, q)
            == Paid(ledger, instrument, inception, q)
  {
    var due := Due(insts, c.netIncome, Paid(ledger, instrument, inception, c.period));
    CloseIs(ledger, instrument, holder, insts, inception, c.period, c.netIncome);
    if due != 0.0 {
      FoldPosted(ledger, instrument, inception, q.month, q, c.period.month,
                 Declaration(instrument, holder, c.period, due));
      DeclarationCounts(instrument, holder, c.period, due, q);
    }
  }

  lemma {:induction false} RunKeepsPaid(ledger: Ledger, instrument: string, holder: string, insts: seq<Terms>,
                                        inception: int, closes: seq<PeriodClose>, q: Period)
    requires forall i :: 0 <= i < |closes| ==> !Before(closes[i].period, q)
    ensures Paid(Run(ledger, instrument, holder, insts, inception, closes), instrument, inception, q)
            == Paid(ledger, instrument, inception, q)
  {
    if closes != [] {
      var front := closes[..|closes| - 1];
      RunKeepsPaid(ledger, instrument, holder, insts, inception, front, q);
      CloseKeepsPaid(Run(ledger, instrument, holder, insts, inception, front), instrument, holder, insts, inception,
                     closes[|closes| - 1], q);
    }
  }

  ghost predicate HasEntry(ledger: Ledger, month: int, id: EntryId) {
    exists r :: r in Partition(ledger, month) && r.entryId == id
  }

  lemma CloseKeepsEntry(ledger: Ledger, instrument: string, holder: string, insts: seq<Terms>, inception: int,
                        c: PeriodClose, month: int, id: EntryId)
    requires HasEntry(ledger, month, id)
    ensures HasEntry(Close(ledger, instrument, holder, insts, inception, c.period, c.netIncome), month, id)
  {
  }

  lemma {:induction false} RunKeepsEntry(ledger: Ledger, instrument: string, holder: string, insts: seq<Terms>,
                                         inception: int, closes: seq<PeriodClose>, month: int, id: EntryId)
    requires HasEntry(ledger, month, id)
    ensures HasEntry(Run(ledger, instrument, holder, insts, inception, closes), month, id)
  {
    if closes != [] {
      var front := closes[..|closes| - 1];
      RunKeepsEntry(ledger, instrument, holder, insts, inception, front, month, id);
      CloseKeepsEntry(Run(ledger, instrument, holder, insts, inception, front), instrument, holder, insts, inception,
                      closes[|closes| - 1], month, id);
    }
  }

  lemma PostedIsThere(ledger: Ledger, month: int, row: Row)
    ensures HasEntry(Post(ledger, month, row), month, row.entryId)
  {
    var p := Partition(ledger, month);
    assert (p + [row])[|p|] == row;
    assert row in p + [row];
  }

  /** Firing a period again, after any number of later closes, computes the same amount and leaves the
      ledger as it is: the fold takes only strictly earlier periods and the entry is already there. */
  lemma {:induction false} RefireChangesNothing(ledger: Ledger, instrument: string, holder: string, insts: seq<Terms>,
                                                inception: int, c: PeriodClose, later: seq<PeriodClose>)
    requires forall i :: 0 <= i < |later| ==> !Before(later[i].period, c.period)
    ensures var closed := Close(ledger, instrument, holder, insts, inception, c.period, c.netIncome);
            var after := Run(closed, instrument, holder, insts, inception, later);
            Paid(after, instrument, inception, c.period) == Paid(ledger, instrument, inception, c.period)
            && Close(after, instrument, holder, insts, inception, c.period, c.netIncome) == after
  {
    var closed := Close(ledger, instrument, holder, insts, inception, c.period, c.netIncome);
    var after := Run(closed, instrument, holder, insts, inception, later);
    CloseKeepsPaid(ledger, instrument, holder, insts, inception, c, c.period);
    RunKeepsPaid(closed, instrument, holder, insts, inception, later, c.period);
    var due := Due(insts, c.netIncome, Paid(ledger, instrument, inception, c.period));
    CloseIs(ledger, instrument, holder, insts, inception, c.period, c.netIncome);
    CloseIs(after, instrument, holder, insts, inception, c.period, c.netIncome);
    if due != 0.0 {
      PostedIsThere(ledger, c.period.month, Declaration(instrument, holder, c.period, due));
      RunKeepsEntry(closed, instrument, holder, insts, inception, later, c.period.month, Dist(instrument, c.period));
    }
  }

  // ----- one close against the cap -----

  lemma BigIncome(factor: real, target: real) returns (netIncome: real)
    requires factor > 0.0
    ensures Rules.Mul(netIncome, factor) >= target
  {
    netIncome := (target + 1.0) / factor;
    assert netIncome * factor == target + 1.0;
    CentsNear(netIncome * factor);
  }

  /** A payout figured on `paid` keeps a larger total within the cap for every income only if the two are
      the same. */
  lemma PayoutIff(terms: Terms, total: real, paid: real)
    requires terms.factor > 0.0 && terms.cap.Some? && paid <= total <= terms.cap.value
    ensures (forall income :: total + Payout(income, terms, paid) <= terms.cap.value) <==> total == paid
  {
    var cap := terms.cap.value;
    if total == paid {
      forall income ensures total + Payout(income, terms, paid) <= cap {
        ShareSpec(income, terms, paid);
      }
    } else {
      var income := BigIncome(terms.factor, cap - paid);
      ShareSpec(income, terms, paid);
      assert total + Payout(income, terms, paid) > cap;
    }
  }

  /** Every payout on the ledger is a payment: accounting takes no leg that is not positive. */
  ghost predicate OnlyPayments(ledger: Ledger, instrument: string) {
    forall m, r :: r in Partition(ledger, m) && Pays(r, instrument) ==> r.amount >= 0.0
  }

  lemma {:induction false} RowsGrow(rows: seq<Row>, instrument: string, p: Period, q: Period)
    requires Before(p, q) && forall i :: 0 <= i < |rows| && Pays(rows[i], instrument) ==> rows[i].amount >= 0.0
    ensures 0.0 <= Rows(rows, instrument, p) <= Rows(rows, instrument, q)
  {
    if rows != [] {
      RowsGrow(rows[..|rows| - 1], instrument, p, q);
    }
  }

  lemma {:induction false} FoldGrows(ledger: Ledger, instrument: string, from: int, upto: int, p: Period, q: Period)
    requires Before(p, q) && OnlyPayments(ledger, instrument)
    ensures 0.0 <= PaidTo(ledger, instrument, from, upto, p) <= PaidTo(ledger, instrument, from, upto, q)
    decreases upto - from + 1
  {
    if upto >= from {
      FoldGrows(ledger, instrument, from, upto - 1, p, q);
      var rows := Partition(ledger, upto);
      assert forall i :: 0 <= i < |rows| ==> rows[i] in rows;
      RowsGrow(rows, instrument, p, q);
    }
  }

  lemma {:induction false} FoldExtends(ledger: Ledger, instrument: string, from: int, upto: int, further: int,
                                       p: Period, q: Period)
    requires Before(p, q) && OnlyPayments(ledger, instrument) && upto <= further
    ensures PaidTo(ledger, instrument, from, upto, q) <= PaidTo(ledger, instrument, from, further, q)
    decreases further - upto
  {
    if upto < further {
      FoldExtends(ledger, instrument, from, upto, further - 1, p, q);
      if further >= from {
        var rows := Partition(ledger, further);
        assert forall i :: 0 <= i < |rows| ==> rows[i] in rows;
        RowsGrow(rows, instrument, p, q);
      }
    }
  }

  lemma PaidGrows(ledger: Ledger, instrument: string, inception: int, p: Period, q: Period)
    requires Before(p, q) && OnlyPayments(ledger, instrument)
    ensures Paid(ledger, instrument, inception, p) <= Paid(ledger, instrument, inception, q)
  {
    FoldGrows(ledger, instrument, inception, p.month, p, q);
    FoldExtends(ledger, instrument, inception, p.month, q.month, p, q);
  }

  /** Closing a period that is not posted yet keeps the lifetime total within the cap, whatever the period
      earned, exactly when its fold reads everything paid so far. */
  lemma CapIff(ledger: Ledger, instrument: string, holder: string, terms: Terms, inception: int, p: Period,
               next: Period)
    requires OnlyPayments(ledger, instrument) && !HasEntry(ledger, p.month, Dist(instrument, p))
    requires Before(p, next) && inception <= p.month
    requires terms.factor > 0.0 && terms.cap.Some? && Paid(ledger, instrument, inception, next) <= terms.cap.value
    ensures (forall income ::
               Paid(Close(ledger, instrument, holder, [terms], inception, p, income), instrument, inception, next)
               <= terms.cap.value)
            <==> Paid(ledger, instrument, inception, next) == Paid(ledger, instrument, inception, p)
  {
    var total, paid := Paid(ledger, instrument, inception, next), Paid(ledger, instrument, inception, p);
    PaidGrows(ledger, instrument, inception, p, next);
    PayoutIff(terms, total, paid);
    forall income
      ensures Paid(Close(ledger, instrument, holder, [terms], inception, p, income), instrument, inception, next)
           == total + Payout(income, terms, paid)
    {
      LateAdds(ledger, instrument, holder, [terms], inception, PeriodClose(p, income), next);
      DueOfOne(terms, income, paid);
    }
  }

  /** A close whose entry is new adds its amount to every later fold. */
  lemma LateAdds(ledger: Ledger, instrument: string, holder: string, insts: seq<Terms>, inception: int, c: PeriodClose,
                 next: Period)
    requires !HasEntry(ledger, c.period.month, Dist(instrument, c.period))
    requires Before(c.period, next) && inception <= c.period.month
    ensures Paid(Close(ledger, instrument, holder, insts, inception, c.period, c.netIncome), instrument, inception,
                 next)
            == Paid(ledger, instrument, inception, next)
               + Due(insts, c.netIncome, Paid(ledger, instrument, inception, c.period))
  {
    var due := Due(insts, c.netIncome, Paid(ledger, instrument, inception, c.period));
    CloseIs(ledger, instrument, holder, insts, inception, c.period, c.netIncome);
    if due != 0.0 {
      FoldPosted(ledger, instrument, inception, next.month, next, c.period.month,
                 Declaration(instrument, holder, c.period, due));
      DeclarationCounts(instrument, holder, c.period, due, next);
    }
  }

  /** Instances matched to one instrument do not see each other: with a cap they share, and anything left
      under it, a close is safe for every income exactly when there is at most one. */
  lemma StackIff(insts: seq<Terms>, cap: real, paid: real)
    requires paid < cap && forall k :: 0 <= k < |insts| ==> insts[k].factor > 0.0 && insts[k].cap == Some(cap)
    ensures (forall income :: paid + Due(insts, income, paid) <= cap) <==> |insts| <= 1
  {
    if |insts| == 1 {
      assert insts == [insts[0]];
      forall income ensures paid + Due(insts, income, paid) <= cap {
        DueOfOne(insts[0], income, paid);
        ShareSpec(income, insts[0], paid);
      }
    } else if |insts| >= 2 {
      var income := IncomeForAll(insts, cap - paid);
      AllReach(insts, cap, income, paid);
      TwiceAtLeast(cap - paid, |insts|);
      assert paid + Due(insts, income, paid) > cap;
    }
  }

  function Copies(x: real, n: nat): real {
    if n == 0 then 0.0 else Copies(x, n - 1) + x
  }

  lemma {:induction false} TwiceAtLeast(x: real, n: nat)
    requires x > 0.0 && n >= 2
    ensures Copies(x, n) >= 2.0 * x
  {
    if n == 2 {
      assert Copies(x, 1) == Copies(x, 0) + x;
    } else {
      TwiceAtLeast(x, n - 1);
    }
  }

  /** An income large enough for every share to reach the remainder. */
  lemma {:induction false} IncomeForAll(insts: seq<Terms>, target: real) returns (income: real)
    requires forall k :: 0 <= k < |insts| ==> insts[k].factor > 0.0
    ensures forall k :: 0 <= k < |insts| ==> Rules.Mul(income, insts[k].factor) >= target
  {
    income := 0.0;
    if insts != [] {
      var n := |insts| - 1;
      var a := IncomeForAll(insts[..n], target);
      var b := BigIncome(insts[n].factor, target);
      income := Rules.Greatest(a, b);
      forall k | 0 <= k < |insts| ensures Rules.Mul(income, insts[k].factor) >= target {
        Rules.MulMonotone(if k < n then a else b, income, insts[k].factor);
        assert k < n ==> insts[..n][k] == insts[k];
      }
    }
  }

  lemma {:induction false} AllReach(insts: seq<Terms>, cap: real, income: real, paid: real)
    requires paid < cap
    requires forall k :: 0 <= k < |insts| ==>
               insts[k].cap == Some(cap) && Rules.Mul(income, insts[k].factor) >= cap - paid
    ensures Due(insts, income, paid) == Copies(cap - paid, |insts|)
  {
    if insts != [] {
      AllReach(insts[..|insts| - 1], cap, income, paid);
      ShareSpec(income, insts[|insts| - 1], paid);
    }
  }

  // ----- the order of the periods -----

  /** Two periods closed in the wrong order each pay against the same lifetime total; when both shares
      reach the remainder, the run has paid it twice. */
  lemma OutOfOrder(ledger: Ledger, instrument: string, holder: string, terms: Terms, inception: int,
                   early: PeriodClose, late: PeriodClose, next: Period)
    requires Quiet(ledger, instrument, early.period) && inception <= early.period.month
    requires Before(early.period, late.period) && Before(late.period, next)
    ensures var paid := Paid(ledger, instrument, inception, early.period);
            var total := Paid(Run(ledger, instrument, holder, [terms], inception, [late, early]), instrument, inception,
                              next);
            && total == paid + Payout(early.netIncome, terms, paid) + Payout(late.netIncome, terms, paid)
            && (terms.cap.Some? && paid < terms.cap.value
                && Rules.Mul(early.netIncome, terms.factor) >= terms.cap.value - paid
                && Rules.Mul(late.netIncome, terms.factor) >= terms.cap.value - paid
                ==> total == terms.cap.value + (terms.cap.value - paid))
  {
    var paid := Paid(ledger, instrument, inception, early.period);
    TwoCloses(ledger, instrument, holder, [terms], inception, early, late, next);
    DueOfOne(terms, late.netIncome, paid);
    DueOfOne(terms, early.netIncome, paid);
    ShareSpec(early.netIncome, terms, paid);
    ShareSpec(late.netIncome, terms, paid);
  }

  lemma TwoCloses(ledger: Ledger, instrument: string, holder: string, insts: seq<Terms>, inception: int,
                  early: PeriodClose, late: PeriodClose, next: Period)
    requires Quiet(ledger, instrument, early.period) && inception <= early.period.month
    requires Before(early.period, late.period) && Before(late.period, next)
    ensures var paid := Paid(ledger, instrument, inception, early.period);
            Paid(Run(ledger, instrument, holder, insts, inception, [late, early]), instrument, inception, next)
            == paid + Due(insts, early.netIncome, paid) + Due(insts, late.netIncome, paid)
  {
    var first := Close(ledger, instrument, holder, insts, inception, late.period, late.netIncome);
    QuietLater(ledger, instrument, early.period, late.period);
    PaidStays(ledger, instrument, inception, early.period, late.period);
    CloseSpec(ledger, instrument, holder, insts, inception, late, next);
    CloseKeepsPaid(ledger, instrument, holder, insts, inception, late, early.period);
    FreshAfter(ledger, instrument, holder, insts, inception, early, late);
    LateAdds(first, instrument, holder, insts, inception, early, next);
    RunTwo(ledger, instrument, holder, insts, inception, late, early);
  }

  lemma RunTwo(ledger: Ledger, instrument: string, holder: string, insts: seq<Terms>, inception: int, c: PeriodClose,
               d: PeriodClose)
    ensures Run(ledger, instrument, holder, insts, inception, [c, d])
            == Close(Close(ledger, instrument, holder, insts, inception, c.period, c.netIncome), instrument, holder,
                     insts, inception, d.period, d.netIncome)
  {
    assert [c, d][..1] == [c] && [c][..0] == [];
    assert Run(ledger, instrument, holder, insts, inception, [c])
        == Close(ledger, instrument, holder, insts, inception, c.period, c.netIncome);
  }

  lemma FreshAfter(ledger: Ledger, instrument: string, holder: string, insts: seq<Terms>, inception: int,
                   early: PeriodClose, late: PeriodClose)
    requires Quiet(ledger, instrument, early.period) && Before(early.period, late.period)
    ensures var first := Close(ledger, instrument, holder, insts, inception, late.period, late.netIncome);
            !HasEntry(first, early.period.month, Dist(instrument, early.period))
  {
    FreshEntry(ledger, instrument, early.period);
  }

  function Closes(ps: seq<Period>, incomes: seq<real>): seq<PeriodClose>
    requires |ps| == |incomes|
  {
    seq(|ps|, i requires 0 <= i < |ps| => PeriodClose(ps[i], incomes[i]))
  }

  /** A period that earned nothing is closed without an entry. */
  lemma NothingEarned(ledger: Ledger, instrument: string, holder: string, terms: Terms, inception: int, p: Period)
    ensures Close(ledger, instrument, holder, [terms], inception, p, 0.0) == ledger
  {
    var paid := Paid(ledger, instrument, inception, p);
    CloseIs(ledger, instrument, holder, [terms], inception, p, 0.0);
    DueOfOne(terms, 0.0, paid);
    ShareSpec(0.0, terms, paid);
    assert 0.0 * terms.factor == 0.0;
    CentsZero();
  }

  lemma RunNext(ledger: Ledger, instrument: string, holder: string, insts: seq<Terms>, inception: int,
                closes: seq<PeriodClose>, c: PeriodClose)
    ensures Run(ledger, instrument, holder, insts, inception, closes + [c])
            == Close(Run(ledger, instrument, holder, insts, inception, closes), instrument, holder, insts, inception,
                     c.period, c.netIncome)
  {
    Cut(closes, [c]);
  }

  /** The closes i and j among the first n. */
  function Earners(closes: seq<PeriodClose>, i: nat, j: nat, n: nat): seq<PeriodClose>
    requires i < j < |closes|
  {
    if n <= i then [] else if n <= j then [closes[i]] else [closes[i]] + [closes[j]]
  }

  lemma EarnersNext(closes: seq<PeriodClose>, i: nat, j: nat, n: nat)
    requires i < j < |closes| && n < |closes|
    ensures Earners(closes, i, j, n + 1)
            == if n == i || n == j then Earners(closes, i, j, n) + [closes[n]] else Earners(closes, i, j, n)
  {
    Nothing([closes[n]]);
  }

  ghost predicate SameRun(ledger: Ledger, instrument: string, holder: string, insts: seq<Terms>, inception: int,
                          a: seq<PeriodClose>, b: seq<PeriodClose>) {
    Run(ledger, instrument, holder, insts, inception, a) == Run(ledger, instrument, holder, insts, inception, b)
  }

  lemma BothNext(ledger: Ledger, instrument: string, holder: string, insts: seq<Terms>, inception: int,
                 a: seq<PeriodClose>, b: seq<PeriodClose>, c: PeriodClose)
    requires SameRun(ledger, instrument, holder, insts, inception, a, b)
    ensures SameRun(ledger, instrument, holder, insts, inception, a + [c], b + [c])
  {
    RunNext(ledger, instrument, holder, insts, inception, a, c);
    RunNext(ledger, instrument, holder, insts, inception, b, c);
  }

  lemma IdleNext(ledger: Ledger, instrument: string, holder: string, terms: Terms, inception: int,
                 a: seq<PeriodClose>, b: seq<PeriodClose>, c: PeriodClose)
    requires SameRun(ledger, instrument, holder, [terms], inception, a, b) && c.netIncome == 0.0
    ensures SameRun(ledger, instrument, holder, [terms], inception, a + [c], b)
  {
    RunNext(ledger, instrument, holder, [terms], inception, a, c);
    NothingEarned(Run(ledger, instrument, holder, [terms], inception, a), instrument, holder, terms, inception,
                  c.period);
  }

  /** The closes that earned anything. */
  function Earning(closes: seq<PeriodClose>): seq<PeriodClose> {
    if closes == [] then [] else
      var last := closes[|closes| - 1];
      Earning(closes[..|closes| - 1]) + (if last.netIncome == 0.0 then [] else [last])
  }

  lemma EarningNext(closes: seq<PeriodClose>, c: PeriodClose)
    ensures Earning(closes + [c]) == if c.netIncome == 0.0 then Earning(closes) else Earning(closes) + [c]
  {
    Cut(closes, [c]);
    Nothing(Earning(closes));
  }

  /** The others leave no trace on a run. */
  lemma {:induction false} IdleClosesVanish(ledger: Ledger, instrument: string, holder: string, terms: Terms,
                                            inception: int, closes: seq<PeriodClose>)
    ensures SameRun(ledger, instrument, holder, [terms], inception, closes, Earning(closes))
    decreases |closes|
  {
    if closes != [] {
      var front, last := closes[..|closes| - 1], closes[|closes| - 1];
      IdleClosesVanish(ledger, instrument, holder, terms, inception, front);
      assert closes == front + [last];
      Nothing(Earning(front));
      if last.netIncome == 0.0 {
        IdleNext(ledger, instrument, holder, terms, inception, front, Earning(front), last);
      } else {
        BothNext(ledger, instrument, holder, [terms], inception, front, Earning(front), last);
      }
    }
  }

  lemma {:induction false} TwoEarn(closes: seq<PeriodClose>, i: nat, j: nat, n: nat)
    requires i < j < |closes| && n <= |closes|
    requires forall k :: 0 <= k < |closes| ==> (closes[k].netIncome != 0.0 <==> k == i || k == j)
    ensures Earning(closes[..n]) == Earners(closes, i, j, n)
    decreases n
  {
    if n > 0 {
      TwoEarn(closes, i, j, n - 1);
      PrefixStep(closes, n - 1);
      EarnersNext(closes, i, j, n - 1);
      EarningNext(closes[..n - 1], closes[n - 1]);
    }
  }

  /** The periods are those of closes that may come in any order, between start and next. */
  ghost predicate Between(start: Period, ps: seq<Period>, next: Period) {
    && (start == next || Before(start, next))
    && (forall i :: 0 <= i < |ps| ==> (ps[i] == start || Before(start, ps[i])) && Before(ps[i], next))
    && (forall i, j :: 0 <= i < j < |ps| ==> ps[i] != ps[j])
  }

  ghost predicate Ascending(ps: seq<Period>) {
    forall i, j :: 0 <= i < j < |ps| ==> Before(ps[i], ps[j])
  }

  /** The incomes that break the cap of a run whose period j is earlier than its period i. */
  lemma BreaksCap(ledger: Ledger, instrument: string, holder: string, terms: Terms, inception: int, start: Period,
                  ps: seq<Period>, next: Period, i: nat, j: nat) returns (incomes: seq<real>)
    requires Quiet(ledger, instrument, start) && inception <= start.month && Between(start, ps, next)
    requires terms.factor > 0.0 && terms.cap.Some? && Paid(ledger, instrument, inception, start) < terms.cap.value
    requires i < j < |ps| && Before(ps[j], ps[i])
    ensures |incomes| == |ps|
    ensures !WithinCap(ledger, instrument, holder, terms, inception, Closes(ps, incomes), next)
  {
    var big := BigIncome(terms.factor, terms.cap.value - Paid(ledger, instrument, inception, start));
    incomes := seq(|ps|, k => if k == i || k == j then big else 0.0);
    var closes := Closes(ps, incomes);
    Rules.NoIncome(big, terms.factor);
    TwoEarn(closes, i, j, |ps|);
    WholePrefix(closes);
    IdleClosesVanish(ledger, instrument, holder, terms, inception, closes);
    TwoBreakCap(ledger, instrument, holder, terms, inception, start, closes[j], closes[i], next);
    SameRunWithin(ledger, instrument, holder, terms, inception, closes, [closes[i]] + [closes[j]], next);
  }

  lemma WholePrefix<T>(s: seq<T>)
    ensures s[..|s|] == s
  {
  }

  /** A run that leaves the lifetime total within the cap. */
  ghost predicate WithinCap(ledger: Ledger, instrument: string, holder: string, terms: Terms, inception: int,
                            closes: seq<PeriodClose>, next: Period)
  {
    terms.cap.Some? ==>
      Paid(Run(ledger, instrument, holder, [terms], inception, closes), instrument, inception, next) <= terms.cap.value
  }

  lemma SameRunWithin(ledger: Ledger, instrument: string, holder: string, terms: Terms, inception: int,
                      a: seq<PeriodClose>, b: seq<PeriodClose>, next: Period)
    requires SameRun(ledger, instrument, holder, [terms], inception, a, b)
    ensures WithinCap(ledger, instrument, holder, terms, inception, a, next)
            <==> WithinCap(ledger, instrument, holder, terms, inception, b, next)
  {
  }

  lemma TwoBreakCap(ledger: Ledger, instrument: string, holder: string, terms: Terms, inception: int, start: Period,
                    early: PeriodClose, late: PeriodClose, next: Period)
    requires Quiet(ledger, instrument, start) && inception <= start.month
    requires start == early.period || Before(start, early.period)
    requires Before(early.period, late.period) && Before(late.period, next)
    requires terms.cap.Some? && Paid(ledger, instrument, inception, start) < terms.cap.value
    requires early.netIncome == late.netIncome
    requires Rules.Mul(early.netIncome, terms.factor) >= terms.cap.value - Paid(ledger, instrument, inception, start)
    ensures !WithinCap(ledger, instrument, holder, terms, inception, [late] + [early], next)
  {
    QuietLater(ledger, instrument, start, early.period);
    PaidStays(ledger, instrument, inception, start, early.period);
    OutOfOrder(ledger, instrument, holder, terms, inception, early, late, next);
    assert [late] + [early] == [late, early];
  }

  /** The lifetime cap holds, whatever the periods earned, exactly when they are closed in order. */
  lemma OrderIff(ledger: Ledger, instrument: string, holder: string, terms: Terms, inception: int, start: Period,
                 ps: seq<Period>, next: Period)
    requires Quiet(ledger, instrument, start) && inception <= start.month && Between(start, ps, next)
    requires terms.factor > 0.0 && terms.cap.Some? && Paid(ledger, instrument, inception, start) < terms.cap.value
    ensures (forall incomes: seq<real> :: |incomes| == |ps| ==>
               WithinCap(ledger, instrument, holder, terms, inception, Closes(ps, incomes), next))
            <==> Ascending(ps)
  {
    if Ascending(ps) {
      forall incomes: seq<real> | |incomes| == |ps|
        ensures WithinCap(ledger, instrument, holder, terms, inception, Closes(ps, incomes), next)
      {
        RunPays(ledger, instrument, holder, terms, inception, start, Closes(ps, incomes), next);
      }
    } else {
      var i, j :| 0 <= i < j < |ps| && !Before(ps[i], ps[j]);
      assert Before(ps[j], ps[i]);
      var incomes := BreaksCap(ledger, instrument, holder, terms, inception, start, ps, next, i, j);
    }
  }
}
