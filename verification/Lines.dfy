/** An invoice's lines, modules/invoicing/lambdas/_helpers.py: slugs, range keys, line totals, and the
    assembly that checks and totals them. Money is whole cents. */
module Lines {
  import opened Common
  import opened Rounding
  import Strings

  // ----- slugs -----

  predicate SlugChar(c: char) {
    'a' <= c <= 'z' || '0' <= c <= '9' || c == '_' || c == '-'
  }

  function DropOther(s: string): (r: string)
    ensures |r| <= |s|
  {
    if s == [] || SlugChar(s[0]) then s else DropOther(s[1..])
  }

  /** Every run of other characters becomes one dash. */
  function Dashed(s: string): (r: string)
    ensures forall i :: 0 <= i < |r| ==> SlugChar(r[i])
    decreases |s|
  {
    if s == [] then [] else if SlugChar(s[0]) then [s[0]] + Dashed(s[1..]) else ['-'] + Dashed(DropOther(s[1..]))
  }

  function StripDashes(s: string): (r: string)
    ensures forall i :: 0 <= i < |r| ==> r[i] in s
    decreases |s|
  {
    if s == [] then []
    else if s[0] == '-' then StripDashes(s[1..])
    else if s[|s| - 1] == '-' then StripDashes(s[..|s| - 1])
    else s
  }

  /** _item_key(): never empty, and only slug characters. */
  function Slug(raw: string): (r: string)
    ensures r != [] && forall i :: 0 <= i < |r| ==> SlugChar(r[i])
  {
    var t := StripDashes(Dashed(Strings.Lower(if raw == "" then "misc" else raw)));
    if t == [] then "misc" else t
  }

  // ----- range keys -----

  function Printed(n: int): string {
    if n < 0 then ['-'] + Strings.Digits(-n) else Strings.Digits(n)
  }

  lemma PrintedInjective(m: int, n: int)
    requires Printed(m) == Printed(n)
    ensures m == n
  {
    assert Printed(m)[0] == '-' <==> m < 0;
    assert Printed(n)[0] == '-' <==> n < 0;
    if m < 0 {
      DropHead('-', Strings.Digits(-m));
      DropHead('-', Strings.Digits(-n));
      Strings.DigitsInjective(-m, -n);
    } else {
      Strings.DigitsInjective(m, n);
    }
  }

  function SkParts(key: string, start: int): seq<string> {
    ["item", key, "range", Printed(start)]
  }

  /** range_sk() on a slug: item#<key>#range#<start>. */
  function RangeSk(key: string, start: int): string {
    Strings.Join(SkParts(key, start), '#')
  }

  /** A range key splits back into its slug and its start, so no two ranges share one. */
  lemma RangeSkParses(key: string, start: int)
    requires '#' !in key
    ensures var parts := Strings.Split(RangeSk(key, start), '#');
            |parts| == 4 && parts[1] == key && parts[3] == Printed(start)
  {
    var parts := SkParts(key, start);
    assert '#' !in "item" && '#' !in "range";
    assert Strings.Free(parts, '#');
    Strings.SplitJoin(parts, '#');
  }

  lemma RangeSkIff(key: string, start: int, otherKey: string, otherStart: int)
    requires '#' !in key && '#' !in otherKey
    ensures RangeSk(key, start) == RangeSk(otherKey, otherStart) <==> key == otherKey && start == otherStart
  {
    RangeSkParses(key, start);
    RangeSkParses(otherKey, otherStart);
    if RangeSk(key, start) == RangeSk(otherKey, otherStart) {
      PrintedInjective(start, otherStart);
    }
  }

  // ----- lines -----

  /** A line; an absent text field is empty. */
  datatype Line = Line(catalogItem: string, description: string, quantity: Option<real>, unitPrice: Option<real>,
                       amount: Option<real>, account: string, accountType: Option<string>, unitCost: Option<real>,
                       ruleKey: string, parent: Option<string>, itemId: Option<string>, rangeStart: int, rangeEnd: int)

  function KeyOf(ln: Line): string {
    Slug(if ln.catalogItem != "" then ln.catalogItem else ln.description)
  }

  /** int(): toward zero. */
  function Truncate(x: real): int {
    if x >= 0.0 then x.Floor else -((-x).Floor)
  }

  /** int(quantity or 1). */
  function Qty(ln: Line): int {
    if ln.quantity.None? || ln.quantity.value == 0.0 then 1 else Truncate(ln.quantity.value)
  }

  /** money(), in cents. */
  function Money(x: real): int {
    HalfUp(x * 100.0)
  }

  /** An amount in whole cents is what money() leaves as it is. */
  lemma MoneyOfCents(cents: int)
    ensures Money(cents as real / 100.0) == cents
  {
    HalfUpWhole(cents);
  }

  function Charge(price: real, qty: int): int {
    Money(price * qty as real)
  }

  /** line_total(). */
  function LineTotal(ln: Line): int {
    if ln.unitPrice.Some? then Charge(ln.unitPrice.value, Qty(ln))
    else Money(if ln.amount.Some? then ln.amount.value else 0.0)
  }

  // ----- ranges -----

  /** What a line takes up: units of a key. */
  datatype Piece = Piece(key: string, qty: int)

  function PieceOf(ln: Line): (p: Piece)
    ensures '#' !in p.key
  {
    Piece(KeyOf(ln), Qty(ln))
  }

  function Pieces(lines: seq<Line>): (ps: seq<Piece>)
    ensures |ps| == |lines| && forall i :: 0 <= i < |lines| ==> ps[i] == PieceOf(lines[i])
  {
    seq(|lines|, i requires 0 <= i < |lines| => PieceOf(lines[i]))
  }

  /** Units of a key on the first n pieces. */
  function Taken(ps: seq<Piece>, key: string, n: nat): int
    requires n <= |ps|
  {
    if n == 0 then 0 else Taken(ps, key, n - 1) + (if ps[n - 1].key == key then ps[n - 1].qty else 0)
  }

  function Start(ps: seq<Piece>, i: nat): int
    requires i < |ps|
  {
    1 + Taken(ps, ps[i].key, i)
  }

  /** The unit u of the key lies in the range of piece i. */
  predicate InRange(ps: seq<Piece>, i: nat, key: string, u: int)
    requires i < |ps|
  {
    ps[i].key == key && Start(ps, i) <= u < Start(ps, i) + ps[i].qty
  }

  ghost predicate AtLeastOne(ps: seq<Piece>) {
    forall i :: 0 <= i < |ps| ==> ps[i].qty >= 1
  }

  lemma {:induction false} TakenGrows(ps: seq<Piece>, key: string, m: nat, n: nat)
    requires AtLeastOne(ps) && m <= n <= |ps|
    ensures 0 <= Taken(ps, key, m) <= Taken(ps, key, n)
    decreases n
  {
    if m < n {
      TakenGrows(ps, key, m, n - 1);
    } else if n > 0 {
      TakenGrows(ps, key, n - 1, n - 1);
    }
  }

  /** With quantities of at least one, the ranges of a key tile 1 to the units sold: every unit lies in
      the range of exactly one line, and no range reaches outside. */
  lemma RangesTile(ps: seq<Piece>, key: string, u: int)
    requires AtLeastOne(ps)
    ensures 1 <= u <= Taken(ps, key, |ps|) <==> exists i :: 0 <= i < |ps| && InRange(ps, i, key, u)
    ensures forall i, j :: 0 <= i < |ps| && 0 <= j < |ps| && InRange(ps, i, key, u) && InRange(ps, j, key, u) ==> i == j
  {
    if 1 <= u <= Taken(ps, key, |ps|) {
      var i := PieceAt(ps, key, u, |ps|);
    }
    forall i | 0 <= i < |ps| && InRange(ps, i, key, u) ensures 1 <= u <= Taken(ps, key, |ps|) {
      TakenGrows(ps, key, 0, i);
      TakenGrows(ps, key, i + 1, |ps|);
    }
    forall i, j | 0 <= i < j < |ps| && InRange(ps, i, key, u) ensures !InRange(ps, j, key, u) {
      TakenGrows(ps, key, i + 1, j);
    }
  }

  lemma {:induction false} PieceAt(ps: seq<Piece>, key: string, u: int, n: nat) returns (i: nat)
    requires n <= |ps| && 1 <= u <= Taken(ps, key, n)
    ensures i < |ps| && InRange(ps, i, key, u)
  {
    i := n - 1;
    if ps[i].key != key || u <= Taken(ps, key, n - 1) {
      i := PieceAt(ps, key, u, n - 1);
    }
  }

  function SkAt(ps: seq<Piece>, i: nat): string
    requires i < |ps|
  {
    RangeSk(ps[i].key, Start(ps, i))
  }

  /** The pieces from i up to j add no units to the key both carry. */
  predicate SameRange(ps: seq<Piece>, i: nat, j: nat)
    requires i < |ps| && j < |ps|
  {
    ps[i].key == ps[j].key && Taken(ps, ps[j].key, i) == Taken(ps, ps[j].key, j)
  }

  predicate Distinct(ps: seq<Piece>) {
    forall i, j :: 0 <= i < j < |ps| ==> SkAt(ps, i) != SkAt(ps, j)
  }

  /** Two range keys collide exactly when the quantities of their item between them sum to nothing;
      never with quantities of at least one. */
  lemma DistinctIff(ps: seq<Piece>)
    requires forall i :: 0 <= i < |ps| ==> '#' !in ps[i].key
    ensures Distinct(ps) <==> forall i, j :: 0 <= i < j < |ps| ==> !SameRange(ps, i, j)
    ensures AtLeastOne(ps) ==> Distinct(ps)
  {
    forall i, j | 0 <= i < j < |ps| ensures SkAt(ps, i) == SkAt(ps, j) <==> SameRange(ps, i, j) {
      RangeSkIff(ps[i].key, Start(ps, i), ps[j].key, Start(ps, j));
    }
    if AtLeastOne(ps) {
      forall i, j | 0 <= i < j < |ps| ensures !SameRange(ps, i, j) {
        TakenGrows(ps, ps[j].key, i + 1, j);
      }
    }
  }

  // ----- line_ranges -----

  function RangedLine(lines: seq<Line>, i: nat): Line
    requires i < |lines|
  {
    Placed(lines[i], Start(Pieces(lines), i), PieceOf(lines[i]).qty)
  }

  function Placed(ln: Line, start: int, qty: int): Line {
    ln.(quantity := Some(qty as real), rangeStart := start, rangeEnd := start + qty - 1)
  }

  /** The stored ranges of a key tile 1 to the units sold, when every quantity is at least one: each unit is
      between the start and end of exactly one of its lines. */
  lemma StoredRangesTile(lines: seq<Line>, key: string, u: int)
    requires AtLeastOne(Pieces(lines))
    ensures 1 <= u <= Taken(Pieces(lines), key, |lines|)
            <==> exists i :: 0 <= i < |lines| && StoredIn(lines, i, key, u)
    ensures forall i, j | 0 <= i < |lines| && 0 <= j < |lines| ::
              StoredIn(lines, i, key, u) && StoredIn(lines, j, key, u) ==> i == j
  {
    var ps := Pieces(lines);
    RangesTile(ps, key, u);
    forall i | 0 <= i < |lines| ensures StoredIn(lines, i, key, u) <==> InRange(ps, i, key, u) {
      StoredIs(lines, i, key, u);
    }
  }

  predicate StoredIn(lines: seq<Line>, i: nat, key: string, u: int)
    requires i < |lines|
  {
    KeyOf(lines[i]) == key && RangedLine(lines, i).rangeStart <= u <= RangedLine(lines, i).rangeEnd
  }

  lemma StoredIs(lines: seq<Line>, i: nat, key: string, u: int)
    requires i < |lines|
    ensures StoredIn(lines, i, key, u) <==> InRange(Pieces(lines), i, key, u)
  {
    assert Pieces(lines)[i] == PieceOf(lines[i]);
  }

  function Next(nxt: map<string, int>, key: string): int {
    if key in nxt then nxt[key] else 1
  }

  /** The running count has every key's next unit. */
  ghost predicate Counted(nxt: map<string, int>, ps: seq<Piece>, n: nat)
    requires n <= |ps|
  {
    forall key :: Next(nxt, key) == 1 + Taken(ps, key, n)
  }

  lemma CountNext(nxt: map<string, int>, ps: seq<Piece>, n: nat)
    requires n < |ps| && Counted(nxt, ps, n)
    ensures Next(nxt, ps[n].key) == Start(ps, n)
    ensures Counted(nxt[ps[n].key := Start(ps, n) + ps[n].qty], ps, n + 1)
  {
    var after := nxt[ps[n].key := Start(ps, n) + ps[n].qty];
    forall key ensures Next(after, key) == 1 + Taken(ps, key, n + 1) {
      assert Next(nxt, key) == 1 + Taken(ps, key, n);
    }
  }

  ghost predicate PlacedTo(after: seq<Line>, lines: seq<Line>, n: nat)
    requires |after| == |lines| && n <= |lines|
  {
    && (forall i :: 0 <= i < n ==> after[i] == RangedLine(lines, i))
    && (forall i :: n <= i < |lines| ==> after[i] == lines[i])
  }

  lemma PlaceNext(after: seq<Line>, lines: seq<Line>, n: nat)
    requires |after| == |lines| && n < |lines| && PlacedTo(after, lines, n)
    ensures PlacedTo(after[n := Placed(after[n], Start(Pieces(lines), n), PieceOf(lines[n]).qty)], lines, n + 1)
  {
  }

  ghost predicate KeysTo(out: seq<string>, ps: seq<Piece>, n: nat)
    requires n <= |ps|
  {
    |out| == n && forall i :: 0 <= i < n ==> out[i] == SkAt(ps, i)
  }

  lemma KeysNext(out: seq<string>, ps: seq<Piece>, n: nat)
    requires n < |ps| && KeysTo(out, ps, n)
    ensures KeysTo(out + [RangeSk(ps[n].key, Start(ps, n))], ps, n + 1)
  {
  }

  /** line_ranges(): each line, in place, gets the units of its key after those of the lines before. */
  method LineRanges(lines: array<Line>) returns (out: seq<string>)
    modifies lines
    ensures |out| == lines.Length
    ensures forall i :: 0 <= i < lines.Length ==> lines[i] == RangedLine(old(lines[..]), i)
    ensures forall i :: 0 <= i < lines.Length ==> out[i] == SkAt(Pieces(old(lines[..])), i)
  {
    ghost var was := lines[..];
    ghost var ps := Pieces(was);
    var nxt: map<string, int> := map[];
    out := [];
    for n := 0 to lines.Length
      invariant Counted(nxt, ps, n) && PlacedTo(lines[..], was, n)
      invariant KeysTo(out, ps, n)
    {
      var ln := lines[n];
      var piece := PieceOf(ln);
      var start := Next(nxt, piece.key);
      CountNext(nxt, ps, n);
      PlaceNext(lines[..], was, n);
      nxt := nxt[piece.key := start + piece.qty];
      ghost var before := lines[..];
      lines[n] := Placed(ln, start, piece.qty);
      assert lines[..] == before[n := Placed(ln, start, piece.qty)];
      KeysNext(out, ps, n);
      out := out + [RangeSk(piece.key, start)];
    }
  }

  // ----- build_invoice -----

  predicate Incomplete(ln: Line) {
    || (ln.unitPrice.None? && ln.amount.None?)
    || (LineTotal(ln) > 0 && (ln.account == "" || ln.accountType.None? || !CreditType(ln.accountType.value)))
  }

  predicate CreditType(t: string) {
    t == "REVENUE" || t == "LIABILITY" || t == "EQUITY"
  }

  datatype Refusal = NoCustomer | NoLines | BadAccountType | NegativeLine | ZeroLine | DuplicateIds

  function LineRefusal(ln: Line, allowUnbilled: bool): Option<Refusal> {
    if ln.accountType.Some? && !CreditType(ln.accountType.value) then Some(BadAccountType)
    else if LineTotal(ln) < 0 then Some(NegativeLine)
    else if LineTotal(ln) == 0 && !(allowUnbilled || Incomplete(ln)) then Some(ZeroLine)
    else None
  }

  datatype Invoice = Invoice(customer: string, lines: seq<Line>, subtotal: int, tax: int, total: int, incomplete: bool)

  /** The sum over the lines of a part of each. */
  function SumLines(lines: seq<Line>, part: Line -> int): int {
    if lines == [] then 0 else SumLines(lines[..|lines| - 1], part) + part(lines[|lines| - 1])
  }

  function TaxOf(ln: Line): int {
    if ln.ruleKey != "" then LineTotal(ln) else 0
  }

  /** The catalog's cost copied onto a line of an item that has none of its own. */
  function Costed(ln: Line, catalog: map<string, real>): Line {
    if ln.catalogItem != "" && ln.unitCost.None? && ln.catalogItem in catalog
    then ln.(unitCost := Some(catalog[ln.catalogItem])) else ln
  }

  /** The line as it is stored: ranged, keyed, and with the cost of the day. */
  function Keyed(lines: seq<Line>, i: nat, catalog: map<string, real>): Line
    requires i < |lines|
  {
    Costed(RangedLine(lines, i).(itemId := Some(SkAt(Pieces(lines), i))), catalog)
  }

  function AllKeyed(lines: seq<Line>, catalog: map<string, real>): (out: seq<Line>)
    ensures |out| == |lines|
  {
    seq(|lines|, i requires 0 <= i < |lines| => Keyed(lines, i, catalog))
  }

  /** The refusal of the first line that is refused. */
  function FirstRefusal(lines: seq<Line>, allowUnbilled: bool): Option<Refusal> {
    if lines == [] then None else
      var earlier := FirstRefusal(lines[..|lines| - 1], allowUnbilled);
      if earlier.Some? then earlier else LineRefusal(lines[|lines| - 1], allowUnbilled)
  }

  lemma {:induction false} FirstStays(lines: seq<Line>, n: nat, allowUnbilled: bool)
    requires n <= |lines| && FirstRefusal(lines[..n], allowUnbilled).Some?
    ensures FirstRefusal(lines, allowUnbilled) == FirstRefusal(lines[..n], allowUnbilled)
    decreases |lines|
  {
    if n < |lines| {
      assert lines[..|lines| - 1][..n] == lines[..n];
      FirstStays(lines[..|lines| - 1], n, allowUnbilled);
    } else {
      assert lines[..n] == lines;
    }
  }

  method CheckLines(lines: array<Line>, allowUnbilled: bool) returns (subtotal: int, refusal: Option<Refusal>)
    ensures refusal == FirstRefusal(lines[..], allowUnbilled)
    ensures refusal.None? ==> subtotal == SumLines(lines[..], LineTotal)
  {
    subtotal, refusal := 0, None;
    ghost var all := lines[..];
    for n := 0 to lines.Length
      invariant refusal.None? && FirstRefusal(all[..n], allowUnbilled).None?
                && subtotal == SumLines(all[..n], LineTotal)
    {
      PrefixStep(all, n);
      refusal := LineRefusal(lines[n], allowUnbilled);
      if refusal.Some? {
        FirstStays(all, n + 1, allowUnbilled);
        return;
      }
      subtotal := subtotal + LineTotal(lines[n]);
    }
    assert all[..lines.Length] == all;
  }

  method TaxTotal(lines: array<Line>) returns (tax: int)
    ensures tax == SumLines(lines[..], TaxOf)
  {
    tax := 0;
    ghost var all := lines[..];
    for n := 0 to lines.Length
      invariant tax == SumLines(all[..n], TaxOf)
    {
      PrefixStep(all, n);
      if lines[n].ruleKey != "" {
        tax := tax + LineTotal(lines[n]);
      }
    }
    assert all[..lines.Length] == all;
  }

  ghost predicate KeyedTo(after: seq<Line>, lines: seq<Line>, catalog: map<string, real>, n: nat)
    requires |after| == |lines| && n <= |lines|
  {
    && (forall i :: 0 <= i < n ==> after[i] == Keyed(lines, i, catalog))
    && (forall i :: n <= i < |lines| ==> after[i] == RangedLine(lines, i))
  }

  function WithId(ln: Line, id: string, catalog: map<string, real>): Line {
    Costed(ln.(itemId := Some(id)), catalog)
  }

  lemma KeyNext(after: seq<Line>, lines: seq<Line>, catalog: map<string, real>, n: nat)
    requires |after| == |lines| && n < |lines| && KeyedTo(after, lines, catalog, n)
    ensures KeyedTo(after[n := WithId(after[n], SkAt(Pieces(lines), n), catalog)], lines, catalog, n + 1)
  {
  }

  lemma KeyedAll(after: seq<Line>, lines: seq<Line>, catalog: map<string, real>)
    requires |after| == |lines| && KeyedTo(after, lines, catalog, |lines|)
    ensures after == AllKeyed(lines, catalog)
  {
  }

  /** The range keys become the lines' ids, and the cost of the day is copied onto them. */
  method KeyLines(lines: array<Line>, catalog: map<string, real>) returns (ids: seq<string>)
    modifies lines
    ensures lines[..] == AllKeyed(old(lines[..]), catalog)
    ensures |ids| == lines.Length
    ensures forall i :: 0 <= i < |ids| ==> ids[i] == SkAt(Pieces(old(lines[..])), i)
  {
    ghost var was := lines[..];
    ids := LineRanges(lines);
    for n := 0 to lines.Length
      invariant KeyedTo(lines[..], was, catalog, n)
    {
      KeyNext(lines[..], was, catalog, n);
      ghost var before := lines[..];
      var keyed := WithId(lines[n], ids[n], catalog);
      lines[n] := keyed;
      assert lines[..] == before[n := keyed];
    }
    KeyedAll(lines[..], was, catalog);
  }

  /** What build_invoice() makes of the lines it was given. */
  function Built(customer: string, lines: seq<Line>, catalog: map<string, real>, allowUnbilled: bool)
    : Result<Invoice, Refusal>
  {
    if customer == "" then Failure(NoCustomer)
    else if lines == [] then Failure(NoLines)
    else if FirstRefusal(lines, allowUnbilled).Some? then Failure(FirstRefusal(lines, allowUnbilled).value)
    else if !Distinct(Pieces(lines)) then Failure(DuplicateIds)
    else
      Success(Draft(customer, AllKeyed(lines, catalog), SumLines(lines, LineTotal)))
  }

  function Draft(customer: string, lines: seq<Line>, charged: int): Invoice {
    var tax := SumLines(lines, TaxOf);
    var subtotal := charged - tax;
    Invoice(customer, lines, subtotal, tax, subtotal + tax, exists i :: 0 <= i < |lines| && Incomplete(lines[i]))
  }

  method MakeDraft(customer: string, lines: array<Line>, charged: int) returns (invoice: Invoice)
    ensures invoice == Draft(customer, lines[..], charged)
  {
    var tax := TaxTotal(lines);
    var subtotal := charged - tax;
    var incomplete := AnyIncomplete(lines);
    invoice := Invoice(customer, lines[..], subtotal, tax, subtotal + tax, incomplete);
  }

  /** build_invoice(): the checks, then ids and costs in place, then the totals. */
  method BuildInvoice(customer: string, lines: array<Line>, catalog: map<string, real>, allowUnbilled: bool)
    returns (r: Result<Invoice, Refusal>)
    modifies lines
    ensures r == Built(customer, old(lines[..]), catalog, allowUnbilled)
    ensures lines[..] ==
            if r.Success? || r.error == DuplicateIds then AllKeyed(old(lines[..]), catalog) else old(lines[..])
  {
    if customer == "" {
      return Failure(NoCustomer);
    }
    if lines.Length == 0 {
      return Failure(NoLines);
    }
    ghost var was := lines[..];
    var subtotal, refusal := CheckLines(lines, allowUnbilled);
    if refusal.Some? {
      RefusalOfLine(was, allowUnbilled);
      return Failure(refusal.value);
    }
    var ids := KeyLines(lines, catalog);
    var distinct := AllDistinct(ids);
    if !distinct {
      return Failure(DuplicateIds);
    }
    var invoice := MakeDraft(customer, lines, subtotal);
    return Success(invoice);
  }

  /** len(set(seen)) == len(seen). */
  method AllDistinct(ids: seq<string>) returns (distinct: bool)
    ensures distinct <==> forall i, j :: 0 <= i < j < |ids| ==> ids[i] != ids[j]
  {
    SetOf(ids);
    distinct := |Elements(ids)| == |ids|;
  }

  /** invoice_is_incomplete(). */
  method AnyIncomplete(lines: array<Line>) returns (incomplete: bool)
    ensures incomplete <==> exists i :: 0 <= i < lines.Length && Incomplete(lines[..][i])
  {
    for n := 0 to lines.Length
      invariant forall i :: 0 <= i < n ==> !Incomplete(lines[..][i])
    {
      if Incomplete(lines[n]) {
        assert Incomplete(lines[..][n]);
        return true;
      }
    }
    return false;
  }

  lemma {:induction false} RefusalOfLine(lines: seq<Line>, allowUnbilled: bool)
    requires FirstRefusal(lines, allowUnbilled).Some?
    ensures FirstRefusal(lines, allowUnbilled).value != DuplicateIds
    decreases |lines|
  {
    if FirstRefusal(lines[..|lines| - 1], allowUnbilled).Some? {
      RefusalOfLine(lines[..|lines| - 1], allowUnbilled);
    }
  }

  function Elements<T>(s: seq<T>): set<T> {
    set x | x in s
  }

  lemma ElementsNext<T>(s: seq<T>, x: T)
    ensures Elements(s + [x]) == Elements(s) + {x}
  {
    forall y ensures y in Elements(s + [x]) <==> y in Elements(s) + {x} {
      assert y in s + [x] <==> y in s || y == x;
    }
  }

  /** A list has as many distinct elements as entries exactly when no two entries are equal. */
  lemma {:induction false} SetOf<T>(s: seq<T>)
    ensures |Elements(s)| == |s| <==> forall i, j :: 0 <= i < j < |s| ==> s[i] != s[j]
    ensures |Elements(s)| <= |s|
    decreases |s|
  {
    if s == [] {
      assert Elements(s) == {};
    } else {
      var n := |s| - 1;
      var front, last := s[..n], s[n];
      SetOf(front);
      assert s == front + [last];
      ElementsNext(front, last);
      assert last in Elements(front) <==> exists i :: 0 <= i < n && front[i] == last;
      assert forall i :: 0 <= i < n ==> front[i] == s[i];
    }
  }

  // ----- what an invoice says of its lines -----

  lemma {:induction false} RefusalIff(lines: seq<Line>, allowUnbilled: bool)
    ensures FirstRefusal(lines, allowUnbilled).None?
            <==> forall i :: 0 <= i < |lines| ==> LineRefusal(lines[i], allowUnbilled).None?
  {
    if lines != [] {
      RefusalIff(lines[..|lines| - 1], allowUnbilled);
    }
  }

  lemma {:induction false} SumAdds(lines: seq<Line>, f: Line -> int, g: Line -> int, h: Line -> int)
    requires forall i :: 0 <= i < |lines| ==> h(lines[i]) == f(lines[i]) + g(lines[i])
    ensures SumLines(lines, h) == SumLines(lines, f) + SumLines(lines, g)
  {
    if lines != [] {
      SumAdds(lines[..|lines| - 1], f, g, h);
    }
  }

  lemma {:induction false} SumChanges(before: seq<Line>, after: seq<Line>, f: Line -> int, drift: Line -> int)
    requires |before| == |after|
    requires forall i :: 0 <= i < |before| ==> f(after[i]) == f(before[i]) + drift(before[i])
    ensures SumLines(after, f) == SumLines(before, f) + SumLines(before, drift)
  {
    if before != [] {
      SumChanges(before[..|before| - 1], after[..|after| - 1], f, drift);
    }
  }

  function SoldOf(ln: Line): int {
    LineTotal(ln) - TaxOf(ln)
  }

  /** An invoice is built exactly when a customer is named, there are lines, none is refused on its own,
      and no two share a range. */
  lemma BuiltIff(customer: string, lines: seq<Line>, catalog: map<string, real>, allowUnbilled: bool)
    ensures Built(customer, lines, catalog, allowUnbilled).Success?
            <==> customer != "" && lines != []
                 && (forall i :: 0 <= i < |lines| ==> LineRefusal(lines[i], allowUnbilled).None?)
                 && (forall i, j :: 0 <= i < j < |lines| ==> !SameRange(Pieces(lines), i, j))
  {
    RefusalIff(lines, allowUnbilled);
    var ps := Pieces(lines);
    DistinctIff(ps);
  }

  /** The parts of a built invoice add up to what its lines charged when they were checked. */
  lemma PartsAddUp(customer: string, lines: seq<Line>, catalog: map<string, real>, allowUnbilled: bool)
    requires Built(customer, lines, catalog, allowUnbilled).Success?
    ensures var invoice := Built(customer, lines, catalog, allowUnbilled).value;
            && invoice.subtotal + invoice.tax == invoice.total == SumLines(lines, LineTotal)
            && invoice.total >= 0
  {
    AllCharge(lines, allowUnbilled);
    SumNonNegative(lines);
  }

  lemma AllCharge(lines: seq<Line>, allowUnbilled: bool)
    requires FirstRefusal(lines, allowUnbilled).None?
    ensures forall i :: 0 <= i < |lines| ==> LineTotal(lines[i]) >= 0
  {
    RefusalIff(lines, allowUnbilled);
    forall i | 0 <= i < |lines| ensures LineTotal(lines[i]) >= 0 {
      assert LineRefusal(lines[i], allowUnbilled).None?;
    }
  }

  lemma {:induction false} SumNonNegative(lines: seq<Line>)
    requires forall i :: 0 <= i < |lines| ==> LineTotal(lines[i]) >= 0
    ensures SumLines(lines, LineTotal) >= 0
  {
    if lines != [] {
      SumNonNegative(lines[..|lines| - 1]);
    }
  }

  /** With quantities of at least one the duplicate-id refusal cannot fire. */
  lemma NeverDuplicate(customer: string, lines: seq<Line>, catalog: map<string, real>, allowUnbilled: bool)
    requires AtLeastOne(Pieces(lines))
    ensures Built(customer, lines, catalog, allowUnbilled) != Failure(DuplicateIds)
  {
    DistinctIff(Pieces(lines));
    if FirstRefusal(lines, allowUnbilled).Some? {
      RefusalOfLine(lines, allowUnbilled);
    }
  }

  /** Every stored line has an id of its own. */
  lemma IdsDistinct(customer: string, lines: seq<Line>, catalog: map<string, real>, allowUnbilled: bool)
    requires Built(customer, lines, catalog, allowUnbilled).Success?
    ensures var stored := Built(customer, lines, catalog, allowUnbilled).value.lines;
            forall i, j :: 0 <= i < j < |stored| ==> stored[i].itemId != stored[j].itemId
  {
    var stored := AllKeyed(lines, catalog);
    forall i | 0 <= i < |stored| ensures stored[i].itemId == Some(SkAt(Pieces(lines), i)) {
      assert stored[i] == Keyed(lines, i, catalog);
    }
  }

  /** What storing a line adds to its charge: a quantity that int() takes to nothing is stored as zero,
      which later reads as one. */
  function Drift(ln: Line): int {
    if Qty(ln) == 0 && ln.unitPrice.Some? then Charge(ln.unitPrice.value, 1) else 0
  }

  lemma StoredTotal(lines: seq<Line>, i: nat, catalog: map<string, real>)
    requires i < |lines|
    ensures LineTotal(Keyed(lines, i, catalog)) == LineTotal(lines[i]) + Drift(lines[i])
  {
    StoredQty(lines, i, catalog);
    if lines[i].unitPrice.Some? {
      ChargeNothing(lines[i].unitPrice.value);
    }
  }

  lemma StoredQty(lines: seq<Line>, i: nat, catalog: map<string, real>)
    requires i < |lines|
    ensures var after := Keyed(lines, i, catalog);
            && Qty(after) == (if Qty(lines[i]) == 0 then 1 else Qty(lines[i]))
            && after.unitPrice == lines[i].unitPrice && after.amount == lines[i].amount
  {
    TruncateWhole(Qty(lines[i]));
  }

  lemma TruncateWhole(n: int)
    ensures Truncate(n as real) == n
  {
  }

  lemma ChargeNothing(price: real)
    ensures Charge(price, 0) == 0
  {
    assert price * 0.0 == 0.0;
  }

  /** The stored lines charge the invoice's total exactly when the priced lines whose quantity truncates to
      nothing would together charge nothing for one unit each. */
  lemma TotalIff(customer: string, lines: seq<Line>, catalog: map<string, real>, allowUnbilled: bool)
    requires Built(customer, lines, catalog, allowUnbilled).Success?
    ensures var invoice := Built(customer, lines, catalog, allowUnbilled).value;
            && SumLines(invoice.lines, LineTotal) == invoice.total + SumLines(lines, Drift)
            && (SumLines(invoice.lines, LineTotal) == invoice.total <==> SumLines(lines, Drift) == 0)
  {
    var stored := AllKeyed(lines, catalog);
    forall i | 0 <= i < |lines| ensures LineTotal(stored[i]) == LineTotal(lines[i]) + Drift(lines[i]) {
      StoredTotal(lines, i, catalog);
    }
    SumChanges(lines, stored, LineTotal, Drift);
  }

  lemma {:induction false} NoDrift(lines: seq<Line>)
    requires forall i :: 0 <= i < |lines| ==> Qty(lines[i]) != 0
    ensures SumLines(lines, Drift) == 0
  {
    if lines != [] {
      NoDrift(lines[..|lines| - 1]);
    }
  }

  /** With no quantity truncated away, the total is the sum of the stored lines' totals, the tax that of
      the lines a rule added, and the subtotal that of the rest, to the cent. */
  lemma TotalsAddUp(customer: string, lines: seq<Line>, catalog: map<string, real>, allowUnbilled: bool)
    requires Built(customer, lines, catalog, allowUnbilled).Success?
    requires forall i :: 0 <= i < |lines| ==> Qty(lines[i]) != 0
    ensures var invoice := Built(customer, lines, catalog, allowUnbilled).value;
            && invoice.total == SumLines(invoice.lines, LineTotal)
            && invoice.tax == SumLines(invoice.lines, TaxOf)
            && invoice.subtotal == SumLines(invoice.lines, SoldOf)
  {
    TotalIff(customer, lines, catalog, allowUnbilled);
    NoDrift(lines);
    SumAdds(AllKeyed(lines, catalog), TaxOf, SoldOf, LineTotal);
  }

  /** Half a unit at ten dollars, admitted unbilled: the invoice totals nothing, its line then charges ten. */
  lemma HalfUnitDrifts(customer: string, ln: Line)
    requires customer != "" && ln.quantity == Some(0.5) && ln.unitPrice == Some(10.0) && ln.accountType.None?
    ensures var r := Built(customer, [ln], map[], true);
            r.Success? && r.value.total == 0 && SumLines(r.value.lines, LineTotal) == 1000
  {
    assert Qty(ln) == 0;
    ChargeNothing(10.0);
    assert LineTotal(ln) == 0 && Drift(ln) == 1000;
    var lines := [ln];
    assert lines[..0] == [];
    RefusalIff(lines, true);
    PartsAddUp(customer, lines, map[], true);
    TotalIff(customer, lines, map[], true);
    assert SumLines(lines, LineTotal) == 0 && SumLines(lines, Drift) == 1000;
  }
}
