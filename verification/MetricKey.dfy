/** The public metric key, modules/metrics/metric_key.py: one printer, one parser, and the prefix a
    metric's points are read by. */
module MetricKey {
  import opened Common
  import opened Strings

  const KINDS := {"count", "count_distinct", "sum", "count_by"}
  const GRAINS := {"day", "week", "month"}

  // ----- the value codec -----

  function Enc(value: string): string {
    Replace(Replace(Replace(value, "%", "%25"), "#", "%23"), "=", "%3D")
  }

  function Dec(value: string): string {
    Replace(Replace(Replace(value, "%3D", "="), "%23", "#"), "%25", "%")
  }

  /** One character with the first n of the three escapes applied. */
  function Escape(c: char, n: nat): string {
    if c == '%' && n >= 1 then "%25"
    else if c == '#' && n >= 2 then "%23"
    else if c == '=' && n >= 3 then "%3D"
    else [c]
  }

  function EscapeAll(v: string, n: nat): string {
    if v == [] then [] else Escape(v[0], n) + EscapeAll(v[1..], n)
  }

  lemma ReplaceHit(pattern: string, rest: string, substitute: string)
    requires pattern != []
    ensures Replace(pattern + rest, pattern, substitute) == substitute + Replace(rest, pattern, substitute)
  {
    assert (pattern + rest)[|pattern|..] == rest;
  }

  lemma ReplaceMiss(c: char, rest: string, pattern: string, substitute: string)
    requires pattern != [] && !(pattern <= [c] + rest)
    ensures Replace([c] + rest, pattern, substitute) == [c] + Replace(rest, pattern, substitute)
  {
    assert ([c] + rest)[1..] == rest;
  }

  /** A run of characters none of which starts the pattern. */
  lemma {:induction false} ReplaceSkips(run: string, rest: string, pattern: string, substitute: string)
    requires pattern != [] && pattern[0] !in run
    ensures Replace(run + rest, pattern, substitute) == run + Replace(rest, pattern, substitute)
    decreases |run|
  {
    if run == [] {
      assert run + rest == rest;
    } else {
      ReplaceMiss(run[0], run[1..] + rest, pattern, substitute);
      assert [run[0]] + (run[1..] + rest) == run + rest;
      ReplaceSkips(run[1..], rest, pattern, substitute);
      assert [run[0]] + (run[1..] + Replace(rest, pattern, substitute)) == run + Replace(rest, pattern, substitute);
    }
  }

  /** The n-th escape's raw character and its code. */
  function Raw(n: nat): string
    requires 1 <= n <= 3
  {
    if n == 1 then "%" else if n == 2 then "#" else "="
  }

  function Code(n: nat): string
    requires 1 <= n <= 3
  {
    if n == 1 then "%25" else if n == 2 then "%23" else "%3D"
  }

  lemma {:induction false} EncodePass(v: string, n: nat)
    requires 1 <= n <= 3
    ensures Replace(EscapeAll(v, n - 1), Raw(n), Code(n)) == EscapeAll(v, n)
    decreases |v|
  {
    if v != [] {
      EncodePass(v[1..], n);
      var rest := EscapeAll(v[1..], n - 1);
      if [v[0]] == Raw(n) {
        ReplaceHit(Raw(n), rest, Code(n));
      } else {
        ReplaceSkips(Escape(v[0], n - 1), rest, Raw(n), Code(n));
      }
    }
  }

  /** A pass leaves another escape's code as it is. */
  lemma OtherCode(chunk: string, rest: string, n: nat)
    requires 1 <= n <= 3 && |chunk| == 3 && chunk[0] == '%' && '%' !in chunk[1..] && chunk != Code(n)
    ensures Replace(chunk + rest, Code(n), Raw(n)) == chunk + Replace(rest, Code(n), Raw(n))
  {
    HeadTail(chunk);
    Assoc(['%'], chunk[1..], rest);
    Cut(chunk, rest);
    assert !(Code(n) <= chunk + rest);
    ReplaceMiss('%', chunk[1..] + rest, Code(n), Raw(n));
    ReplaceSkips(chunk[1..], rest, Code(n), Raw(n));
    Assoc(['%'], chunk[1..], Replace(rest, Code(n), Raw(n)));
  }

  /** One of the three passes of Dec undoes the escape that was applied last. */
  lemma {:induction false} DecodePass(v: string, n: nat)
    requires 1 <= n <= 3
    ensures Replace(EscapeAll(v, n), Code(n), Raw(n)) == EscapeAll(v, n - 1)
    decreases |v|
  {
    if v != [] {
      DecodePass(v[1..], n);
      var rest := EscapeAll(v[1..], n);
      var chunk := Escape(v[0], n);
      if [v[0]] == Raw(n) {
        ReplaceHit(Code(n), rest, Raw(n));
      } else if chunk[0] == '%' {
        OtherCode(chunk, rest, n);
      } else {
        ReplaceSkips(chunk, rest, Code(n), Raw(n));
      }
    }
  }

  lemma {:induction false} EscapeNothing(v: string)
    ensures EscapeAll(v, 0) == v
  {
    if v != [] {
      EscapeNothing(v[1..]);
    }
  }

  lemma EncIsEscape(v: string)
    ensures Enc(v) == EscapeAll(v, 3)
  {
    EscapeNothing(v);
    EncodePass(v, 1);
    EncodePass(v, 2);
    EncodePass(v, 3);
  }

  /** The three passes of _dec undo _enc for every value. */
  lemma DecEnc(v: string)
    ensures Dec(Enc(v)) == v
  {
    EncIsEscape(v);
    DecodePass(v, 3);
    DecodePass(v, 2);
    DecodePass(v, 1);
    EscapeNothing(v);
  }

  lemma {:induction false} EscapedIsFree(v: string)
    ensures '#' !in EscapeAll(v, 3) && '=' !in EscapeAll(v, 3)
  {
    if v != [] {
      EscapedIsFree(v[1..]);
    }
  }

  /** The texts _enc can print: no raw delimiter, and every % opens one of its three codes. */
  predicate CanonicalValue(s: string)
    decreases |s|
  {
    s == []
    || (s[0] == '%' && |s| >= 3 && s[..3] in {"%25", "%23", "%3D"} && CanonicalValue(s[3..]))
    || (s[0] !in {'%', '#', '='} && CanonicalValue(s[1..]))
  }

  lemma {:induction false} EscapedIsCanonical(v: string)
    ensures CanonicalValue(EscapeAll(v, 3))
  {
    if v != [] {
      EscapedIsCanonical(v[1..]);
      var chunk, rest := Escape(v[0], 3), EscapeAll(v[1..], 3);
      if chunk[0] == '%' {
        assert (chunk + rest)[..3] == chunk && (chunk + rest)[3..] == rest;
      } else {
        assert (chunk + rest)[1..] == rest;
      }
    }
  }

  lemma {:induction false} CanonicalIsEscaped(s: string) returns (v: string)
    requires CanonicalValue(s)
    ensures EscapeAll(v, 3) == s
    decreases |s|
  {
    if s == [] {
      v := [];
    } else if s[0] == '%' {
      v := CanonicalIsEscaped(s[3..]);
      var c := if s[..3] == "%25" then '%' else if s[..3] == "%23" then '#' else '=';
      assert Escape(c, 3) == s[..3] && s == s[..3] + s[3..];
      v := [c] + v;
    } else {
      v := CanonicalIsEscaped(s[1..]);
      v := [s[0]] + v;
      assert s == [s[0]] + s[1..];
    }
  }

  /** Encoding a decoded text gives the text back exactly when _enc could have printed it. */
  lemma EncDec(s: string)
    ensures Enc(Dec(s)) == s <==> CanonicalValue(s)
  {
    if CanonicalValue(s) {
      var v := CanonicalIsEscaped(s);
      EncIsEscape(v);
      DecEnc(v);
    }
    EncIsEscape(Dec(s));
    EscapedIsCanonical(Dec(s));
  }

  // ----- the key -----

  datatype Definition = Definition(event: string, kind: string, grain: string,
                                   property: Option<string>, value: Option<string>)

  datatype Point = Point(definition: Definition, period: string)

  predicate IsWordChar(c: char) {
    'a' <= c <= 'z' || '0' <= c <= '9' || c == '_'
  }

  /** EVENT_RE: two or more words of lower-case letters, digits and _, with dots between. */
  predicate EventOk(event: string) {
    && |Split(event, '.')| >= 2
    && (forall i :: 0 <= i < |Split(event, '.')| ==> Split(event, '.')[i] != [])
    && forall i :: 0 <= i < |event| ==> event[i] == '.' || IsWordChar(event[i])
  }

  /** Everything of a key before the period. */
  function Head(d: Definition): Result<seq<string>, string> {
    if !EventOk(d.event) then Failure("event")
    else if d.kind !in KINDS then Failure("kind")
    else if d.grain !in GRAINS then Failure("grain")
    else if d.kind != "count_by" then Success([d.event, d.kind, d.grain])
    else if d.property.None? || d.property.value == [] || '#' in d.property.value
         || '=' in d.property.value || d.value.None? then Failure("count_by")
    else Success([d.event, d.kind, d.property.value + "=" + Enc(d.value.value), d.grain])
  }

  function PublicKey(d: Definition, period: string): Result<string, string> {
    if Head(d).Success? && (period == [] || '#' in period) then Failure("period")
    else if Head(d).Failure? then Failure(Head(d).error)
    else Success(Join(Head(d).value + [period], '#'))
  }

  function ParseParts(parts: seq<string>): Result<Point, string>
    requires parts != []
  {
    if |parts| == 4 then
      if parts[1] == "count_by" || parts[1] !in KINDS || parts[2] !in GRAINS || !EventOk(parts[0])
      then Failure("not a public metric key")
      else Success(Point(Definition(parts[0], parts[1], parts[2], None, None), parts[3]))
    else if |parts| == 5 && parts[1] == "count_by" && '=' in parts[2] then
      var property := Before(parts[2], '=');
      if parts[3] !in GRAINS || !EventOk(parts[0]) || |property| == |parts[2]|
      then Failure("not a public metric key")
      else Success(Point(Definition(parts[0], parts[1], parts[3], Some(property),
                                    Some(Dec(parts[2][|property| + 1..]))), parts[4]))
    else Failure("not a public metric key")
  }

  function ParsePublicKey(key: string): Result<Point, string> {
    SplitFree(key, '#');
    ParseParts(Split(key, '#'))
  }

  function PublicPrefix(d: Definition): Result<string, string> {
    match PublicKey(d, "p")
    case Success(key) => Success(key[..|key| - 1])
    case Failure(e) => Failure(e)
  }

  /** What a definition says: property and value only count for a count_by. */
  function Said(d: Definition): Definition {
    if d.kind == "count_by" then d else d.(property := None, value := None)
  }

  lemma HeadFree(d: Definition)
    requires Head(d).Success?
    ensures Free(Head(d).value, '#')
  {
    if d.kind == "count_by" {
      EncIsEscape(d.value.value);
      EscapedIsFree(d.value.value);
    }
  }

  lemma SplitKey(d: Definition, period: string)
    requires PublicKey(d, period).Success?
    ensures Split(PublicKey(d, period).value, '#') == Head(d).value + [period]
  {
    HeadFree(d);
    SplitJoin(Head(d).value + [period], '#');
  }

  lemma PropertyValue(property: string, value: string)
    requires '=' !in property
    ensures var pv := property + "=" + Enc(value);
            Before(pv, '=') == property && pv[|property| + 1..] == Enc(value)
  {
    var pv := property + "=" + Enc(value);
    assert pv == property + ("=" + Enc(value));
    BeforeFree(property, "=" + Enc(value), '=');
  }

  /** parse_public_key undoes public_key for every definition and period it accepts. */
  lemma ParsePrinted(d: Definition, period: string)
    requires PublicKey(d, period).Success?
    ensures ParsePublicKey(PublicKey(d, period).value) == Success(Point(Said(d), period))
  {
    SplitKey(d, period);
    if d.kind == "count_by" {
      PropertyValue(d.property.value, d.value.value);
      DecEnc(d.value.value);
      assert (d.property.value + "=" + Enc(d.value.value))[|d.property.value|] == '=';
    }
  }

  /** The value part of a count_by key, still escaped: what follows the first = of its third part. */
  function RawValue(parts: seq<string>): string
    requires |parts| == 5
  {
    var at := |Before(parts[2], '=')|;
    if at == |parts[2]| then [] else parts[2][at + 1..]
  }

  /** What a parsed point needs to print: the parts it was read from. */
  predicate Reprints(parts: seq<string>, pt: Point) {
    && pt.period != []
    && (|parts| == 5 ==> pt.definition.property != Some([]) && CanonicalValue(RawValue(parts)))
  }

  lemma PrintPlainParts(parts: seq<string>)
    requires |parts| == 4 && Free(parts, '#') && ParseParts(parts).Success?
    ensures var pt := ParseParts(parts).value;
            PublicKey(pt.definition, pt.period) == Success(Join(parts, '#')) <==> Reprints(parts, pt)
  {
    var pt := ParseParts(parts).value;
    assert parts == Head(pt.definition).value + [pt.period];
  }

  lemma CountByHead(parts: seq<string>)
    requires |parts| == 5 && Free(parts, '#') && ParseParts(parts).Success?
    ensures var d := ParseParts(parts).value.definition;
            && parts[2] == d.property.value + "=" + RawValue(parts)
            && (Head(d).Success? <==> d.property.value != [])
            && (Head(d).Success? ==>
                  Head(d).value == [parts[0], parts[1], d.property.value + "=" + Enc(Dec(RawValue(parts))), parts[3]])
  {
    var property := ParseParts(parts).value.definition.property.value;
    assert forall c :: c in property ==> c in parts[2];
    assert parts[2] == property + "=" + RawValue(parts);
  }

  lemma CancelLead(lead: string, x: string, y: string)
    ensures lead + x == lead + y <==> x == y
  {
    assert (lead + x)[|lead|..] == x && (lead + y)[|lead|..] == y;
  }

  lemma JoinInjective(xs: seq<string>, ys: seq<string>, sep: char)
    requires xs != [] && ys != [] && Free(xs, sep) && Free(ys, sep)
    ensures Join(xs, sep) == Join(ys, sep) <==> xs == ys
  {
    SplitJoin(xs, sep);
    SplitJoin(ys, sep);
  }

  lemma CountByPartsEqual(parts: seq<string>, lead: string, printedRaw: string, raw: string)
    requires |parts| == 5 && parts[2] == lead + raw
    ensures [parts[0], parts[1], lead + printedRaw, parts[3]] + [parts[4]] == parts <==> printedRaw == raw
  {
    CancelLead(lead, printedRaw, raw);
    var printed := [parts[0], parts[1], lead + printedRaw, parts[3]] + [parts[4]];
    assert printed[2] == lead + printedRaw;
    if printedRaw == raw {
      assert forall i :: 0 <= i < 5 ==> printed[i] == parts[i];
    }
  }

  lemma PrintCountByParts(parts: seq<string>)
    requires |parts| == 5 && Free(parts, '#') && ParseParts(parts).Success?
    ensures var pt := ParseParts(parts).value;
            PublicKey(pt.definition, pt.period) == Success(Join(parts, '#')) <==> Reprints(parts, pt)
  {
    var pt := ParseParts(parts).value;
    var d, raw := pt.definition, RawValue(parts);
    CountByHead(parts);
    EncDec(raw);
    assert pt.period == parts[4] && d.property.Some?;
    if Head(d).Success? && pt.period != [] {
      var printed := Head(d).value + [pt.period];
      assert PublicKey(d, pt.period) == Success(Join(printed, '#'));
      HeadFree(d);
      JoinInjective(printed, parts, '#');
      CountByPartsEqual(parts, d.property.value + "=", Enc(Dec(raw)), raw);
    }
  }

  /** The other direction holds only for some keys: a parsed key prints as itself exactly when its
      period is not empty and, for a count_by, its property is not empty and its value part is one
      _enc could have printed. */
  lemma PrintParsed(key: string)
    requires ParsePublicKey(key).Success?
    ensures var pt := ParsePublicKey(key).value;
            PublicKey(pt.definition, pt.period) == Success(key) <==> Reprints(Split(key, '#'), pt)
  {
    SplitFree(key, '#');
    if |Split(key, '#')| == 4 {
      PrintPlainParts(Split(key, '#'));
    } else {
      PrintCountByParts(Split(key, '#'));
    }
  }

  /** Keys the parser accepts and no definition prints: a raw = inside the value. */
  lemma UnprintableKey(event: string, property: string, raw: string, period: string)
    requires EventOk(event) && Free([event, property, raw, period], '#')
    requires '=' !in property && '=' in raw
    ensures var key := Join([event, "count_by", property + "=" + raw, "day", period], '#');
            ParsePublicKey(key).Success?
            && var pt := ParsePublicKey(key).value;
               PublicKey(pt.definition, pt.period) != Success(key)
  {
    var parts := [event, "count_by", property + "=" + raw, "day", period];
    var four := [event, property, raw, period];
    assert '#' !in four[0] && '#' !in four[1] && '#' !in four[2] && '#' !in four[3];
    SplitJoin(parts, '#');
    RawOf(parts, property, raw);
    if CanonicalValue(raw) {
      CanonicalIsFree(raw);
    }
    PrintCountByParts(parts);
  }

  lemma RawOf(parts: seq<string>, property: string, raw: string)
    requires |parts| == 5 && parts[2] == property + "=" + raw && '=' !in property
    ensures RawValue(parts) == raw
  {
    BeforeFree(property, "=" + raw, '=');
    Assoc(property, "=", raw);
    Cut(property, "=" + raw);
    DropHead('=', raw);
  }

  lemma {:induction false} CanonicalIsFree(s: string)
    requires CanonicalValue(s)
    ensures '=' !in s && '#' !in s
    decreases |s|
  {
    if s != [] {
      if s[0] == '%' {
        CanonicalIsFree(s[3..]);
        assert s == s[..3] + s[3..];
      } else {
        CanonicalIsFree(s[1..]);
        assert s == [s[0]] + s[1..];
      }
    }
  }

  // ----- the prefix -----

  lemma {:induction false} JoinLast(parts: seq<string>, last: string, sep: char)
    requires parts != []
    ensures Join(parts + [last], sep) == Join(parts, sep) + [sep] + last
    decreases |parts|
  {
    if |parts| > 1 {
      JoinLast(parts[1..], last, sep);
      assert (parts + [last])[1..] == parts[1..] + [last];
    } else {
      assert (parts + [last])[1..] == [last];
    }
  }

  lemma PrefixIs(d: Definition)
    requires Head(d).Success?
    ensures PublicPrefix(d) == Success(Join(Head(d).value, '#') + ['#'])
  {
    JoinLast(Head(d).value, "p", '#');
  }

  lemma HeadInjective(d: Definition, e: Definition)
    requires Head(d).Success? && Head(e).Success? && Head(d).value == Head(e).value
    ensures Said(d) == Said(e)
  {
    var h := Head(d).value;
    assert h[1] == d.kind == e.kind;
    if d.kind == "count_by" {
      PropertyValue(d.property.value, d.value.value);
      PropertyValue(e.property.value, e.value.value);
      DecEnc(d.value.value);
      DecEnc(e.value.value);
      assert h[2] == d.property.value + "=" + Enc(d.value.value);
      assert h[2] == e.property.value + "=" + Enc(e.value.value);
    }
  }

  /** A key that begins with a definition's prefix splits into its parts first. */
  lemma PrefixParts(hd: seq<string>, key: string, parts: seq<string>)
    requires hd != [] && Free(hd, '#') && Join(hd, '#') + ['#'] <= key && parts == Split(key, '#')
    ensures hd <= parts && |hd| < |parts|
  {
    var lead := Join(hd, '#');
    Resume(lead, '#', key);
    var tail := key[|lead| + 1..];
    SplitJoinTail(hd, tail, '#');
    SplitFree(tail, '#');
    Cut(hd, Split(tail, '#'));
  }

  lemma HeadPrefix(hd: seq<string>, he: seq<string>, last: string)
    requires hd <= he + [last] && |hd| == |he|
    ensures hd == he
  {
    Cut(he, [last]);
  }

  /** A key begins with a definition's prefix exactly when it is one of that definition's points, so
      a prefix query never mixes two metrics. */
  lemma PrefixIff(d: Definition, e: Definition, period: string)
    requires PublicPrefix(d).Success? && PublicKey(e, period).Success?
    ensures PublicPrefix(d).value <= PublicKey(e, period).value <==> Said(d) == Said(e)
  {
    var key := PublicKey(e, period).value;
    PrefixIs(d);
    JoinLast(Head(e).value, period, '#');
    if Said(d) == Said(e) {
      assert Head(d) == Head(e);
    }
    if PublicPrefix(d).value <= key {
      HeadFree(d);
      SplitKey(e, period);
      PrefixParts(Head(d).value, key, Head(e).value + [period]);
      SameKind(d, e, period);
      HeadPrefix(Head(d).value, Head(e).value, period);
      HeadInjective(d, e);
    }
  }

  lemma SameKind(d: Definition, e: Definition, period: string)
    requires Head(d).Success? && Head(e).Success? && Head(d).value <= Head(e).value + [period]
    ensures d.kind == e.kind && |Head(d).value| == |Head(e).value|
  {
    assert Head(d).value[1] == d.kind && (Head(e).value + [period])[1] == e.kind;
  }
}
