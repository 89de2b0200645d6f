/** String operations the modules share: Python's comparison, split, join, strip and replace on
    sequences of characters. */
module Strings {
  import opened Common

  // ----- the order sorted() uses -----

  /** Lexicographic order on code points. */
  predicate Leq(a: string, b: string)
    decreases |a|
  {
    a == [] || (b != [] && (a[0] < b[0] || (a[0] == b[0] && Leq(a[1..], b[1..]))))
  }

  lemma {:induction false} LeqTotal(a: string, b: string)
    ensures Leq(a, b) || Leq(b, a)
    decreases |a|
  {
    if a != [] && b != [] && a[0] == b[0] {
      LeqTotal(a[1..], b[1..]);
    }
  }

  lemma {:induction false} LeqAntisymmetric(a: string, b: string)
    requires Leq(a, b) && Leq(b, a)
    ensures a == b
    decreases |a|
  {
    if a != [] && b != [] {
      LeqAntisymmetric(a[1..], b[1..]);
      assert a == [a[0]] + a[1..] && b == [b[0]] + b[1..];
    }
  }

  lemma {:induction false} LeqTransitive(a: string, b: string, c: string)
    requires Leq(a, b) && Leq(b, c)
    ensures Leq(a, c)
    decreases |a|
  {
    if a != [] && a[0] == b[0] == c[0] {
      LeqTransitive(a[1..], b[1..], c[1..]);
    }
  }

  predicate Sorted(xs: seq<string>) {
    forall i, j :: 0 <= i < j < |xs| ==> Leq(xs[i], xs[j])
  }

  function InsertSorted(x: string, xs: seq<string>): seq<string> {
    if xs == [] then [x]
    else if Leq(x, xs[0]) then [x] + xs
    else [xs[0]] + InsertSorted(x, xs[1..])
  }

  function Sort(xs: seq<string>): seq<string> {
    if xs == [] then [] else InsertSorted(xs[0], Sort(xs[1..]))
  }

  lemma ConsSorted(x: string, xs: seq<string>)
    requires Sorted(xs) && forall y :: y in multiset(xs) ==> Leq(x, y)
    ensures Sorted([x] + xs)
  {
    forall j | 0 <= j < |xs| ensures Leq(x, xs[j]) {
      assert xs[j] in multiset(xs);
    }
  }

  lemma {:induction false} InsertSortedElements(x: string, xs: seq<string>)
    ensures multiset(InsertSorted(x, xs)) == multiset{x} + multiset(xs)
  {
    if xs != [] {
      assert xs == [xs[0]] + xs[1..];
      if !Leq(x, xs[0]) {
        InsertSortedElements(x, xs[1..]);
      }
    }
  }

  lemma {:induction false} InsertSortedSorted(x: string, xs: seq<string>)
    requires Sorted(xs)
    ensures Sorted(InsertSorted(x, xs))
  {
    if xs != [] {
      LeqTotal(x, xs[0]);
      LeqTotal(xs[0], xs[0]);
      if Leq(x, xs[0]) {
        forall y | y in multiset(xs) ensures Leq(x, y) {
          LeqTransitive(x, xs[0], y);
        }
        ConsSorted(x, xs);
      } else {
        InsertSortedSorted(x, xs[1..]);
        InsertSortedElements(x, xs[1..]);
        ConsSorted(xs[0], InsertSorted(x, xs[1..]));
      }
    }
  }

  lemma {:induction false} SortSpec(xs: seq<string>)
    ensures Sorted(Sort(xs)) && multiset(Sort(xs)) == multiset(xs)
  {
    if xs != [] {
      SortSpec(xs[1..]);
      InsertSortedElements(xs[0], Sort(xs[1..]));
      InsertSortedSorted(xs[0], Sort(xs[1..]));
      assert xs == [xs[0]] + xs[1..];
    }
  }

  /** A multiset of strings has one sorted list. */
  lemma {:induction false} SortedUnique(xs: seq<string>, ys: seq<string>)
    requires Sorted(xs) && Sorted(ys) && multiset(xs) == multiset(ys)
    ensures xs == ys
  {
    SameLength(xs, ys);
    if xs != [] {
      MatchHead(xs, ys);
      var i :| 0 <= i < |ys| && ys[i] == xs[0];
      var j :| 0 <= j < |xs| && xs[j] == ys[0];
      if i > 0 && j > 0 {
        LeqAntisymmetric(xs[0], ys[0]);
      }
      HeadTail(xs);
      HeadTail(ys);
      SortedUnique(xs[1..], ys[1..]);
    }
  }

  // ----- split and join on one character -----

  /** The text up to the first separator, or all of it. */
  function Before(s: string, sep: char): (p: string)
    ensures |p| <= |s| && p == s[..|p|] && sep !in p
    ensures |p| < |s| ==> s[|p|] == sep
  {
    if s == [] || s[0] == sep then [] else [s[0]] + Before(s[1..], sep)
  }

  function Split(s: string, sep: char): seq<string>
    decreases |s|
  {
    var p := Before(s, sep);
    if |p| == |s| then [p] else [p] + Split(s[|p| + 1..], sep)
  }

  function Join(parts: seq<string>, sep: char): string
    requires parts != []
    decreases |parts|
  {
    if |parts| == 1 then parts[0] else parts[0] + [sep] + Join(parts[1..], sep)
  }

  ghost predicate Free(parts: seq<string>, sep: char) {
    forall i :: 0 <= i < |parts| ==> sep !in parts[i]
  }

  lemma {:induction false} BeforeFree(p: string, rest: string, sep: char)
    requires sep !in p && (rest == [] || rest[0] == sep)
    ensures Before(p + rest, sep) == p
    decreases |p|
  {
    if p != [] {
      assert (p + rest)[1..] == p[1..] + rest;
      BeforeFree(p[1..], rest, sep);
    } else {
      assert p + rest == rest;
    }
  }

  /** A separator ends the part it follows, whatever comes after it. */
  lemma SplitFirst(part: string, rest: string, sep: char)
    requires sep !in part
    ensures Split(part + ([sep] + rest), sep) == [part] + Split(rest, sep)
  {
    BeforeFree(part, [sep] + rest, sep);
    Cut(part, [sep] + rest);
    var s := part + ([sep] + rest);
    assert s[|part| + 1..] == rest;
  }

  lemma {:induction false} SplitJoin(parts: seq<string>, sep: char)
    requires parts != [] && Free(parts, sep)
    ensures Split(Join(parts, sep), sep) == parts
    decreases |parts|
  {
    HeadTail(parts);
    if |parts| == 1 {
      BeforeFree(parts[0], [], sep);
      assert parts[0] + [] == parts[0];
      assert parts[1..] == [];
    } else {
      SplitFirst(parts[0], Join(parts[1..], sep), sep);
      Assoc(parts[0], [sep], Join(parts[1..], sep));
      SplitJoin(parts[1..], sep);
    }
  }

  /** The parts of a joined text come first in whatever it begins. */
  lemma {:induction false} SplitJoinTail(parts: seq<string>, tail: string, sep: char)
    requires parts != [] && Free(parts, sep)
    ensures Split(Join(parts, sep) + ([sep] + tail), sep) == parts + Split(tail, sep)
    decreases |parts|
  {
    HeadTail(parts);
    if |parts| == 1 {
      SplitFirst(parts[0], tail, sep);
      assert parts[1..] == [];
    } else {
      var later := Join(parts[1..], sep);
      SplitJoinTail(parts[1..], tail, sep);
      SplitFirst(parts[0], later + ([sep] + tail), sep);
      Assoc(parts[0] + [sep], later, [sep] + tail);
      Assoc(parts[0], [sep], later + ([sep] + tail));
      Assoc([parts[0]], parts[1..], Split(tail, sep));
    }
  }

  lemma {:induction false} SplitFree(s: string, sep: char)
    ensures Split(s, sep) != [] && Free(Split(s, sep), sep)
    ensures Join(Split(s, sep), sep) == s
    decreases |s|
  {
    var p := Before(s, sep);
    if |p| < |s| {
      var rest := s[|p| + 1..];
      SplitFree(rest, sep);
      DropHead(p, Split(rest, sep));
      assert s == p + [sep] + rest;
    }
  }

  // ----- replace -----

  /** str.replace: left to right, occurrences do not overlap. */
  function Replace(s: string, pattern: string, substitute: string): string
    requires pattern != []
    decreases |s|
  {
    if |s| < |pattern| then s
    else if pattern <= s then substitute + Replace(s[|pattern|..], pattern, substitute)
    else [s[0]] + Replace(s[1..], pattern, substitute)
  }

  // ----- strip -----

  /** The white space str.strip() and the regular expression \s agree on, in ASCII and Latin-1. */
  predicate IsSpace(c: char) {
    var n := c as int;
    9 <= n <= 13 || 28 <= n <= 32 || n == 0x85 || n == 0xA0 || n == 0x2028 || n == 0x2029
  }

  function StripLeft(s: string): (r: string)
    ensures |r| <= |s| && r == s[|s| - |r|..]
    ensures r == [] || !IsSpace(r[0])
    ensures forall i :: 0 <= i < |s| - |r| ==> IsSpace(s[i])
  {
    if s != [] && IsSpace(s[0]) then StripLeft(s[1..]) else s
  }

  function StripRight(s: string): (r: string)
    ensures r <= s
    ensures r == [] || !IsSpace(r[|r| - 1])
    ensures forall i :: |r| <= i < |s| ==> IsSpace(s[i])
  {
    if s != [] && IsSpace(s[|s| - 1]) then StripRight(s[..|s| - 1]) else s
  }

  function Strip(s: string): string {
    StripRight(StripLeft(s))
  }

  /** Nothing to strip at either end. */
  predicate Trimmed(s: string) {
    s == [] || (!IsSpace(s[0]) && !IsSpace(s[|s| - 1]))
  }

  lemma TrimmedPrefix(l: string, r: string)
    requires l == [] || !IsSpace(l[0])
    requires r <= l && (r == [] || !IsSpace(r[|r| - 1]))
    ensures Trimmed(r)
  {
    assert r != [] ==> r[0] == l[0];
  }

  lemma StripTrims(s: string)
    ensures Trimmed(Strip(s))
  {
    TrimmedPrefix(StripLeft(s), StripRight(StripLeft(s)));
  }

  lemma StripTrimmed(s: string)
    requires Trimmed(s)
    ensures Strip(s) == s
  {
  }

  /** Strip finds the trimmed text between two runs of white space. */
  lemma StripBetween(left: string, s: string, right: string)
    requires Trimmed(s) && s != []
    requires forall i :: 0 <= i < |left| ==> IsSpace(left[i])
    requires forall i :: 0 <= i < |right| ==> IsSpace(right[i])
    ensures Strip(left + s + right) == s
  {
    StripLeftRun(left, s + right);
    assert left + (s + right) == left + s + right;
    assert (s + right)[0] == s[0];
    StripRightRun(s, right);
  }

  lemma {:induction false} StripLeftRun(left: string, s: string)
    requires s == [] || !IsSpace(s[0])
    requires forall i :: 0 <= i < |left| ==> IsSpace(left[i])
    ensures StripLeft(left + s) == s
    decreases |left|
  {
    if left == [] {
      assert left + s == s;
    } else {
      assert (left + s)[1..] == left[1..] + s;
      StripLeftRun(left[1..], s);
    }
  }

  lemma {:induction false} StripRightRun(s: string, right: string)
    requires s == [] || !IsSpace(s[|s| - 1])
    requires forall i :: 0 <= i < |right| ==> IsSpace(right[i])
    ensures StripRight(s + right) == s
    decreases |right|
  {
    if right == [] {
      assert s + right == s;
    } else {
      assert (s + right)[..|s + right| - 1] == s + right[..|right| - 1];
      StripRightRun(s, right[..|right| - 1]);
    }
  }

  // ----- case -----

  predicate IsUpper(c: char) {
    'A' <= c <= 'Z'
  }

  /** str.lower() on ASCII. */
  function Lower(s: string): (r: string)
    ensures |r| == |s| && forall i :: 0 <= i < |r| ==> !IsUpper(r[i])
  {
    seq(|s|, i requires 0 <= i < |s| => if IsUpper(s[i]) then (s[i] as int + 32) as char else s[i])
  }

  // ----- decimal digits -----

  function Digit(n: nat): char
    requires n < 10
  {
    ('0' as int + n) as char
  }

  function Digits(n: nat): (s: string)
    ensures s != []
    ensures forall i :: 0 <= i < |s| ==> '0' <= s[i] <= '9'
  {
    if n < 10 then [Digit(n)] else Digits(n / 10) + [Digit(n % 10)]
  }

  lemma DigitsLength(n: nat)
    ensures |Digits(n)| == 1 <==> n < 10
  {
    if n >= 10 {
      assert |Digits(n / 10)| >= 1;
    }
  }

  lemma {:induction false} DigitsInjective(m: nat, n: nat)
    requires Digits(m) == Digits(n)
    ensures m == n
    decreases m
  {
    var s := Digits(m);
    DigitsLength(m);
    DigitsLength(n);
    if m >= 10 {
      assert s[|s| - 1] == Digit(m % 10) == Digit(n % 10);
      assert s[..|s| - 1] == Digits(m / 10) == Digits(n / 10);
      DigitsInjective(m / 10, n / 10);
    } else {
      assert s[0] == Digit(m) == Digit(n);
    }
  }
}
