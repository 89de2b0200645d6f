/** The AWS config file merge, scripts/awsacct.py: sections kept as their own lines, the owned
    profiles rewritten where they stand, the missing ones appended.

    Texts hold no carriage return: the file is read with line endings translated. */
module AwsConfig {
  import opened Common
  import opened Strings

  // ----- lines -----

  predicate IsBreak(c: char) {
    var n := c as int;
    10 <= n <= 12 || 28 <= n <= 30 || n == 0x85 || n == 0x2028 || n == 0x2029
  }

  /** How long the first line is, its break included. */
  function LineLength(s: string): (n: nat)
    requires s != []
    ensures 1 <= n <= |s|
  {
    if IsBreak(s[0]) || |s| == 1 then 1 else 1 + LineLength(s[1..])
  }

  /** splitlines(keepends=True). */
  function SplitLines(s: string): seq<string>
    decreases |s|
  {
    if s == [] then [] else [s[..LineLength(s)]] + SplitLines(s[LineLength(s)..])
  }

  function Concat(lines: seq<string>): string {
    if lines == [] then [] else lines[0] + Concat(lines[1..])
  }

  /** One line, with a break at its end or none at all. */
  predicate IsLine(l: string) {
    l != [] && LineLength(l) == |l|
  }

  predicate Complete(l: string) {
    IsLine(l) && IsBreak(l[|l| - 1])
  }

  /** What splitting a text can give: only the last line may lack its break. */
  predicate WellLines(lines: seq<string>) {
    lines == [] || (if |lines| == 1 then IsLine(lines[0]) else Complete(lines[0]) && WellLines(lines[1..]))
  }

  predicate AllComplete(lines: seq<string>) {
    lines == [] || (Complete(lines[0]) && AllComplete(lines[1..]))
  }

  lemma {:induction false} LineLengthPrefix(s: string)
    requires s != []
    ensures var l := s[..LineLength(s)];
            IsLine(l) && (|l| < |s| ==> Complete(l))
    decreases |s|
  {
    var n := LineLength(s);
    if n > 1 {
      LineLengthPrefix(s[1..]);
      assert s[..n][1..] == s[1..][..n - 1];
    }
  }

  lemma {:induction false} LineLengthThrough(l: string, rest: string)
    requires Complete(l)
    ensures LineLength(l + rest) == |l|
    decreases |l|
  {
    if |l| > 1 {
      assert !IsBreak(l[0]);
      assert (l + rest)[1..] == l[1..] + rest;
      assert LineLength(l) == 1 + LineLength(l[1..]);
      LineLengthThrough(l[1..], rest);
    }
  }

  lemma {:induction false} SplitLinesSpec(s: string)
    ensures WellLines(SplitLines(s)) && Concat(SplitLines(s)) == s
    decreases |s|
  {
    if s != [] {
      var n := LineLength(s);
      SplitLinesSpec(s[n..]);
      LineLengthPrefix(s);
      WellCons(s[..n], SplitLines(s[n..]));
      Rejoin(s, n);
    }
  }

  lemma WellCons(l: string, rest: seq<string>)
    requires IsLine(l) && WellLines(rest) && (rest != [] ==> Complete(l))
    ensures WellLines([l] + rest) && Concat([l] + rest) == l + Concat(rest)
  {
    DropHead(l, rest);
  }

  lemma Rejoin<T>(s: seq<T>, n: nat)
    requires n <= |s|
    ensures s[..n] + s[n..] == s
  {
  }

  /** Splitting undoes concatenation. */
  lemma {:induction false} ResplitLines(lines: seq<string>)
    requires WellLines(lines)
    ensures SplitLines(Concat(lines)) == lines
    decreases |lines|
  {
    if lines != [] {
      HeadTail(lines);
      var l, rest := lines[0], lines[1..];
      Cut(l, Concat(rest));
      if |lines| == 1 {
        assert rest == [] && l + Concat(rest) == l;
        assert l[|l|..] == [];
      } else {
        LineLengthThrough(l, Concat(rest));
        ResplitLines(rest);
      }
    }
  }

  lemma {:induction false} ConcatAppend(a: seq<string>, b: seq<string>)
    ensures Concat(a + b) == Concat(a) + Concat(b)
    decreases |a|
  {
    if a == [] {
      assert a + b == b;
    } else {
      HeadTail(a);
      Assoc([a[0]], a[1..], b);
      DropHead(a[0], a[1..] + b);
      ConcatAppend(a[1..], b);
      Assoc(a[0], Concat(a[1..]), Concat(b));
    }
  }

  lemma {:induction false} WellAppend(a: seq<string>, b: seq<string>)
    ensures AllComplete(a) && WellLines(b) ==> WellLines(a + b)
    ensures AllComplete(a) && AllComplete(b) ==> AllComplete(a + b)
    ensures WellLines(a + b) ==> WellLines(a) && WellLines(b) && (b != [] ==> AllComplete(a))
    decreases |a|
  {
    if a == [] {
      assert a + b == b;
    } else {
      HeadTail(a);
      Assoc([a[0]], a[1..], b);
      DropHead(a[0], a[1..] + b);
      WellAppend(a[1..], b);
      if |a| == 1 {
        assert a[1..] == [] && a[1..] + b == b;
      }
    }
  }

  lemma {:induction false} CompleteIsWell(lines: seq<string>)
    requires AllComplete(lines)
    ensures WellLines(lines)
  {
    if |lines| > 1 {
      CompleteIsWell(lines[1..]);
    }
  }

  // ----- sections -----

  /** The name between brackets that enclose a whole text. */
  function Bracketed(t: string): Option<string> {
    if |t| >= 3 && t[0] == '[' && t[|t| - 1] == ']' && ']' !in t[1..|t| - 1]
    then Some(Strip(t[1..|t| - 1]))
    else None
  }

  /** The name a header line gives, white space around the brackets and the name aside. */
  function Header(line: string): Option<string> {
    Bracketed(Strip(line))
  }

  datatype Section = Section(name: Option<string>, lines: seq<string>)

  function SectionsFrom(current: Section, lines: seq<string>): seq<Section>
    decreases |lines|
  {
    if lines == [] then [current]
    else match Header(lines[0])
      case Some(name) => [current] + SectionsFrom(Section(Some(name), [lines[0]]), lines[1..])
      case None => SectionsFrom(Section(current.name, current.lines + [lines[0]]), lines[1..])
  }

  function SplitSections(text: string): seq<Section> {
    SectionsFrom(Section(None, []), SplitLines(text))
  }

  function AllLines(secs: seq<Section>): seq<string> {
    if secs == [] then [] else secs[0].lines + AllLines(secs[1..])
  }

  function Text(secs: seq<Section>): string {
    Concat(AllLines(secs))
  }

  predicate Plain(lines: seq<string>) {
    lines == [] || (Header(lines[0]).None? && Plain(lines[1..]))
  }

  /** A section after the first: its header line, then lines that are no headers. */
  predicate Headed(s: Section) {
    s.lines != [] && s.name.Some? && Header(s.lines[0]) == s.name && Plain(s.lines[1..])
  }

  predicate AllHeaded(secs: seq<Section>) {
    secs == [] || (Headed(secs[0]) && AllHeaded(secs[1..]))
  }

  /** What splitting a text into sections can give. */
  predicate WellSplit(secs: seq<Section>) {
    secs != [] && secs[0].name.None? && Plain(secs[0].lines) && AllHeaded(secs[1..])
    && WellLines(AllLines(secs))
  }

  lemma {:induction false} PlainAppend(a: seq<string>, b: seq<string>)
    ensures Plain(a + b) <==> Plain(a) && Plain(b)
    decreases |a|
  {
    if a == [] {
      assert a + b == b;
    } else {
      HeadTail(a);
      Assoc([a[0]], a[1..], b);
      DropHead(a[0], a[1..] + b);
      PlainAppend(a[1..], b);
    }
  }

  predicate Started(s: Section) {
    (s.name.None? && Plain(s.lines)) || Headed(s)
  }

  lemma PlainOne(line: string)
    requires Header(line).None?
    ensures Plain([line])
  {
    assert [line][1..] == [];
  }

  lemma StartedGrows(s: Section, line: string)
    requires Started(s) && Header(line).None?
    ensures Started(Section(s.name, s.lines + [line]))
    ensures s.name.None? ==> Plain(s.lines + [line])
    ensures s.name.Some? ==> Headed(Section(s.name, s.lines + [line]))
  {
    PlainOne(line);
    if s.name.None? {
      PlainAppend(s.lines, [line]);
    } else {
      HeadTail(s.lines);
      Assoc([s.lines[0]], s.lines[1..], [line]);
      DropHead(s.lines[0], s.lines[1..] + [line]);
      PlainAppend(s.lines[1..], [line]);
    }
  }

  lemma HeaderStarts(line: string)
    requires Header(line).Some?
    ensures Headed(Section(Header(line), [line]))
  {
    assert [line][1..] == [];
  }

  lemma {:induction false} SectionsShape(current: Section, lines: seq<string>)
    requires Started(current)
    ensures var r := SectionsFrom(current, lines);
            r != [] && r[0].name == current.name && Started(r[0]) && AllHeaded(r[1..])
            && AllLines(r) == current.lines + lines
    decreases |lines|
  {
    var r := SectionsFrom(current, lines);
    if lines == [] {
      assert r[1..] == [] && AllLines(r[1..]) == [];
      assert current.lines + [] == current.lines;
    } else {
      HeadTail(lines);
      match Header(lines[0])
      case Some(name) =>
        HeaderStarts(lines[0]);
        var next := Section(Some(name), [lines[0]]);
        SectionsShape(next, lines[1..]);
        DropHead(current, SectionsFrom(next, lines[1..]));
      case None =>
        StartedGrows(current, lines[0]);
        SectionsShape(Section(current.name, current.lines + [lines[0]]), lines[1..]);
        Assoc(current.lines, [lines[0]], lines[1..]);
    }
  }

  /** split_sections loses nothing: its sections are well split and concatenate back to the text. */
  lemma SplitSectionsSpec(text: string)
    ensures WellSplit(SplitSections(text)) && Text(SplitSections(text)) == text
  {
    var lines := SplitLines(text);
    SplitLinesSpec(text);
    SectionsShape(Section(None, []), lines);
    Nothing(lines);
  }

  lemma {:induction false} TakePlain(current: Section, plain: seq<string>, rest: seq<string>)
    requires Plain(plain)
    ensures SectionsFrom(current, plain + rest) == SectionsFrom(Section(current.name, current.lines + plain), rest)
    decreases |plain|
  {
    if plain == [] {
      Nothing(rest);
      Nothing(current.lines);
    } else {
      HeadTail(plain);
      Assoc([plain[0]], plain[1..], rest);
      DropHead(plain[0], plain[1..] + rest);
      TakePlain(Section(current.name, current.lines + [plain[0]]), plain[1..], rest);
      Assoc(current.lines, [plain[0]], plain[1..]);
    }
  }

  lemma {:induction false} Regroup(current: Section, secs: seq<Section>)
    requires AllHeaded(secs)
    ensures SectionsFrom(current, AllLines(secs)) == [current] + secs
    decreases |secs|
  {
    if secs == [] {
      Nothing([current]);
    } else {
      var s, rest := secs[0], AllLines(secs[1..]);
      HeadTail(secs);
      HeadTail(s.lines);
      Assoc([s.lines[0]], s.lines[1..], rest);
      DropHead(s.lines[0], s.lines[1..] + rest);
      TakePlain(Section(s.name, [s.lines[0]]), s.lines[1..], rest);
      assert s == Section(s.name, s.lines);
      Regroup(s, secs[1..]);
    }
  }

  /** Splitting undoes writing sections out. */
  lemma Resplit(secs: seq<Section>)
    requires WellSplit(secs)
    ensures SplitSections(Text(secs)) == secs
  {
    ResplitLines(AllLines(secs));
    TakePlain(Section(None, []), secs[0].lines, AllLines(secs[1..]));
    Nothing(secs[0].lines);
    assert secs[0] == Section(None, secs[0].lines);
    Regroup(secs[0], secs[1..]);
    HeadTail(secs);
  }

  /** The sections when `out` is what the lines so far gave and `rest` is still to come. */
  function Grouped(out: seq<Section>, rest: seq<string>): seq<Section>
    requires out != []
  {
    out[..|out| - 1] + SectionsFrom(out[|out| - 1], rest)
  }

  lemma GroupStart(lines: seq<string>)
    ensures Grouped([Section(None, [])], lines[0..]) == SectionsFrom(Section(None, []), lines)
  {
    assert lines[0..] == lines;
    assert [Section(None, [])][..0] == [];
    Nothing(SectionsFrom(Section(None, []), lines));
  }

  lemma GroupDone(out: seq<Section>, lines: seq<string>)
    requires out != []
    ensures Grouped(out, lines[|lines|..]) == out
  {
    LastSplit(out);
  }

  lemma GroupHeader(out: seq<Section>, lines: seq<string>, k: nat, name: string)
    requires out != [] && k < |lines| && Header(lines[k]) == Some(name)
    ensures Grouped(out, lines[k..]) == Grouped(out + [Section(Some(name), [lines[k]])], lines[k + 1..])
  {
    var next := Section(Some(name), [lines[k]]);
    SuffixStep(lines, k);
    LastSplit(out);
    Assoc(out[..|out| - 1], [out[|out| - 1]], SectionsFrom(next, lines[k + 1..]));
    Cut(out, [next]);
  }

  function Longer(out: seq<Section>, line: string): seq<Section>
    requires out != []
  {
    var last := out[|out| - 1];
    out[..|out| - 1] + [Section(last.name, last.lines + [line])]
  }

  lemma GroupPlain(out: seq<Section>, lines: seq<string>, k: nat)
    requires out != [] && k < |lines| && Header(lines[k]).None?
    ensures Grouped(out, lines[k..]) == Grouped(Longer(out, lines[k]), lines[k + 1..])
  {
    SuffixStep(lines, k);
    Cut(out[..|out| - 1], [Section(out[|out| - 1].name, out[|out| - 1].lines + [lines[k]])]);
  }

  /** split_sections(): the loop. */
  method SplitSectionsLoop(text: string) returns (out: seq<Section>)
    ensures out == SplitSections(text)
    ensures Text(out) == text
  {
    out := [Section(None, [])];
    var lines := SplitLines(text);
    GroupStart(lines);
    for k := 0 to |lines|
      invariant out != []
      invariant Grouped(out, lines[k..]) == SplitSections(text)
    {
      var line := lines[k];
      match Header(line) {
        case Some(name) =>
          GroupHeader(out, lines, k, name);
          out := out + [Section(Some(name), [line])];
        case None =>
          GroupPlain(out, lines, k);
          out := Longer(out, line);
      }
    }
    GroupDone(out, lines);
    SplitSectionsSpec(text);
  }

  lemma SuffixStep<T>(s: seq<T>, k: nat)
    requires k < |s|
    ensures s[k..] != [] && s[k..][0] == s[k] && s[k..][1..] == s[k + 1..]
  {
  }

  lemma LastSplit<T>(s: seq<T>)
    requires s != []
    ensures s == s[..|s| - 1] + [s[|s| - 1]]
  {
  }

  // ----- the owned profiles -----

  const PROFILE := "profile "

  /** The profile a section describes: what follows the word profile in its name. */
  function Profile(name: Option<string>): Option<string> {
    if name.Some? && PROFILE <= name.value then Some(Strip(name.value[|PROFILE|..])) else None
  }

  predicate LowerLetters(s: string) {
    s != [] && forall i :: 0 <= i < |s| ==> 'a' <= s[i] <= 'z'
  }

  /** REGION_RE: two letters, one or more words, one digit, joined by hyphens. */
  predicate IsRegion(s: string) {
    var parts := Split(s, '-');
    |parts| >= 3 && LowerLetters(parts[0]) && |parts[0]| == 2
    && (forall i :: 1 <= i < |parts| - 1 ==> LowerLetters(parts[i]))
    && |parts[|parts| - 1]| == 1 && '0' <= parts[|parts| - 1][0] <= '9'
  }

  predicate Owned(name: Option<string>) {
    var profile := Profile(name);
    profile.Some? && var p := profile.value;
    p == "current" || p == "operator-org" || "gerp-" <= p || ("hub-" <= p && IsRegion(p[4..]))
  }

  type Field = (string, string)

  function FieldLine(f: Field): string {
    if f.0 == "#" then "# " + f.1 + "\n" else f.0 + " = " + f.1 + "\n"
  }

  function FieldLines(fields: seq<Field>): seq<string> {
    if fields == [] then [] else [FieldLine(fields[0])] + FieldLines(fields[1..])
  }

  function HeaderLine(profile: string): string {
    "[" + PROFILE + profile + "]" + "\n"
  }

  function Render(profile: string, fields: seq<Field>): seq<string> {
    [HeaderLine(profile)] + FieldLines(fields) + ["\n"]
  }

  /** The profiles to write, in the order they were added. */
  type Blocks = map<string, seq<Field>>

  predicate BreakFree(s: string) {
    forall i :: 0 <= i < |s| ==> !IsBreak(s[i])
  }

  /** What callers put in a block: a trimmed profile name with no bracket, keys that are words, and no
      line break anywhere. */
  predicate BlocksOk(blocks: Blocks) {
    forall p :: p in blocks ==>
      && p != [] && Trimmed(p) && ']' !in p && BreakFree(p)
      && forall i :: 0 <= i < |blocks[p]| ==> FieldOk(blocks[p][i])
  }

  predicate FieldOk(f: Field) {
    f.0 != [] && !IsSpace(f.0[0]) && f.0[0] != '[' && BreakFree(f.0) && BreakFree(f.1)
  }

  // ----- the rendered block as a section -----

  lemma {:induction false} LineLengthOf(s: string)
    requires BreakFree(s)
    ensures Complete(s + "\n")
    decreases |s|
  {
    if s == [] {
      assert s + "\n" == "\n";
    } else {
      assert (s + "\n")[1..] == s[1..] + "\n";
      LineLengthOf(s[1..]);
    }
  }

  lemma BreakFreeAppend(a: string, b: string)
    requires BreakFree(a) && BreakFree(b)
    ensures BreakFree(a + b)
  {
  }

  lemma BreakFreeWords()
    ensures BreakFree(PROFILE) && BreakFree("[") && BreakFree("]") && BreakFree("# ") && BreakFree(" = ")
    ensures !IsSpace('[') && !IsSpace(']') && !IsSpace('#') && !IsSpace('p') && IsSpace('\n')
  {
  }

  lemma InBrackets(name: string)
    ensures var t := "[" + name + "]";
            |t| >= 2 && t[0] == '[' && t[|t| - 1] == ']' && t[1..|t| - 1] == name
  {
  }

  lemma BracketHeader(name: string, end: string)
    requires name != [] && Trimmed(name) && ']' !in name
    requires forall i :: 0 <= i < |end| ==> IsSpace(end[i])
    ensures Header("[" + name + "]" + end) == Some(name)
  {
    var t := "[" + name + "]";
    BreakFreeWords();
    StripBetween([], t, end);
    Nothing(t + end);
    Assoc([], t, end);
    InBrackets(name);
    StripTrimmed(name);
  }

  lemma ProfileName(p: string)
    requires p != [] && Trimmed(p) && ']' !in p
    ensures Trimmed(PROFILE + p) && ']' !in PROFILE + p
    ensures Profile(Some(PROFILE + p)) == Some(p)
  {
    Cut(PROFILE, p);
    StripTrimmed(p);
    var name := PROFILE + p;
    assert name[0] == 'p' && name[|name| - 1] == p[|p| - 1];
  }

  lemma HeaderLineComplete(p: string)
    requires BreakFree(p)
    ensures Complete(HeaderLine(p))
  {
    BreakFreeWords();
    BreakFreeAppend("[", PROFILE);
    BreakFreeAppend("[" + PROFILE, p);
    BreakFreeAppend("[" + PROFILE + p, "]");
    LineLengthOf("[" + PROFILE + p + "]");
  }

  lemma HeaderLineSpec(p: string)
    requires p != [] && Trimmed(p) && ']' !in p && BreakFree(p)
    ensures Complete(HeaderLine(p)) && Header(HeaderLine(p)) == Some(PROFILE + p)
    ensures Profile(Some(PROFILE + p)) == Some(p)
  {
    BreakFreeWords();
    HeaderLineComplete(p);
    ProfileName(p);
    BracketHeader(PROFILE + p, "\n");
    Assoc("[", PROFILE, p);
  }

  lemma StripStart(s: string, rest: string)
    requires s != [] && !IsSpace(s[0])
    ensures Strip(s + rest) != [] && Strip(s + rest)[0] == s[0]
  {
    var t := s + rest;
    assert t[0] == s[0];
    assert StripLeft(t) == t;
  }

  lemma NoHeader(s: string, rest: string)
    requires s != [] && !IsSpace(s[0]) && s[0] != '['
    ensures Header(s + rest).None?
  {
    StripStart(s, rest);
  }

  lemma LineFrom(a: string, b: string, c: string)
    requires BreakFree(a) && BreakFree(b) && BreakFree(c)
    requires a != [] && !IsSpace(a[0]) && a[0] != '['
    ensures Complete(a + b + c + "\n") && Header(a + b + c + "\n").None?
  {
    BreakFreeAppend(a, b);
    BreakFreeAppend(a + b, c);
    LineLengthOf(a + b + c);
    Assoc(a, b, c);
    Assoc(a, b + c, "\n");
    NoHeader(a, b + c + "\n");
  }

  lemma FieldLineSpec(f: Field)
    requires FieldOk(f)
    ensures Complete(FieldLine(f)) && Header(FieldLine(f)).None?
  {
    BreakFreeWords();
    if f.0 == "#" {
      LineFrom("# ", f.1, []);
      Nothing("# " + f.1);
    } else {
      LineFrom(f.0, " = ", f.1);
    }
  }

  lemma {:induction false} FieldLinesSpec(fields: seq<Field>)
    requires forall i :: 0 <= i < |fields| ==> FieldOk(fields[i])
    ensures AllComplete(FieldLines(fields)) && Plain(FieldLines(fields))
  {
    if fields != [] {
      FieldLineSpec(fields[0]);
      FieldLinesSpec(fields[1..]);
      DropHead(FieldLine(fields[0]), FieldLines(fields[1..]));
    }
  }

  lemma BlankLine()
    ensures Complete("\n") && Header("\n").None? && AllComplete(["\n"]) && Plain(["\n"])
  {
    BlankHeader();
    OneLine("\n");
  }

  lemma BlankHeader()
    ensures Complete("\n") && Header("\n").None?
  {
    assert "\n"[1..] == "";
    assert Strip("\n") == "";
  }

  lemma OneLine(l: string)
    ensures AllComplete([l]) <==> Complete(l)
    ensures Plain([l]) <==> Header(l).None?
  {
    assert [l][1..] == [];
  }

  function RenderSection(p: string, fields: seq<Field>): Section {
    Section(Some(PROFILE + p), Render(p, fields))
  }

  /** A section of a header line, other lines and a blank one. */
  ghost predicate Blocked(s: Section) {
    Headed(s) && AllComplete(s.lines)
    && |s.lines| >= 2 && s.lines[|s.lines| - 1] == "\n" && Complete(s.lines[|s.lines| - 2])
  }

  lemma RenderSpec(blocks: Blocks, p: string)
    requires BlocksOk(blocks) && p in blocks
    ensures Blocked(RenderSection(p, blocks[p])) && Profile(RenderSection(p, blocks[p]).name) == Some(p)
  {
    HeaderLineSpec(p);
    FieldLinesSpec(blocks[p]);
    RenderShape(PROFILE + p, HeaderLine(p), FieldLines(blocks[p]));
  }

  lemma RenderShape(name: string, head: string, mid: seq<string>)
    requires Complete(head) && Header(head) == Some(name) && AllComplete(mid) && Plain(mid)
    ensures Blocked(Section(Some(name), [head] + mid + ["\n"]))
  {
    RenderLines(head, mid);
    var lines := [head] + mid + ["\n"];
    AllCompleteAt(lines, |lines| - 2);
  }

  lemma RenderLines(head: string, mid: seq<string>)
    requires Complete(head) && AllComplete(mid) && Plain(mid)
    ensures var lines := [head] + mid + ["\n"];
            AllComplete(lines) && lines[0] == head && Plain(lines[1..]) && |lines| >= 2 && lines[|lines| - 1] == "\n"
  {
    BlankLine();
    WellAppend(mid, ["\n"]);
    PlainAppend(mid, ["\n"]);
    Assoc([head], mid, ["\n"]);
    DropHead(head, mid + ["\n"]);
  }

  lemma {:induction false} AllCompleteAt(lines: seq<string>, i: nat)
    requires AllComplete(lines) && i < |lines|
    ensures Complete(lines[i])
  {
    if i > 0 {
      AllCompleteAt(lines[1..], i - 1);
    }
  }

  // ----- merge, on sections -----

  /** What the first loop makes of one section: nothing, the block, or the section as it stood. */
  function Placed(s: Section, blocks: Blocks, prune: bool): seq<Section> {
    var profile := Profile(s.name);
    if profile.Some? && profile.value in blocks then [RenderSection(profile.value, blocks[profile.value])]
    else if prune && Owned(s.name) && profile != Some("current") && profile != Some("operator-org") then []
    else [s]
  }

  function AllPlaced(secs: seq<Section>, blocks: Blocks, prune: bool): seq<Section> {
    if secs == [] then [] else Placed(secs[0], blocks, prune) + AllPlaced(secs[1..], blocks, prune)
  }

  function SeenOne(s: Section, blocks: Blocks): set<string> {
    var profile := Profile(s.name);
    if profile.Some? && profile.value in blocks then {profile.value} else {}
  }

  /** The blocks some section already shows. */
  function Seen(secs: seq<Section>, blocks: Blocks): set<string> {
    if secs == [] then {} else SeenOne(secs[0], blocks) + Seen(secs[1..], blocks)
  }

  lemma SeenSingle(s: Section, blocks: Blocks)
    ensures Seen([s], blocks) == SeenOne(s, blocks)
  {
    assert [s][1..] == [];
  }

  /** sorted() of a set of names. */
  ghost function SortedNames(names: set<string>): seq<string> {
    if names == {} then [] else
      var x :| x in names;
      InsertSorted(x, SortedNames(names - {x}))
  }

  lemma InsertsOne(x: string, sorted: seq<string>, names: set<string>)
    requires Sorted(sorted) && multiset(sorted) == multiset(names) && x !in names
    ensures Sorted(InsertSorted(x, sorted)) && multiset(InsertSorted(x, sorted)) == multiset(names + {x})
  {
    InsertSortedSorted(x, sorted);
    InsertSortedElements(x, sorted);
  }

  lemma {:induction false} SortedNamesSpec(names: set<string>)
    ensures Sorted(SortedNames(names)) && multiset(SortedNames(names)) == multiset(names)
  {
    if names != {} {
      var x :| x in names && SortedNames(names) == InsertSorted(x, SortedNames(names - {x}));
      SortedNamesSpec(names - {x});
      InsertsOne(x, SortedNames(names - {x}), names - {x});
      assert names == (names - {x}) + {x};
    }
  }

  ghost function Missing(secs: seq<Section>, blocks: Blocks): seq<string> {
    SortedNames(blocks.Keys - Seen(secs, blocks))
  }

  function RenderAll(names: seq<string>, blocks: Blocks): seq<Section>
    requires forall i :: 0 <= i < |names| ==> names[i] in blocks
  {
    if names == [] then [] else [RenderSection(names[0], blocks[names[0]])] + RenderAll(names[1..], blocks)
  }

  /** The lines once a line feed is added at the end. */
  function AddBreak(lines: seq<string>): seq<string> {
    if lines == [] then ["\n"]
    else if Complete(lines[|lines| - 1]) then lines + ["\n"]
    else lines[..|lines| - 1] + [lines[|lines| - 1] + "\n"]
  }

  function EndBreak(secs: seq<Section>): seq<Section>
    requires secs != []
  {
    var last := secs[|secs| - 1];
    secs[..|secs| - 1] + [Section(last.name, AddBreak(last.lines))]
  }

  predicate EndsWith(s: string, end: string) {
    |end| <= |s| && s[|s| - |end|..] == end
  }

  /** The body is closed by a blank line before anything is appended. */
  function Close(secs: seq<Section>): (r: seq<Section>)
    requires secs != []
    ensures r != []
  {
    if Text(secs) == [] then secs else
      var once := if EndsWith(Text(secs), "\n") then secs else EndBreak(secs);
      if EndsWith(Text(once), "\n\n") then once else EndBreak(once)
  }

  lemma MissingInBlocks(secs: seq<Section>, blocks: Blocks)
    ensures forall i :: 0 <= i < |Missing(secs, blocks)| ==> Missing(secs, blocks)[i] in blocks
  {
    SortedNamesSpec(blocks.Keys - Seen(secs, blocks));
    forall i | 0 <= i < |Missing(secs, blocks)| ensures Missing(secs, blocks)[i] in blocks {
      assert Missing(secs, blocks)[i] in multiset(Missing(secs, blocks));
    }
  }

  ghost function MergeSections(secs: seq<Section>, blocks: Blocks, prune: bool): seq<Section> {
    var out := AllPlaced(secs, blocks, prune);
    var missing := Missing(secs, blocks);
    MissingInBlocks(secs, blocks);
    if missing == [] || out == [] then out else Close(out) + RenderAll(missing, blocks)
  }

  /** merge(), as what it does to the sections of the text. */
  ghost function Merge(text: string, blocks: Blocks, prune: bool): string {
    Text(MergeSections(SplitSections(text), blocks, prune))
  }

  // ----- the merged sections are well split -----

  lemma {:induction false} AllLinesAppend(a: seq<Section>, b: seq<Section>)
    ensures AllLines(a + b) == AllLines(a) + AllLines(b)
    decreases |a|
  {
    if a == [] {
      Nothing(b);
      Nothing(AllLines(b));
    } else {
      HeadTail(a);
      Assoc([a[0]], a[1..], b);
      DropHead(a[0], a[1..] + b);
      AllLinesAppend(a[1..], b);
      Assoc(a[0].lines, AllLines(a[1..]), AllLines(b));
    }
  }

  lemma OneSection(s: Section)
    ensures AllLines([s]) == s.lines && (Headed(s) ==> AllHeaded([s]))
  {
    Nothing(s.lines);
    assert [s][1..] == [];
  }

  lemma {:induction false} HeadedAppend(a: seq<Section>, b: seq<Section>)
    ensures AllHeaded(a + b) <==> AllHeaded(a) && AllHeaded(b)
    decreases |a|
  {
    if a == [] {
      Nothing(b);
    } else {
      HeadTail(a);
      Assoc([a[0]], a[1..], b);
      DropHead(a[0], a[1..] + b);
      HeadedAppend(a[1..], b);
    }
  }

  lemma NoLines(secs: seq<Section>)
    requires AllHeaded(secs) && AllLines(secs) == []
    ensures secs == []
  {
  }

  lemma PlacedSpec(s: Section, blocks: Blocks, prune: bool)
    requires BlocksOk(blocks)
    ensures Headed(s) ==> AllHeaded(Placed(s, blocks, prune))
    ensures AllComplete(s.lines) ==> AllComplete(AllLines(Placed(s, blocks, prune)))
    ensures WellLines(s.lines) ==> WellLines(AllLines(Placed(s, blocks, prune)))
  {
    OneSection(s);
    var profile := Profile(s.name);
    if profile.Some? && profile.value in blocks {
      RenderSpec(blocks, profile.value);
      OneSection(RenderSection(profile.value, blocks[profile.value]));
      CompleteIsWell(Render(profile.value, blocks[profile.value]));
    }
  }

  lemma {:induction false} AllPlacedHeaded(secs: seq<Section>, blocks: Blocks, prune: bool)
    requires BlocksOk(blocks) && AllHeaded(secs)
    ensures AllHeaded(AllPlaced(secs, blocks, prune))
  {
    if secs != [] {
      PlacedSpec(secs[0], blocks, prune);
      AllPlacedHeaded(secs[1..], blocks, prune);
      HeadedAppend(Placed(secs[0], blocks, prune), AllPlaced(secs[1..], blocks, prune));
    }
  }

  lemma {:induction false} AllPlacedLines(secs: seq<Section>, blocks: Blocks, prune: bool)
    requires BlocksOk(blocks) && secs != [] && AllHeaded(secs[1..]) && WellLines(AllLines(secs))
    ensures WellLines(AllLines(AllPlaced(secs, blocks, prune)))
    decreases |secs|
  {
    var s, rest := secs[0], secs[1..];
    var placed, later := Placed(s, blocks, prune), AllPlaced(rest, blocks, prune);
    PlacedSpec(s, blocks, prune);
    WellAppend(s.lines, AllLines(rest));
    AllLinesAppend(placed, later);
    WellAppend(AllLines(placed), AllLines(later));
    if rest == [] {
      Nothing(AllLines(placed));
    } else {
      if AllLines(rest) == [] {
        NoLines(rest);
      }
      AllPlacedLines(rest, blocks, prune);
    }
  }

  /** The lines before the first header stay first. */
  lemma PlacedFirst(secs: seq<Section>, blocks: Blocks, prune: bool)
    requires secs != [] && secs[0].name.None?
    ensures AllPlaced(secs, blocks, prune) == [secs[0]] + AllPlaced(secs[1..], blocks, prune)
  {
  }

  lemma PlacedWell(secs: seq<Section>, blocks: Blocks, prune: bool)
    requires BlocksOk(blocks) && WellSplit(secs)
    ensures WellSplit(AllPlaced(secs, blocks, prune))
  {
    PlacedFirst(secs, blocks, prune);
    DropHead(secs[0], AllPlaced(secs[1..], blocks, prune));
    AllPlacedHeaded(secs[1..], blocks, prune);
    AllPlacedLines(secs, blocks, prune);
  }

  // ----- adding a line feed at the end -----

  lemma {:induction false} StripLeftBreak(l: string)
    ensures StripLeft(l + "\n") == if StripLeft(l) == [] then [] else StripLeft(l) + "\n"
    decreases |l|
  {
    if l == [] {
      assert l + "\n" == "\n";
      assert "\n"[1..] == "";
    } else {
      assert (l + "\n")[1..] == l[1..] + "\n";
      StripLeftBreak(l[1..]);
    }
  }

  lemma StripIgnoresBreak(l: string)
    ensures Strip(l + "\n") == Strip(l)
  {
    StripLeftBreak(l);
    StripRightBreak(StripLeft(l));
  }

  lemma StripRightBreak(t: string)
    ensures StripRight(t + "\n") == StripRight(t)
  {
    LastSplit(t + "\n");
    Cut(t, "\n");
  }

  lemma HeaderIgnoresBreak(l: string)
    ensures Header(l + "\n") == Header(l)
  {
    StripIgnoresBreak(l);
  }

  lemma {:induction false} OpenLine(l: string)
    requires IsLine(l) && !Complete(l)
    ensures BreakFree(l)
    decreases |l|
  {
    if |l| > 1 {
      OpenLine(l[1..]);
    }
  }

  lemma {:induction false} WellLast(lines: seq<string>)
    requires WellLines(lines) && lines != []
    ensures AllComplete(lines[..|lines| - 1]) && IsLine(lines[|lines| - 1])
    ensures Complete(lines[|lines| - 1]) ==> AllComplete(lines)
  {
    LastSplit(lines);
    var last := lines[|lines| - 1];
    WellAppend(lines[..|lines| - 1], [last]);
    assert [last][1..] == [];
    assert Complete(last) ==> AllComplete([last]);
  }

  lemma ConcatOne(l: string)
    ensures Concat([l]) == l
  {
    Nothing(l);
    assert [l][1..] == [];
  }

  lemma AddBreakText(lines: seq<string>)
    ensures Concat(AddBreak(lines)) == Concat(lines) + "\n"
  {
    ConcatOne("\n");
    if lines == [] {
      Nothing("\n");
    } else if Complete(lines[|lines| - 1]) {
      ConcatAppend(lines, ["\n"]);
    } else {
      var front, last := lines[..|lines| - 1], lines[|lines| - 1];
      LastSplit(lines);
      ConcatOne(last);
      ConcatOne(last + "\n");
      ConcatAppend(front, [last]);
      ConcatAppend(front, [last + "\n"]);
      Assoc(Concat(front), last, "\n");
    }
  }

  lemma AddBreakWell(lines: seq<string>)
    requires WellLines(lines)
    ensures AllComplete(AddBreak(lines))
  {
    BlankLine();
    if lines != [] {
      WellLast(lines);
      if Complete(lines[|lines| - 1]) {
        WellAppend(lines, ["\n"]);
      } else {
        EndLine(lines[|lines| - 1]);
        WellAppend(lines[..|lines| - 1], [lines[|lines| - 1] + "\n"]);
      }
    }
  }

  lemma EndLine(l: string)
    requires IsLine(l) && !Complete(l)
    ensures AllComplete([l + "\n"])
  {
    OpenLine(l);
    LineLengthOf(l);
    OneLine(l + "\n");
  }

  lemma AddBreakPlain(lines: seq<string>)
    requires Plain(lines)
    ensures Plain(AddBreak(lines))
  {
    BlankLine();
    if lines != [] {
      if Complete(lines[|lines| - 1]) {
        PlainAppend(lines, ["\n"]);
      } else {
        var front, last := lines[..|lines| - 1], lines[|lines| - 1];
        LastSplit(lines);
        PlainAppend(front, [last]);
        HeaderIgnoresBreak(last);
        PlainOne(last + "\n");
        PlainAppend(front, [last + "\n"]);
      }
    }
  }

  lemma SingleBreak(line: string)
    ensures AddBreak([line]) == if Complete(line) then [line] + ["\n"] else [line + "\n"]
    ensures AddBreak([line])[1..] == (if Complete(line) then ["\n"] else [])
  {
    Nothing([line + "\n"]);
    assert [line][..0] == [];
    DropHead(line, ["\n"]);
    DropHead(line + "\n", []);
  }

  lemma AddBreakHeaded(s: Section)
    requires Headed(s)
    ensures Headed(Section(s.name, AddBreak(s.lines)))
  {
    BlankLine();
    var lines := s.lines;
    if |lines| == 1 {
      HeadTail(lines);
      Nothing([lines[0]]);
      SingleBreak(lines[0]);
      HeaderIgnoresBreak(lines[0]);
    } else {
      AddBreakPlain(lines[1..]);
      AddBreakTail(lines);
    }
  }

  lemma AddBreakTail(lines: seq<string>)
    requires |lines| > 1
    ensures AddBreak(lines) == [lines[0]] + AddBreak(lines[1..])
    ensures AddBreak(lines)[1..] == AddBreak(lines[1..]) && AddBreak(lines)[0] == lines[0]
  {
    HeadTail(lines);
    var last := lines[|lines| - 1];
    if Complete(last) {
      Assoc([lines[0]], lines[1..], ["\n"]);
    } else {
      FrontTail(lines);
      Assoc([lines[0]], lines[1..|lines| - 1], [last + "\n"]);
    }
    DropHead(lines[0], AddBreak(lines[1..]));
  }

  lemma FrontTail<T>(s: seq<T>)
    requires |s| > 1
    ensures s[..|s| - 1] == [s[0]] + s[1..|s| - 1] && s[1..][..|s[1..]| - 1] == s[1..|s| - 1]
  {
  }

  lemma EndBreakText(secs: seq<Section>)
    requires secs != []
    ensures Text(EndBreak(secs)) == Text(secs) + "\n"
  {
    var front, last := secs[..|secs| - 1], secs[|secs| - 1];
    var longer := Section(last.name, AddBreak(last.lines));
    LastSplit(secs);
    AllLinesAppend(front, [last]);
    AllLinesAppend(front, [longer]);
    OneSection(last);
    OneSection(longer);
    ConcatAppend(AllLines(front), last.lines);
    ConcatAppend(AllLines(front), longer.lines);
    AddBreakText(last.lines);
    Assoc(Concat(AllLines(front)), Concat(last.lines), "\n");
  }

  lemma EndBreakWell(secs: seq<Section>)
    requires WellSplit(secs)
    ensures WellSplit(EndBreak(secs)) && AllComplete(AllLines(EndBreak(secs)))
  {
    var front, last := secs[..|secs| - 1], secs[|secs| - 1];
    var longer := Section(last.name, AddBreak(last.lines));
    LastSplit(secs);
    AllLinesAppend(front, [last]);
    AllLinesAppend(front, [longer]);
    OneSection(last);
    OneSection(longer);
    WellAppend(AllLines(front), last.lines);
    AddBreakWell(last.lines);
    if last.lines != [] {
      WellAppend(AllLines(front), longer.lines);
    } else {
      assert |secs| == 1 by { if |secs| > 1 { LastHeaded(secs[1..]); } }
      Nothing(longer.lines);
      assert front == [];
    }
    CompleteIsWell(AllLines(EndBreak(secs)));
    if |secs| == 1 {
      AddBreakPlain(last.lines);
      assert EndBreak(secs) == [longer] && [longer][1..] == [];
    } else {
      LastHeaded(secs[1..]);
      AddBreakHeaded(last);
      FrontTail(secs);
      Assoc([secs[0]], secs[1..|secs| - 1], [longer]);
      DropHead(secs[0], secs[1..|secs| - 1] + [longer]);
      LastSplit(secs[1..]);
      HeadedAppend(secs[1..|secs| - 1], [last]);
      OneSection(longer);
      HeadedAppend(secs[1..|secs| - 1], [longer]);
    }
  }

  lemma {:induction false} LastHeaded(secs: seq<Section>)
    requires AllHeaded(secs) && secs != []
    ensures Headed(secs[|secs| - 1])
  {
    if |secs| > 1 {
      LastHeaded(secs[1..]);
    }
  }

  // ----- the merged sections, stable and complete -----

  /** merge leaves this section as it is. */
  predicate Stable(s: Section, blocks: Blocks, prune: bool) {
    Placed(s, blocks, prune) == [s]
  }

  predicate AllStable(secs: seq<Section>, blocks: Blocks, prune: bool) {
    secs == [] || (Stable(secs[0], blocks, prune) && AllStable(secs[1..], blocks, prune))
  }

  /** A section that is neither rewritten nor removed. */
  predicate Foreign(s: Section, blocks: Blocks, prune: bool) {
    Stable(s, blocks, prune) && (Profile(s.name).Some? ==> Profile(s.name).value !in blocks)
  }

  lemma {:induction false} StableAppend(a: seq<Section>, b: seq<Section>, blocks: Blocks, prune: bool)
    ensures AllStable(a + b, blocks, prune) <==> AllStable(a, blocks, prune) && AllStable(b, blocks, prune)
    decreases |a|
  {
    if a == [] {
      Nothing(b);
    } else {
      HeadTail(a);
      Assoc([a[0]], a[1..], b);
      DropHead(a[0], a[1..] + b);
      StableAppend(a[1..], b, blocks, prune);
    }
  }

  lemma RenderStable(blocks: Blocks, p: string, prune: bool)
    requires BlocksOk(blocks) && p in blocks
    ensures Stable(RenderSection(p, blocks[p]), blocks, prune)
    ensures AllStable([RenderSection(p, blocks[p])], blocks, prune)
  {
    RenderSpec(blocks, p);
    OneStable(RenderSection(p, blocks[p]), blocks, prune);
  }

  lemma OneStable(s: Section, blocks: Blocks, prune: bool)
    ensures AllStable([s], blocks, prune) <==> Stable(s, blocks, prune)
  {
    assert [s][1..] == [];
  }

  lemma {:induction false} SeenAppend(a: seq<Section>, b: seq<Section>, blocks: Blocks)
    ensures Seen(a + b, blocks) == Seen(a, blocks) + Seen(b, blocks)
    decreases |a|
  {
    if a == [] {
      Nothing(b);
    } else {
      HeadTail(a);
      Assoc([a[0]], a[1..], b);
      DropHead(a[0], a[1..] + b);
      SeenAppend(a[1..], b, blocks);
    }
  }

  lemma PlacedOne(s: Section, blocks: Blocks, prune: bool)
    requires BlocksOk(blocks)
    ensures AllStable(Placed(s, blocks, prune), blocks, prune)
    ensures Seen(Placed(s, blocks, prune), blocks) == Seen([s], blocks)
  {
    SeenSingle(s, blocks);
    if Profile(s.name).Some? && Profile(s.name).value in blocks {
      PlacedBlock(Profile(s.name).value, blocks, prune);
    } else {
      PlacedForeign(s, blocks, prune);
    }
  }

  lemma PlacedBlock(p: string, blocks: Blocks, prune: bool)
    requires BlocksOk(blocks) && p in blocks
    ensures AllStable([RenderSection(p, blocks[p])], blocks, prune)
    ensures Seen([RenderSection(p, blocks[p])], blocks) == {p}
  {
    RenderStable(blocks, p, prune);
    RenderSpec(blocks, p);
    SeenSingle(RenderSection(p, blocks[p]), blocks);
  }

  lemma PlacedForeign(s: Section, blocks: Blocks, prune: bool)
    requires BlocksOk(blocks) && !(Profile(s.name).Some? && Profile(s.name).value in blocks)
    ensures AllStable(Placed(s, blocks, prune), blocks, prune)
  {
    assert [s][1..] == [];
  }

  /** What the loop leaves is stable and still shows every block it met. */
  lemma {:induction false} PlacedStable(secs: seq<Section>, blocks: Blocks, prune: bool)
    requires BlocksOk(blocks)
    ensures AllStable(AllPlaced(secs, blocks, prune), blocks, prune)
    ensures Seen(AllPlaced(secs, blocks, prune), blocks) == Seen(secs, blocks)
  {
    if secs != [] {
      var placed, later := Placed(secs[0], blocks, prune), AllPlaced(secs[1..], blocks, prune);
      HeadTail(secs);
      PlacedOne(secs[0], blocks, prune);
      PlacedStable(secs[1..], blocks, prune);
      StableAppend(placed, later, blocks, prune);
      SeenAppend(placed, later, blocks);
      SeenAppend([secs[0]], secs[1..], blocks);
    }
  }

  lemma {:induction false} StablePlaced(secs: seq<Section>, blocks: Blocks, prune: bool)
    requires AllStable(secs, blocks, prune)
    ensures AllPlaced(secs, blocks, prune) == secs
  {
    if secs != [] {
      StablePlaced(secs[1..], blocks, prune);
      HeadTail(secs);
    }
  }

  lemma {:induction false} RenderAllSpec(names: seq<string>, blocks: Blocks, prune: bool)
    requires BlocksOk(blocks) && forall i :: 0 <= i < |names| ==> names[i] in blocks
    ensures var r := RenderAll(names, blocks);
            AllHeaded(r) && AllComplete(AllLines(r)) && AllStable(r, blocks, prune)
  {
    if names != [] {
      var s, later := RenderSection(names[0], blocks[names[0]]), RenderAll(names[1..], blocks);
      RenderAllSpec(names[1..], blocks, prune);
      RenderSpec(blocks, names[0]);
      RenderStable(blocks, names[0], prune);
      DropHead(s, later);
      WellAppend(s.lines, AllLines(later));
    }
  }

  lemma {:induction false} RenderAllSeen(names: seq<string>, blocks: Blocks, p: string)
    requires BlocksOk(blocks) && (forall i :: 0 <= i < |names| ==> names[i] in blocks) && p in names
    ensures p in Seen(RenderAll(names, blocks), blocks)
  {
    SeenHead(RenderSection(names[0], blocks[names[0]]), RenderAll(names[1..], blocks), blocks);
    if p in names[1..] {
      RenderAllSeen(names[1..], blocks, p);
    } else {
      RenderSpec(blocks, p);
    }
  }

  lemma SeenHead(s: Section, later: seq<Section>, blocks: Blocks)
    ensures Seen([s] + later, blocks) == SeenOne(s, blocks) + Seen(later, blocks)
  {
    SeenAppend([s], later, blocks);
    SeenSingle(s, blocks);
  }

  lemma EndBreakStable(secs: seq<Section>, blocks: Blocks, prune: bool)
    requires secs != [] && AllStable(secs, blocks, prune)
    requires Foreign(secs[|secs| - 1], blocks, prune)
    ensures AllStable(EndBreak(secs), blocks, prune) && Seen(EndBreak(secs), blocks) == Seen(secs, blocks)
    ensures Foreign(EndBreak(secs)[|secs| - 1], blocks, prune)
  {
    var front, last := secs[..|secs| - 1], secs[|secs| - 1];
    var longer := Section(last.name, AddBreak(last.lines));
    LastSplit(secs);
    StableAppend(front, [last], blocks, prune);
    SeenAppend(front, [last], blocks);
    SeenAppend(front, [longer], blocks);
    ForeignAnyLines(last, longer, blocks, prune);
    assert [longer][1..] == [] && [last][1..] == [];
    StableAppend(front, [longer], blocks, prune);
  }

  lemma ForeignAnyLines(s: Section, t: Section, blocks: Blocks, prune: bool)
    requires Foreign(s, blocks, prune) && s.name == t.name
    ensures Foreign(t, blocks, prune)
  {
  }

  lemma LastStable(secs: seq<Section>, blocks: Blocks, prune: bool)
    requires AllStable(secs, blocks, prune) && secs != []
    ensures Stable(secs[|secs| - 1], blocks, prune)
  {
    StableAt(secs, blocks, prune, |secs| - 1);
  }

  lemma {:induction false} FieldLinesEnd(lines: seq<string>, fields: seq<Field>)
    requires EndsWith(Concat(lines), "\n")
    ensures EndsWith(Concat(lines + FieldLines(fields)), "\n")
    decreases |fields|
  {
    if fields == [] {
      Nothing(lines);
    } else {
      var l, rest := FieldLine(fields[0]), FieldLines(fields[1..]);
      ConcatOne(l);
      ConcatAppend(lines, [l]);
      assert EndsWith(Concat(lines + [l]), "\n");
      FieldLinesEnd(lines + [l], fields[1..]);
      Assoc(lines, [l], rest);
    }
  }

  /** A block ends in a blank line. */
  lemma RenderEnds(p: string, fields: seq<Field>)
    ensures EndsWith(Concat(Render(p, fields)), "\n\n")
  {
    ConcatOne(HeaderLine(p));
    ConcatOne("\n");
    FieldLinesEnd([HeaderLine(p)], fields);
    ConcatAppend([HeaderLine(p)] + FieldLines(fields), ["\n"]);
    var x := Concat([HeaderLine(p)] + FieldLines(fields));
    assert x[|x| - 1..] == "\n";
    assert (x + "\n")[|x| - 1..] == x[|x| - 1..] + "\n";
  }

  lemma EndsWithTail(a: string, b: string, end: string)
    requires EndsWith(b, end)
    ensures EndsWith(a + b, end)
  {
    assert (a + b)[|a + b| - |end|..] == b[|b| - |end|..];
  }

  /** A body that does not end in a blank line ends in a section merge did not write. */
  lemma OpenEndIsForeign(secs: seq<Section>, blocks: Blocks, prune: bool)
    requires secs != [] && AllStable(secs, blocks, prune) && !EndsWith(Text(secs), "\n\n")
    ensures Foreign(secs[|secs| - 1], blocks, prune)
  {
    var front, last := secs[..|secs| - 1], secs[|secs| - 1];
    LastStable(secs, blocks, prune);
    LastSplit(secs);
    AllLinesAppend(front, [last]);
    OneSection(last);
    ConcatAppend(AllLines(front), last.lines);
    var profile := Profile(last.name);
    if profile.Some? && profile.value in blocks {
      RenderEnds(profile.value, blocks[profile.value]);
      assert last == RenderSection(profile.value, blocks[profile.value]);
      EndsWithTail(Concat(AllLines(front)), Concat(last.lines), "\n\n");
    }
  }

  // ----- merge -----

  lemma {:induction false} EndsComplete(lines: seq<string>)
    requires WellLines(lines) && EndsWith(Concat(lines), "\n")
    ensures AllComplete(lines)
    decreases |lines|
  {
    var last := lines[|lines| - 1];
    WellLast(lines);
    LastSplit(lines);
    ConcatAppend(lines[..|lines| - 1], [last]);
    ConcatOne(last);
    var x := Concat(lines[..|lines| - 1]);
    assert (x + last)[|x + last| - 1] == last[|last| - 1];
    assert (x + last)[|x + last| - 1..][0] == last[|last| - 1];
  }

  lemma EndsShorter(s: string)
    requires EndsWith(s, "\n\n")
    ensures EndsWith(s, "\n")
  {
    assert s[|s| - 1..] == s[|s| - 2..][1..];
  }

  lemma NoText(lines: seq<string>)
    requires WellLines(lines) && Concat(lines) == []
    ensures lines == []
  {
  }

  ghost predicate Settled(secs: seq<Section>, blocks: Blocks, prune: bool, seen: set<string>) {
    WellSplit(secs) && AllStable(secs, blocks, prune) && Seen(secs, blocks) == seen
  }

  lemma CloseStep(secs: seq<Section>, blocks: Blocks, prune: bool, seen: set<string>)
    requires Settled(secs, blocks, prune, seen) && !EndsWith(Text(secs), "\n\n")
    ensures Settled(EndBreak(secs), blocks, prune, seen) && AllComplete(AllLines(EndBreak(secs)))
  {
    OpenEndIsForeign(secs, blocks, prune);
    EndBreakWell(secs);
    EndBreakStable(secs, blocks, prune);
  }

  /** Closing the body keeps it well split and stable, and completes its last line. */
  lemma CloseSpec(secs: seq<Section>, blocks: Blocks, prune: bool, seen: set<string>)
    requires Settled(secs, blocks, prune, seen)
    ensures Settled(Close(secs), blocks, prune, seen) && AllComplete(AllLines(Close(secs)))
  {
    if Text(secs) == [] {
      NoText(AllLines(secs));
    } else {
      if EndsWith(Text(secs), "\n") {
        EndsComplete(AllLines(secs));
        if !EndsWith(Text(secs), "\n\n") {
          CloseStep(secs, blocks, prune, seen);
        }
      } else {
        if EndsWith(Text(secs), "\n\n") {
          EndsShorter(Text(secs));
        }
        CloseStep(secs, blocks, prune, seen);
        if !EndsWith(Text(EndBreak(secs)), "\n\n") {
          CloseStep(EndBreak(secs), blocks, prune, seen);
        }
      }
    }
  }

  lemma AppendWell(secs: seq<Section>, more: seq<Section>)
    requires WellSplit(secs) && AllComplete(AllLines(secs))
    requires AllHeaded(more) && AllComplete(AllLines(more))
    ensures WellSplit(secs + more)
  {
    HeadTail(secs);
    Assoc([secs[0]], secs[1..], more);
    DropHead(secs[0], secs[1..] + more);
    HeadedAppend(secs[1..], more);
    AllLinesAppend(secs, more);
    CompleteIsWell(AllLines(more));
    WellAppend(AllLines(secs), AllLines(more));
  }

  lemma MissingSeen(secs: seq<Section>, blocks: Blocks, p: string)
    requires BlocksOk(blocks) && p in blocks && p !in Seen(secs, blocks)
    requires forall i :: 0 <= i < |Missing(secs, blocks)| ==> Missing(secs, blocks)[i] in blocks
    ensures p in Seen(RenderAll(Missing(secs, blocks), blocks), blocks)
  {
    SortedNamesSpec(blocks.Keys - Seen(secs, blocks));
    assert p in multiset(Missing(secs, blocks));
    RenderAllSeen(Missing(secs, blocks), blocks, p);
  }

  lemma NoneMissing(secs: seq<Section>, blocks: Blocks)
    requires Missing(secs, blocks) == []
    ensures blocks.Keys <= Seen(secs, blocks)
  {
    SortedNamesSpec(blocks.Keys - Seen(secs, blocks));
    forall p | p in blocks ensures p in Seen(secs, blocks) {
      assert p !in multiset(blocks.Keys - Seen(secs, blocks));
    }
  }

  lemma AppendSettled(secs: seq<Section>, more: seq<Section>, blocks: Blocks, prune: bool, seen: set<string>)
    requires Settled(secs, blocks, prune, seen) && AllComplete(AllLines(secs))
    requires AllHeaded(more) && AllComplete(AllLines(more)) && AllStable(more, blocks, prune)
    requires seen + Seen(more, blocks) == blocks.Keys
    ensures Settled(secs + more, blocks, prune, blocks.Keys)
  {
    AppendWell(secs, more);
    StableAppend(secs, more, blocks, prune);
    SeenAppend(secs, more, blocks);
  }

  lemma AppendedCovers(secs: seq<Section>, blocks: Blocks)
    requires BlocksOk(blocks)
    requires forall i :: 0 <= i < |Missing(secs, blocks)| ==> Missing(secs, blocks)[i] in blocks
    ensures Seen(secs, blocks) + Seen(RenderAll(Missing(secs, blocks), blocks), blocks) == blocks.Keys
  {
    var more := RenderAll(Missing(secs, blocks), blocks);
    SeenInBlocks(secs, blocks);
    SeenInBlocks(more, blocks);
    forall p | p in blocks && p !in Seen(secs, blocks) ensures p in Seen(more, blocks) {
      MissingSeen(secs, blocks, p);
    }
  }

  /** The sections of a merged file: well split, each one left alone by a second merge, and every
      block among them. */
  lemma MergeSectionsSpec(secs: seq<Section>, blocks: Blocks, prune: bool)
    requires BlocksOk(blocks) && WellSplit(secs)
    ensures Settled(MergeSections(secs, blocks, prune), blocks, prune, blocks.Keys)
  {
    var out, missing := AllPlaced(secs, blocks, prune), Missing(secs, blocks);
    PlacedWell(secs, blocks, prune);
    PlacedStable(secs, blocks, prune);
    MissingInBlocks(secs, blocks);
    if missing == [] {
      SeenInBlocks(secs, blocks);
      NoneMissing(secs, blocks);
    } else {
      CloseSpec(out, blocks, prune, Seen(secs, blocks));
      RenderAllSpec(missing, blocks, prune);
      AppendedCovers(secs, blocks);
      AppendSettled(Close(out), RenderAll(missing, blocks), blocks, prune, Seen(secs, blocks));
    }
  }

  lemma {:induction false} SeenInBlocks(secs: seq<Section>, blocks: Blocks)
    ensures Seen(secs, blocks) <= blocks.Keys
  {
    if secs != [] {
      SeenInBlocks(secs[1..], blocks);
    }
  }

  lemma NothingMissing(secs: seq<Section>, blocks: Blocks)
    requires Seen(secs, blocks) == blocks.Keys
    ensures Missing(secs, blocks) == []
  {
    assert blocks.Keys - Seen(secs, blocks) == {};
  }

  /** Splitting a merged file finds the merged sections again. */
  lemma MergedSections(text: string, blocks: Blocks, prune: bool)
    requires BlocksOk(blocks)
    ensures SplitSections(Merge(text, blocks, prune)) == MergeSections(SplitSections(text), blocks, prune)
  {
    SplitSectionsSpec(text);
    MergeSectionsSpec(SplitSections(text), blocks, prune);
    Resplit(MergeSections(SplitSections(text), blocks, prune));
  }

  /** A second merge changes nothing, down to the last character. */
  lemma MergeIdempotent(text: string, blocks: Blocks, prune: bool)
    requires BlocksOk(blocks)
    ensures Merge(Merge(text, blocks, prune), blocks, prune) == Merge(text, blocks, prune)
  {
    var r := MergeSections(SplitSections(text), blocks, prune);
    SplitSectionsSpec(text);
    MergeSectionsSpec(SplitSections(text), blocks, prune);
    MergedSections(text, blocks, prune);
    StablePlaced(r, blocks, prune);
    NothingMissing(r, blocks);
  }

  // ----- what a merge leaves alone, and what it does not -----

  function ForeignOf(secs: seq<Section>, blocks: Blocks, prune: bool): seq<Section> {
    if secs == [] then []
    else (if Foreign(secs[0], blocks, prune) then [secs[0]] else []) + ForeignOf(secs[1..], blocks, prune)
  }

  lemma {:induction false} ForeignAppend(a: seq<Section>, b: seq<Section>, blocks: Blocks, prune: bool)
    ensures ForeignOf(a + b, blocks, prune) == ForeignOf(a, blocks, prune) + ForeignOf(b, blocks, prune)
    decreases |a|
  {
    if a == [] {
      Nothing(b);
      Nothing(ForeignOf(b, blocks, prune));
    } else {
      HeadTail(a);
      Assoc([a[0]], a[1..], b);
      DropHead(a[0], a[1..] + b);
      ForeignAppend(a[1..], b, blocks, prune);
      var first := if Foreign(a[0], blocks, prune) then [a[0]] else [];
      Assoc(first, ForeignOf(a[1..], blocks, prune), ForeignOf(b, blocks, prune));
    }
  }

  lemma ForeignSingle(s: Section, blocks: Blocks, prune: bool)
    ensures ForeignOf([s], blocks, prune) == if Foreign(s, blocks, prune) then [s] else []
  {
    assert [s][1..] == [];
    Nothing([s]);
  }

  lemma ForeignPlacedOne(s: Section, blocks: Blocks, prune: bool)
    requires BlocksOk(blocks)
    ensures ForeignOf(Placed(s, blocks, prune), blocks, prune) == if Foreign(s, blocks, prune) then [s] else []
  {
    if Profile(s.name).Some? && Profile(s.name).value in blocks {
      BlockNotForeign(Profile(s.name).value, blocks, prune);
      assert Placed(s, blocks, prune) == [RenderSection(Profile(s.name).value, blocks[Profile(s.name).value])];
    } else {
      OtherPlaced(s, blocks, prune);
    }
  }

  lemma OtherPlaced(s: Section, blocks: Blocks, prune: bool)
    requires !(Profile(s.name).Some? && Profile(s.name).value in blocks)
    ensures ForeignOf(Placed(s, blocks, prune), blocks, prune) == if Foreign(s, blocks, prune) then [s] else []
  {
    ForeignSingle(s, blocks, prune);
  }

  lemma BlockNotForeign(p: string, blocks: Blocks, prune: bool)
    requires BlocksOk(blocks) && p in blocks
    ensures ForeignOf([RenderSection(p, blocks[p])], blocks, prune) == []
  {
    RenderSpec(blocks, p);
    ForeignSingle(RenderSection(p, blocks[p]), blocks, prune);
  }

  lemma {:induction false} ForeignPlaced(secs: seq<Section>, blocks: Blocks, prune: bool)
    requires BlocksOk(blocks)
    ensures ForeignOf(AllPlaced(secs, blocks, prune), blocks, prune) == ForeignOf(secs, blocks, prune)
  {
    if secs != [] {
      ForeignPlacedOne(secs[0], blocks, prune);
      ForeignPlaced(secs[1..], blocks, prune);
      ForeignAppend(Placed(secs[0], blocks, prune), AllPlaced(secs[1..], blocks, prune), blocks, prune);
    }
  }

  lemma {:induction false} ForeignRendered(names: seq<string>, blocks: Blocks, prune: bool)
    requires BlocksOk(blocks) && forall i :: 0 <= i < |names| ==> names[i] in blocks
    ensures ForeignOf(RenderAll(names, blocks), blocks, prune) == []
  {
    if names != [] {
      RenderSpec(blocks, names[0]);
      ForeignRendered(names[1..], blocks, prune);
      DropHead(RenderSection(names[0], blocks[names[0]]), RenderAll(names[1..], blocks));
    }
  }

  /** The same sections, the text of the last one lengthened at its end. */
  ghost predicate Lengthened(a: seq<Section>, b: seq<Section>, end: string) {
    if a == [] then b == [] && end == []
    else exists front, s, t ::
      a == front + [s] && b == front + [t] && s.name == t.name && Concat(t.lines) == Concat(s.lines) + end
  }

  lemma LengthenedBy(front: seq<Section>, s: Section, t: Section, end: string)
    requires s.name == t.name && Concat(t.lines) == Concat(s.lines) + end
    ensures Lengthened(front + [s], front + [t], end)
  {
    var a, b := front + [s], front + [t];
    assert a == front + [s] && b == front + [t] && s.name == t.name && Concat(t.lines) == Concat(s.lines) + end;
  }

  lemma NotLengthened(a: seq<Section>)
    ensures Lengthened(a, a, [])
  {
    if a != [] {
      LastSplit(a);
      Nothing(Concat(a[|a| - 1].lines));
      LengthenedBy(a[..|a| - 1], a[|a| - 1], a[|a| - 1], []);
    }
  }

  lemma SameEnd(f: seq<Section>, x: Section, g: seq<Section>, y: Section)
    requires f + [x] == g + [y]
    ensures f == g && x == y
  {
    assert |f + [x]| == |g + [y]|;
    assert (f + [x])[|f|] == x && (g + [y])[|g|] == y;
    Cut(f, [x]);
    Cut(g, [y]);
  }

  lemma LengthenedTwice(a: seq<Section>, b: seq<Section>, c: seq<Section>, x: string, y: string)
    requires a != [] && Lengthened(a, b, x) && Lengthened(b, c, y)
    ensures Lengthened(a, c, x + y)
  {
    var f, s, t :| a == f + [s] && b == f + [t] && s.name == t.name && Concat(t.lines) == Concat(s.lines) + x;
    assert b[|f|] == t;
    var g, u, v :| b == g + [u] && c == g + [v] && u.name == v.name && Concat(v.lines) == Concat(u.lines) + y;
    SameEnd(f, t, g, u);
    Assoc(Concat(s.lines), x, y);
    LengthenedBy(f, s, v, x + y);
  }

  lemma EndBreakForeign(secs: seq<Section>, blocks: Blocks, prune: bool)
    requires secs != [] && Foreign(secs[|secs| - 1], blocks, prune)
    ensures Lengthened(ForeignOf(secs, blocks, prune), ForeignOf(EndBreak(secs), blocks, prune), "\n")
    ensures ForeignOf(secs, blocks, prune) != []
  {
    var front, last := secs[..|secs| - 1], secs[|secs| - 1];
    var longer := Section(last.name, AddBreak(last.lines));
    LastSplit(secs);
    ForeignAppend(front, [last], blocks, prune);
    ForeignAppend(front, [longer], blocks, prune);
    ForeignSingle(last, blocks, prune);
    ForeignAnyLines(last, longer, blocks, prune);
    ForeignSingle(longer, blocks, prune);
    AddBreakText(last.lines);
    LengthenedBy(ForeignOf(front, blocks, prune), last, longer, "\n");
  }

  /** What closing a body adds. */
  function Closing(body: string): string {
    if body == [] || EndsWith(body, "\n\n") then []
    else if EndsWith(body, "\n") then "\n"
    else "\n\n"
  }

  /** The three ways a body is closed. */
  lemma CloseCases(secs: seq<Section>)
    requires secs != []
    ensures Close(secs) == match Closing(Text(secs))
                           case "" => secs
                           case "\n" => EndBreak(secs)
                           case _ => EndBreak(EndBreak(secs))
    ensures Closing(Text(secs)) in {"", "\n", "\n\n"}
  {
    if EndsWith(Text(secs), "\n\n") {
      EndsShorter(Text(secs));
    }
    if !EndsWith(Text(secs), "\n") {
      EndBreakText(secs);
      OneBreak(Text(secs));
    }
  }

  lemma TwoBreaks()
    ensures "\n" + "\n" == "\n\n"
  {
  }

  lemma CloseForeignTwice(secs: seq<Section>, blocks: Blocks, prune: bool)
    requires secs != [] && WellSplit(secs) && AllStable(secs, blocks, prune) && !EndsWith(Text(secs), "\n")
    ensures Lengthened(ForeignOf(secs, blocks, prune), ForeignOf(EndBreak(EndBreak(secs)), blocks, prune), "\n\n")
  {
    var once := EndBreak(secs);
    if EndsWith(Text(secs), "\n\n") {
      EndsShorter(Text(secs));
    }
    OpenEndIsForeign(secs, blocks, prune);
    EndBreakForeign(secs, blocks, prune);
    EndBreakStable(secs, blocks, prune);
    EndBreakForeign(once, blocks, prune);
    LengthenedTwice(ForeignOf(secs, blocks, prune), ForeignOf(once, blocks, prune),
                    ForeignOf(EndBreak(once), blocks, prune), "\n", "\n");
    TwoBreaks();
  }

  lemma CloseForeign(secs: seq<Section>, blocks: Blocks, prune: bool)
    requires secs != [] && WellSplit(secs) && AllStable(secs, blocks, prune)
    ensures Lengthened(ForeignOf(secs, blocks, prune), ForeignOf(Close(secs), blocks, prune), Closing(Text(secs)))
  {
    CloseCases(secs);
    if Closing(Text(secs)) == "" {
      NotLengthened(ForeignOf(secs, blocks, prune));
    } else if Closing(Text(secs)) == "\n" {
      OpenEndIsForeign(secs, blocks, prune);
      EndBreakForeign(secs, blocks, prune);
    } else {
      CloseForeignTwice(secs, blocks, prune);
    }
  }

  lemma OneBreak(s: string)
    requires !EndsWith(s, "\n")
    ensures !EndsWith(s + "\n", "\n\n") && s + "\n" != []
  {
    if s != [] {
      assert s[|s| - 1..] == [s[|s| - 1]];
      assert (s + "\n")[|s| - 1..][0] == s[|s| - 1];
    }
  }

  /** Every section merge neither writes nor prunes stays, in its order and with its text; only line
      feeds may be added after the last of them, and only when a block is appended behind it. */
  lemma MergeKeepsForeign(text: string, blocks: Blocks, prune: bool)
    requires BlocksOk(blocks)
    ensures exists end :: end in {"", "\n", "\n\n"}
              && Lengthened(ForeignOf(SplitSections(text), blocks, prune),
                            ForeignOf(SplitSections(Merge(text, blocks, prune)), blocks, prune), end)
  {
    var secs := SplitSections(text);
    var out := AllPlaced(secs, blocks, prune);
    SplitSectionsSpec(text);
    MergedSections(text, blocks, prune);
    PlacedWell(secs, blocks, prune);
    PlacedStable(secs, blocks, prune);
    ForeignPlaced(secs, blocks, prune);
    MissingInBlocks(secs, blocks);
    if Missing(secs, blocks) == [] {
      NotLengthened(ForeignOf(secs, blocks, prune));
    } else {
      var more := RenderAll(Missing(secs, blocks), blocks);
      CloseForeign(out, blocks, prune);
      ForeignAppend(Close(out), more, blocks, prune);
      ForeignRendered(Missing(secs, blocks), blocks, prune);
      Nothing(ForeignOf(Close(out), blocks, prune));
      CloseCases(out);
    }
  }

  /** Every block stands in the merged file, each section of its profile is exactly the block, and with
      prune no other owned gerp- or hub- profile is left. */
  lemma MergeWritesBlocks(text: string, blocks: Blocks, prune: bool, s: Section)
    requires BlocksOk(blocks) && s in SplitSections(Merge(text, blocks, prune))
    ensures Profile(s.name).Some? && Profile(s.name).value in blocks ==>
              s == RenderSection(Profile(s.name).value, blocks[Profile(s.name).value])
    ensures prune && Owned(s.name) && Profile(s.name).value !in {"current", "operator-org"} ==>
              Profile(s.name).value in blocks
    ensures Seen(SplitSections(Merge(text, blocks, prune)), blocks) == blocks.Keys
  {
    var r := MergeSections(SplitSections(text), blocks, prune);
    SplitSectionsSpec(text);
    MergedSections(text, blocks, prune);
    MergeSectionsSpec(SplitSections(text), blocks, prune);
    var i :| 0 <= i < |r| && r[i] == s;
    StableAt(r, blocks, prune, i);
  }

  lemma StableHead(secs: seq<Section>, blocks: Blocks, prune: bool)
    requires secs != [] && AllStable(secs, blocks, prune)
    ensures Stable(secs[0], blocks, prune) && AllStable(secs[1..], blocks, prune)
  {
  }

  lemma StableAt(secs: seq<Section>, blocks: Blocks, prune: bool, i: nat)
    requires AllStable(secs, blocks, prune) && i < |secs|
    ensures Stable(secs[i], blocks, prune)
  {
    var all := (rest: seq<Section>) => AllStable(rest, blocks, prune);
    var one := (s: Section) => Stable(s, blocks, prune);
    forall rest: seq<Section> | rest != [] && all(rest) ensures one(rest[0]) && all(rest[1..]) {
      StableHead(rest, blocks, prune);
    }
    EachOfAll(secs, all, one, i);
  }

  // ----- the loops -----

  method SortNames(names: set<string>) returns (sorted: seq<string>)
    ensures sorted == SortedNames(names)
  {
    sorted := [];
    var left := names;
    while left != {}
      invariant left <= names && Sorted(sorted) && multiset(sorted) == multiset(names - left)
    {
      var x :| x in left;
      InsertSortedSorted(x, sorted);
      InsertSortedElements(x, sorted);
      assert names - (left - {x}) == (names - left) + {x};
      sorted := InsertSorted(x, sorted);
      left := left - {x};
    }
    assert names - left == names;
    SortedNamesSpec(names);
    SortedUnique(sorted, SortedNames(names));
  }

  /** The sections when `out` and `rest` are what is placed and what is still to come. */
  function Placing(out: seq<Section>, rest: seq<Section>, blocks: Blocks, prune: bool): seq<Section> {
    out + AllPlaced(rest, blocks, prune)
  }

  lemma PlaceStep(out: seq<Section>, secs: seq<Section>, k: nat, blocks: Blocks, prune: bool)
    requires k < |secs|
    ensures Placing(out, secs[k..], blocks, prune)
            == Placing(out + Placed(secs[k], blocks, prune), secs[k + 1..], blocks, prune)
    ensures Seen(secs[k..], blocks) == SeenOne(secs[k], blocks) + Seen(secs[k + 1..], blocks)
  {
    SuffixStep(secs, k);
    SeenAppend([secs[k]], secs[k + 1..], blocks);
    SeenSingle(secs[k], blocks);
    HeadTail(secs[k..]);
    Assoc(out, Placed(secs[k], blocks, prune), AllPlaced(secs[k + 1..], blocks, prune));
  }

  /** The loop's body. */
  method PlaceOne(s: Section, blocks: Blocks, prune: bool) returns (placed: seq<Section>, seen: set<string>)
    ensures placed == Placed(s, blocks, prune) && seen == SeenOne(s, blocks)
  {
    var profile := Profile(s.name);
    if profile.Some? && profile.value in blocks {
      return [RenderSection(profile.value, blocks[profile.value])], {profile.value};
    }
    if prune && Owned(s.name) && profile != Some("current") && profile != Some("operator-org") {
      return [], {};
    }
    return [s], {};
  }

  method PlaceAll(secs: seq<Section>, blocks: Blocks, prune: bool) returns (out: seq<Section>, seen: set<string>)
    ensures out == AllPlaced(secs, blocks, prune) && seen == Seen(secs, blocks)
  {
    out, seen := [], {};
    assert secs[0..] == secs;
    Nothing(AllPlaced(secs, blocks, prune));
    for k := 0 to |secs|
      invariant Placing(out, secs[k..], blocks, prune) == AllPlaced(secs, blocks, prune)
      invariant seen + Seen(secs[k..], blocks) == Seen(secs, blocks)
    {
      PlaceStep(out, secs, k, blocks, prune);
      var placed, shown := PlaceOne(secs[k], blocks, prune);
      out, seen := out + placed, seen + shown;
    }
    Nothing(out);
  }

  method AppendMissing(closed: string, missing: seq<string>, blocks: Blocks) returns (body: string)
    requires forall i :: 0 <= i < |missing| ==> missing[i] in blocks
    ensures body == closed + Text(RenderAll(missing, blocks))
  {
    body := closed;
    assert missing[0..] == missing;
    for k := 0 to |missing|
      invariant body + Text(RenderAll(missing[k..], blocks)) == closed + Text(RenderAll(missing, blocks))
    {
      var p := missing[k];
      SuffixStep(missing, k);
      var s, later := RenderSection(p, blocks[p]), RenderAll(missing[k + 1..], blocks);
      DropHead(s, later);
      ConcatAppend(s.lines, AllLines(later));
      Assoc(body, Concat(s.lines), Text(later));
      body := body + Concat(Render(p, blocks[p]));
    }
    Nothing(body);
  }

  lemma CloseText(secs: seq<Section>)
    requires secs != []
    ensures Text(Close(secs)) == Text(secs) + Closing(Text(secs))
  {
    CloseCases(secs);
    Nothing(Text(secs));
    EndBreakText(secs);
    EndBreakText(EndBreak(secs));
    Assoc(Text(secs), "\n", "\n");
    TwoBreaks();
  }

  /** The two checks before the missing blocks are appended. */
  method CloseBody(open: string) returns (body: string)
    ensures body == open + Closing(open)
  {
    body := open;
    Nothing(open);
    if body != [] && !EndsWith(body, "\n") {
      if EndsWith(body, "\n\n") { EndsShorter(body); }
      OneBreak(body);
      Assoc(body, "\n", "\n");
      TwoBreaks();
      body := body + "\n";
    }
    if body != [] && !EndsWith(body, "\n\n") {
      body := body + "\n";
    }
  }

  lemma TextAppend(a: seq<Section>, b: seq<Section>)
    ensures Text(a + b) == Text(a) + Text(b)
  {
    AllLinesAppend(a, b);
    ConcatAppend(AllLines(a), AllLines(b));
  }

  /** merge(), the loops. */
  method MergeLoop(text: string, blocks: Blocks, prune: bool) returns (body: string)
    ensures body == Merge(text, blocks, prune)
  {
    var sections := SplitSectionsLoop(text);
    var out, seen := PlaceAll(sections, blocks, prune);
    SplitSectionsSpec(text);
    PlacedFirst(sections, blocks, prune);
    body := Text(out);
    var missing := SortNames(blocks.Keys - seen);
    MissingInBlocks(sections, blocks);
    assert missing == Missing(sections, blocks);
    if missing != [] {
      CloseText(out);
      TextAppend(Close(out), RenderAll(missing, blocks));
      body := CloseBody(body);
      body := AppendMissing(body, missing, blocks);
    }
  }

  /** The file on disk; none is written until a merge changes something. */
  class ConfigFile {
    var content: Option<string>

    constructor (content: Option<string>)
      ensures this.content == content
    {
      this.content := content;
    }

    function Current(): string reads this {
      if content.Some? then content.value else []
    }

    /** write(): the answer is whether the bytes changed, and after it a second write changes none. */
    method Write(blocks: Blocks, prune: bool) returns (changed: bool)
      modifies this
      ensures Current() == Merge(old(Current()), blocks, prune)
      ensures changed <==> Current() != old(Current())
      ensures !changed ==> content == old(content)
      ensures BlocksOk(blocks) ==> Merge(Current(), blocks, prune) == Current()
    {
      var before := Current();
      var after := MergeLoop(before, blocks, prune);
      if BlocksOk(blocks) {
        MergeIdempotent(before, blocks, prune);
      }
      if after == before {
        return false;
      }
      content := Some(after);
      changed := true;
    }
  }
}
