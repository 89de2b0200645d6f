/** The inverted profile index, prod/optimizer/lambdas/_helpers.py, kept by the stream of profile writes,
    prod/optimizer/lambdas/reindex/main.py. */
module ProfileIndex {
  import opened Common
  import Strings

  // ----- keys -----

  /** An element of a value: its text, or the code of a measured one. */
  datatype Element = Plain(text: string) | Coded(code: string)

  datatype Value = Null | One(element: Element) | Many(elements: seq<Element>)

  type Profile = map<string, Value>

  function ElementsOf(profile: Profile, field: string): seq<Element> {
    if field !in profile then [] else
      match profile[field]
      case Null => []
      case One(e) => if e == Plain("") then [] else [e]
      case Many(es) => es
  }

  /** strip().lower(). */
  function Clean(s: string): string {
    Strings.Lower(Strings.Strip(s))
  }

  function TextOf(e: Element): string {
    Clean(match e case Plain(text) => text case Coded(code) => code)
  }

  function Texts(es: seq<Element>): (ts: seq<string>)
    ensures |ts| == |es| && forall i :: 0 <= i < |es| ==> ts[i] == TextOf(es[i])
  {
    seq(|es|, i requires 0 <= i < |es| => TextOf(es[i]))
  }

  function KeyFor(field: string, text: string): string {
    field + ("#" + text)
  }

  /** One key per text of a field, the empty ones left out. */
  function TextKeys(field: string, texts: seq<string>): set<string> {
    if texts == [] then {} else
      var last := texts[|texts| - 1];
      TextKeys(field, texts[..|texts| - 1]) + (if last != "" then {KeyFor(field, last)} else {})
  }

  function Keys(fields: seq<string>, profile: Profile): set<string> {
    if fields == [] then {} else
      var last := fields[|fields| - 1];
      Keys(fields[..|fields| - 1], profile) + TextKeys(last, Texts(ElementsOf(profile, last)))
  }

  /** index_keys(). */
  method IndexKeys(fields: seq<string>, profile: Profile) returns (keys: set<string>)
    ensures keys == Keys(fields, profile)
  {
    keys := {};
    for k := 0 to |fields|
      invariant keys == Keys(fields[..k], profile)
    {
      PrefixStep(fields, k);
      var some := FieldKeys(fields[k], Texts(ElementsOf(profile, fields[k])));
      keys := keys + some;
    }
    assert fields[..|fields|] == fields;
  }

  method FieldKeys(field: string, texts: seq<string>) returns (keys: set<string>)
    ensures keys == TextKeys(field, texts)
  {
    keys := {};
    for k := 0 to |texts|
      invariant keys == TextKeys(field, texts[..k])
    {
      PrefixStep(texts, k);
      if texts[k] != "" {
        keys := keys + {KeyFor(field, texts[k])};
      }
    }
    assert texts[..|texts|] == texts;
  }

  // ----- the index -----

  datatype Row = Row(key: string, pid: string)

  function RowsOf(keys: set<string>, pid: string): set<Row> {
    set k | k in keys :: Row(k, pid)
  }

  function Others(rows: set<Row>, pid: string): set<Row> {
    set r | r in rows && r.pid != pid
  }

  /** A profile's rows replaced by those of the given keys, every other profile's left as they are. */
  function Synced(rows: set<Row>, pid: string, keys: set<string>): set<Row> {
    Others(rows, pid) + RowsOf(keys, pid)
  }

  /** The profiles a query finds. */
  function Found(rows: set<Row>, query: string): set<string> {
    set r | r in rows && r.key == Clean(query) :: r.pid
  }

  class IndexTable {
    const fields: seq<string>
    var rows: set<Row>

    constructor (fields: seq<string>)
      ensures this.fields == fields && rows == {}
    {
      this.fields := fields;
      rows := {};
    }

    /** The keys a profile is under now. */
    method Have(pid: string) returns (have: set<string>)
      ensures forall k :: k in have <==> Row(k, pid) in rows
    {
      have := set r | r in rows && r.pid == pid :: r.key;
      assert forall k :: Row(k, pid) in rows ==> Row(k, pid).key in have;
    }

    method Delete(pid: string, keys: set<string>)
      modifies this
      ensures rows == old(rows) - RowsOf(keys, pid)
    {
      var rest := keys;
      while rest != {}
        invariant rest <= keys
        invariant rows == old(rows) - RowsOf(keys - rest, pid)
        decreases rest
      {
        var k :| k in rest;
        assert RowsOf(keys - (rest - {k}), pid) == RowsOf(keys - rest, pid) + {Row(k, pid)};
        rows := rows - {Row(k, pid)};
        rest := rest - {k};
      }
      assert keys - rest == keys;
    }

    method Put(pid: string, keys: set<string>)
      modifies this
      ensures rows == old(rows) + RowsOf(keys, pid)
    {
      var rest := keys;
      while rest != {}
        invariant rest <= keys
        invariant rows == old(rows) + RowsOf(keys - rest, pid)
        decreases rest
      {
        var k :| k in rest;
        assert RowsOf(keys - (rest - {k}), pid) == RowsOf(keys - rest, pid) + {Row(k, pid)};
        rows := rows + {Row(k, pid)};
        rest := rest - {k};
      }
      assert keys - rest == keys;
    }

    method Reindex(pid: string, profile: Profile)
      modifies this
      ensures rows == Synced(old(rows), pid, Keys(fields, profile))
    {
      var want := IndexKeys(fields, profile);
      var have := Have(pid);
      Delete(pid, have - want);
      Put(pid, want - have);
    }

    method Deindex(pid: string)
      modifies this
      ensures rows == Synced(old(rows), pid, {})
    {
      var have := Have(pid);
      Delete(pid, have);
    }

    method QueryIndex(query: string) returns (pids: set<string>)
      ensures pids == Found(rows, query)
      ensures forall pid :: pid in pids <==> Row(Clean(query), pid) in rows
    {
      pids := set r | r in rows && r.key == Clean(query) :: r.pid;
      assert forall pid :: Row(Clean(query), pid) in rows ==> Row(Clean(query), pid).pid in pids;
    }
  }

  // ----- runs -----

  datatype Step = Publish(pid: string, profile: Profile) | Retire(pid: string)

  function Perform(fields: seq<string>, rows: set<Row>, step: Step): set<Row> {
    match step
    case Publish(pid, profile) => Synced(rows, pid, Keys(fields, profile))
    case Retire(pid) => Synced(rows, pid, {})
  }

  function Run(fields: seq<string>, steps: seq<Step>): set<Row> {
    if steps == [] then {} else Perform(fields, Run(fields, steps[..|steps| - 1]), steps[|steps| - 1])
  }

  /** A profile as last published, unless retired since. */
  function Live(steps: seq<Step>, pid: string): Option<Profile> {
    if steps == [] then None else
      var last := steps[|steps| - 1];
      if last.pid == pid then (if last.Publish? then Some(last.profile) else None)
      else Live(steps[..|steps| - 1], pid)
  }

  /** After any run of publishes and retires the index has exactly the keys of the live profiles. */
  lemma {:induction false} IndexIff(fields: seq<string>, steps: seq<Step>, key: string, pid: string)
    ensures Row(key, pid) in Run(fields, steps)
            <==> Live(steps, pid).Some? && key in Keys(fields, Live(steps, pid).value)
  {
    if steps != [] {
      IndexIff(fields, steps[..|steps| - 1], key, pid);
    }
  }

  /** A query returns exactly the live profiles whose keys contain what it asks for, cleaned. */
  lemma QueryIff(fields: seq<string>, steps: seq<Step>, query: string, pid: string)
    ensures pid in Found(Run(fields, steps), query)
            <==> Live(steps, pid).Some? && Clean(query) in Keys(fields, Live(steps, pid).value)
  {
    IndexIff(fields, steps, Clean(query), pid);
    var rows := Run(fields, steps);
    assert pid in Found(rows, query) <==> Row(Clean(query), pid) in rows;
  }

  /** A step leaves every other profile's rows as they are, and taking it twice is taking it once. */
  lemma StepKeepsOthers(fields: seq<string>, rows: set<Row>, step: Step)
    ensures forall r: Row :: r.pid != step.pid ==> (r in Perform(fields, rows, step) <==> r in rows)
    ensures Perform(fields, Perform(fields, rows, step), step) == Perform(fields, rows, step)
  {
  }

  // ----- which keys can be asked for -----

  /** A field name without upper-case letters that does not begin with a space. */
  predicate PlainField(f: string) {
    (f == "" || !Strings.IsSpace(f[0])) && forall i :: 0 <= i < |f| ==> !Strings.IsUpper(f[i])
  }

  lemma LowerSame(s: string)
    requires forall i :: 0 <= i < |s| ==> !Strings.IsUpper(s[i])
    ensures Strings.Lower(s) == s
  {
  }

  /** What cleaning gives, and leaves as it is. */
  ghost predicate Cleaned(s: string) {
    Strings.Trimmed(s) && forall i :: 0 <= i < |s| ==> !Strings.IsUpper(s[i])
  }

  lemma CleanCleans(s: string)
    ensures Cleaned(Clean(s))
  {
    Strings.StripTrims(s);
    LowerTrimmed(Strings.Strip(s));
  }

  lemma LowerTrimmed(s: string)
    requires Strings.Trimmed(s)
    ensures Strings.Trimmed(Strings.Lower(s))
  {
  }

  lemma CleanedStays(s: string)
    requires Cleaned(s)
    ensures Clean(s) == s
  {
    Strings.StripTrimmed(s);
    LowerSame(s);
  }

  lemma KeyCleaned(field: string, text: string)
    requires PlainField(field) && Cleaned(text) && text != ""
    ensures Cleaned(KeyFor(field, text))
  {
    var key := KeyFor(field, text);
    assert key[0] == (if field == "" then '#' else field[0]) && key[|key| - 1] == text[|text| - 1];
  }

  lemma {:induction false} TextKeysClean(field: string, texts: seq<string>, key: string)
    requires PlainField(field) && key in TextKeys(field, texts)
    requires forall i :: 0 <= i < |texts| ==> Cleaned(texts[i])
    ensures Cleaned(key)
    decreases |texts|
  {
    var n := |texts| - 1;
    if key in TextKeys(field, texts[..n]) {
      TextKeysClean(field, texts[..n], key);
    } else {
      KeyCleaned(field, texts[n]);
    }
  }

  /** Under plain field names every key of every profile is as cleaning leaves it. */
  lemma {:induction false} KeysClean(fields: seq<string>, profile: Profile, key: string)
    requires forall i :: 0 <= i < |fields| ==> PlainField(fields[i])
    requires key in Keys(fields, profile)
    ensures Cleaned(key)
    decreases |fields|
  {
    var n := |fields| - 1;
    if key in Keys(fields[..n], profile) {
      KeysClean(fields[..n], profile, key);
    } else {
      var es := ElementsOf(profile, fields[n]);
      var texts := Texts(es);
      forall i | 0 <= i < |texts| ensures Cleaned(texts[i]) {
        CleanCleans(match es[i] case Plain(text) => text case Coded(code) => code);
      }
      TextKeysClean(fields[n], texts, key);
    }
  }

  /** query_index(k) returns exactly the live profiles whose index_keys contain k, for every key there is. */
  lemma QueryExact(fields: seq<string>, steps: seq<Step>, profile: Profile, key: string, pid: string)
    requires forall i :: 0 <= i < |fields| ==> PlainField(fields[i])
    requires key in Keys(fields, profile)
    ensures pid in Found(Run(fields, steps), key)
            <==> Live(steps, pid).Some? && key in Keys(fields, Live(steps, pid).value)
  {
    KeysClean(fields, profile, key);
    CleanedStays(key);
    QueryIff(fields, steps, key, pid);
  }

  lemma PlainOfCleaned(field: string, text: string)
    requires Cleaned(KeyFor(field, text))
    ensures PlainField(field)
  {
    assert forall i :: 0 <= i < |field| ==> KeyFor(field, text)[i] == field[i];
  }

  /** Some query asks for the key. */
  ghost predicate Askable(key: string) {
    exists query :: Clean(query) == key
  }

  lemma AskableIsCleaned(key: string)
    ensures Askable(key) <==> Cleaned(key)
  {
    if Cleaned(key) {
      CleanedStays(key);
    }
    if query :| Clean(query) == key {
      CleanCleans(query);
    }
  }

  /** The key of a text, as index_keys cleans it, can be asked for exactly when its field is plain: under any other
      field name it is stored and no query finds it. */
  lemma AskedIff(field: string, text: string)
    requires Cleaned(text) && text != ""
    ensures Askable(KeyFor(field, text)) <==> PlainField(field)
  {
    AskableIsCleaned(KeyFor(field, text));
    if PlainField(field) {
      KeyCleaned(field, text);
    }
    if Cleaned(KeyFor(field, text)) {
      PlainOfCleaned(field, text);
    }
  }
}
