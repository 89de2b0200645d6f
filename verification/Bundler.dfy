/** The lambda bundler, scripts/deploy.py: the import graph is the manifest of a zip. */
module Bundler {
  import opened Common

  type Name = string
  type Dir = string

  datatype File = File(dir: Dir, stem: Name)

  /** The checkout as the bundler sees it: which .py files exist, what each imports once the names the
      runtime provides are taken out (in sorted order), the directories the cross-module search visits
      (in sorted order), and the names found in a module's vendor tree. */
  datatype Repo = Repo(files: set<File>, imports: map<File, seq<Name>>, shared: seq<Dir>, vendored: map<Dir, set<Name>>)

  datatype Refusal = Ambiguous(at: File, name: Name) | Unresolvable(at: File, name: Name)

  datatype Found = Local(file: File) | Vendored | Refused(why: Refusal)

  function ImportsOf(repo: Repo, f: File): seq<Name> {
    if f in repo.imports then repo.imports[f] else []
  }

  /** The first existing candidate, in order. */
  function FirstHit(repo: Repo, dirs: seq<Dir>, name: Name): Option<File> {
    if dirs == [] then None
    else if File(dirs[0], name) in repo.files then Some(File(dirs[0], name))
    else FirstHit(repo, dirs[1..], name)
  }

  function GlobbedHits(repo: Repo, positional: seq<Dir>, name: Name): set<File> {
    set d | d in repo.shared && d !in positional && File(d, name) in repo.files :: File(d, name)
  }

  /** Where an import of one file resolves: its own directory, the lambdas root and the module root, in
      that order; then the cross-module directories, where one match at most may exist; then the vendor
      tree. */
  function Resolve(repo: Repo, at: File, name: Name, lambdasRoot: Dir, moduleRoot: Dir): Found {
    var positional := [at.dir, lambdasRoot, moduleRoot];
    match FirstHit(repo, positional, name)
    case Some(file) => Local(file)
    case None =>
      if |GlobbedHits(repo, positional, name)| > 1 then Refused(Ambiguous(at, name))
      else match FirstHit(repo, repo.shared, name)
        case Some(file) => Local(file)
        case None =>
          if moduleRoot in repo.vendored && name in repo.vendored[moduleRoot] then Vendored
          else Refused(Unresolvable(at, name))
  }

  lemma {:induction false} FirstHitExists(repo: Repo, dirs: seq<Dir>, name: Name)
    ensures match FirstHit(repo, dirs, name)
            case Some(file) => file in repo.files && file.stem == name && file.dir in dirs
            case None => forall d :: d in dirs ==> File(d, name) !in repo.files
  {
    if dirs != [] {
      FirstHitExists(repo, dirs[1..], name);
      assert dirs == [dirs[0]] + dirs[1..];
    }
  }

  /** Every stem a resolved file can have. */
  function Stems(repo: Repo): set<Name> {
    set f | f in repo.files :: f.stem
  }

  lemma ResolveLocal(repo: Repo, at: File, name: Name, lambdasRoot: Dir, moduleRoot: Dir)
    requires Resolve(repo, at, name, lambdasRoot, moduleRoot).Local?
    ensures var f := Resolve(repo, at, name, lambdasRoot, moduleRoot).file;
            f in repo.files && f.stem == name && name in Stems(repo)
  {
    FirstHitExists(repo, [at.dir, lambdasRoot, moduleRoot], name);
    FirstHitExists(repo, repo.shared, name);
  }

  lemma RefusedIsOwn(repo: Repo, at: File, name: Name, lambdasRoot: Dir, moduleRoot: Dir)
    requires Resolve(repo, at, name, lambdasRoot, moduleRoot).Refused?
    ensures var why := Resolve(repo, at, name, lambdasRoot, moduleRoot).why; why.at == at && why.name == name
  {
  }

  // ----- what a walk collects -----

  datatype Scope = Scope(repo: Repo, lambdasRoot: Dir, moduleRoot: Dir)

  function Lookup(sc: Scope, at: File, name: Name): Found {
    Resolve(sc.repo, at, name, sc.lambdasRoot, sc.moduleRoot)
  }

  /** The imports of each file and where it finds each: all that a walk goes by. */
  datatype Graph = Graph(imports: File -> seq<Name>, found: (File, Name) -> Found)

  function GraphOf(sc: Scope): Graph {
    Graph(f => ImportsOf(sc.repo, f), (f, name) => Lookup(sc, f, name))
  }

  /** The shared seen: a file for each resolved name, and whether the vendor tree is needed. */
  datatype Bag = Bag(seen: map<Name, File>, vendor: bool)

  /** The name that a file imports is in the bag, or it is the vendor tree's and that rides along. */
  predicate Carried(code: Graph, bag: Bag, at: File, name: Name) {
    name in bag.seen || (bag.vendor && code.found(at, name) == Vendored)
  }

  /** Every import of a file is bundled by name or found in the vendor tree that rides along. */
  predicate Closed(code: Graph, bag: Bag, at: File) {
    AllCarried(code, bag, at, code.imports(at))
  }

  /** The first file imports the second by its stem and finds it there. */
  predicate Links(code: Graph, f: File, g: File) {
    g.stem in code.imports(f) && code.found(f, g.stem) == Local(g)
  }

  ghost predicate IsChain(code: Graph, roots: set<File>, chain: seq<File>) {
    && chain != [] && chain[0] in roots
    && forall i :: 0 <= i < |chain| - 1 ==> Links(code, chain[i], chain[i + 1])
  }

  /** A chain of imports leads from one of the lambda's own files to the file. */
  ghost predicate Reached(code: Graph, roots: set<File>, f: File) {
    exists chain :: IsChain(code, roots, chain) && chain[|chain| - 1] == f
  }

  lemma RootReached(code: Graph, roots: set<File>, f: File)
    requires f in roots
    ensures Reached(code, roots, f)
  {
    assert IsChain(code, roots, [f]);
  }

  lemma LinkReached(code: Graph, roots: set<File>, f: File, g: File)
    requires Reached(code, roots, f) && Links(code, f, g)
    ensures Reached(code, roots, g)
  {
    var chain :| IsChain(code, roots, chain) && chain[|chain| - 1] == f;
    assert IsChain(code, roots, chain + [g]);
  }

  /** Some reached file imports a name that only the vendor tree has. */
  ghost predicate NeedsVendor(code: Graph, roots: set<File>) {
    exists f, name :: Reached(code, roots, f) && name in code.imports(f) && code.found(f, name) == Vendored
  }

  /** Every file of the bag is reached, and the vendor tree rides along only when a reached file needs it. */
  ghost predicate AllJustified(code: Graph, bag: Bag, roots: set<File>) {
    && (forall name :: name in bag.seen ==>
          bag.seen[name].stem == name && Reached(code, roots, bag.seen[name]))
    && (bag.vendor ==> NeedsVendor(code, roots))
  }

  /** A later bag keeps an earlier one's files and is closed for every file it adds. */
  ghost predicate Grew(code: Graph, before: Bag, after: Bag) {
    && (forall n :: n in before.seen ==> n in after.seen && after.seen[n] == before.seen[n])
    && (before.vendor ==> after.vendor)
    && (forall n :: n in after.seen && n !in before.seen ==> Closed(code, after, after.seen[n]))
  }

  lemma GrewCarries(code: Graph, before: Bag, after: Bag, at: File, name: Name)
    requires Grew(code, before, after) && Carried(code, before, at, name)
    ensures Carried(code, after, at, name)
  {
  }

  lemma GrewTransitive(code: Graph, a: Bag, b: Bag, c: Bag)
    requires Grew(code, a, b) && Grew(code, b, c)
    ensures Grew(code, a, c)
  {
    forall n | n in c.seen && n !in a.seen ensures Closed(code, c, c.seen[n]) {
      if n in b.seen {
        forall name | name in code.imports(b.seen[n]) ensures Carried(code, c, b.seen[n], name) {
          GrewCarries(code, b, c, b.seen[n], name);
        }
      }
    }
  }

  lemma AddJustified(code: Graph, bag: Bag, roots: set<File>, at: File, name: Name, file: File)
    requires AllJustified(code, bag, roots) && name !in bag.seen && Reached(code, roots, at)
    requires name in code.imports(at) && code.found(at, name) == Local(file) && file.stem == name
    ensures AllJustified(code, bag.(seen := bag.seen[name := file]), roots) && Reached(code, roots, file)
  {
    LinkReached(code, roots, at, file);
  }

  lemma VendorJustified(code: Graph, bag: Bag, roots: set<File>, at: File, name: Name)
    requires AllJustified(code, bag, roots) && Reached(code, roots, at)
    requires name in code.imports(at) && code.found(at, name) == Vendored
    ensures AllJustified(code, bag.(vendor := true), roots) && Grew(code, bag, bag.(vendor := true))
  {
  }

  lemma AddGrew(code: Graph, before: Bag, after: Bag, name: Name, file: File)
    requires name !in before.seen && Grew(code, before.(seen := before.seen[name := file]), after)
             && Closed(code, after, file)
    ensures Grew(code, before, after) && name in after.seen
  {
    var more := before.(seen := before.seen[name := file]);
    assert more.seen[name] == file;
    forall n | n in before.seen ensures n in after.seen && after.seen[n] == before.seen[n] {
      assert n in more.seen && more.seen[n] == before.seen[n];
    }
  }

  /** A refusal is a real one: a reached file imports the name, and it resolves to nothing or to more than one
      file. */
  ghost predicate Real(code: Graph, roots: set<File>, why: Refusal) {
    && Reached(code, roots, why.at)
    && why.name in code.imports(why.at) && code.found(why.at, why.name) == Refused(why)
  }

  /** The names a walk can still add: it ends because each file it enters takes one of them. */
  function Todo(sc: Scope, bag: Bag): set<Name> {
    Stems(sc.repo) - bag.seen.Keys
  }

  lemma TodoShrinks(sc: Scope, bag: Bag, name: Name, file: File)
    requires name in Stems(sc.repo) && name !in bag.seen
    ensures Todo(sc, bag.(seen := bag.seen[name := file])) < Todo(sc, bag)
  {
    assert name in Todo(sc, bag) && name !in Todo(sc, bag.(seen := bag.seen[name := file]));
  }

  lemma TodoNeverGrows(sc: Scope, before: Bag, after: Bag)
    requires Grew(GraphOf(sc), before, after)
    ensures Todo(sc, after) <= Todo(sc, before)
  {
  }

  predicate AllCarried(code: Graph, bag: Bag, at: File, names: seq<Name>) {
    forall name :: name in names ==> Carried(code, bag, at, name)
  }

  lemma ImportStep(code: Graph, start: Bag, before: Bag, after: Bag, at: File, names: seq<Name>)
    requires Grew(code, start, before) && Grew(code, before, after) && AllCarried(code, before, at, names)
    ensures Grew(code, start, after) && AllCarried(code, after, at, names)
  {
    GrewTransitive(code, start, before, after);
  }

  // ----- the walk -----

  class Walk {
    const sc: Scope
    var bag: Bag

    constructor (sc: Scope)
      ensures this.sc == sc && bag == Bag(map[], false)
    {
      this.sc := sc;
      bag := Bag(map[], false);
    }

    /** _local_imports: the depth-first walk over a shared seen. Every file the call adds has all its
        imports carried by the time it returns, also through cyclic imports. */
    method LocalImports(at: File, ghost roots: set<File>) returns (refusal: Option<Refusal>)
      requires AllJustified(GraphOf(sc), bag, roots) && Reached(GraphOf(sc), roots, at)
      modifies this
      ensures AllJustified(GraphOf(sc), bag, roots)
      ensures refusal.None? ==> Closed(GraphOf(sc), bag, at) && Grew(GraphOf(sc), old(bag), bag)
      ensures refusal.Some? ==> Real(GraphOf(sc), roots, refusal.value)
      decreases Todo(sc, bag), 1
    {
      var names := ImportsOf(sc.repo, at);
      for k := 0 to |names|
        invariant AllJustified(GraphOf(sc), bag, roots)
        invariant Grew(GraphOf(sc), old(bag), bag) && Todo(sc, bag) <= Todo(sc, old(bag))
        invariant AllCarried(GraphOf(sc), bag, at, names[..k])
      {
        ghost var before := bag;
        refusal := Import(at, names[k], roots);
        if refusal.Some? {
          return;
        }
        ImportStep(GraphOf(sc), old(bag), before, bag, at, names[..k]);
        TodoNeverGrows(sc, before, bag);
        PrefixStep(names, k);
      }
      assert names[..|names|] == names;
      refusal := None;
    }

    /** One pass of the loop's body. */
    method Import(at: File, name: Name, ghost roots: set<File>) returns (refusal: Option<Refusal>)
      requires AllJustified(GraphOf(sc), bag, roots) && Reached(GraphOf(sc), roots, at)
      requires name in ImportsOf(sc.repo, at)
      modifies this
      ensures AllJustified(GraphOf(sc), bag, roots)
      ensures refusal.None? ==> Carried(GraphOf(sc), bag, at, name) && Grew(GraphOf(sc), old(bag), bag)
      ensures refusal.Some? ==> Real(GraphOf(sc), roots, refusal.value)
      decreases Todo(sc, bag), 0
    {
      if name in bag.seen {
        return None;
      }
      match Lookup(sc, at, name) {
        case Refused(why) =>
          RefusedIsOwn(sc.repo, at, name, sc.lambdasRoot, sc.moduleRoot);
          return Some(why);
        case Vendored =>
          VendorJustified(GraphOf(sc), bag, roots, at, name);
          bag := bag.(vendor := true);
          return None;
        case Local(file) =>
          ResolveLocal(sc.repo, at, name, sc.lambdasRoot, sc.moduleRoot);
          AddJustified(GraphOf(sc), bag, roots, at, name, file);
          TodoShrinks(sc, bag, name, file);
          ghost var before := bag;
          bag := bag.(seen := bag.seen[name := file]);
          assert bag.seen[name] == file;
          refusal := LocalImports(file, roots);
          if refusal.None? {
            AddGrew(GraphOf(sc), before, bag, name, file);
          }
      }
    }
  }

  // ----- build_py -----

  /** The zip's Python files by archive name: the lambda directory's own files win over the resolved
      file of the same name. */
  datatype Zip = Zip(entries: map<Name, File>, vendor: bool)

  function Files(root: seq<File>): set<File> {
    set f | f in root
  }

  predicate DistinctStems(root: seq<File>) {
    forall i, j :: 0 <= i < j < |root| ==> root[i].stem != root[j].stem
  }

  function Own(root: seq<File>): map<Name, File> {
    if root == [] then map[] else Own(root[..|root| - 1])[root[|root| - 1].stem := root[|root| - 1]]
  }

  lemma {:induction false} OwnHolds(root: seq<File>)
    requires DistinctStems(root)
    ensures forall i :: 0 <= i < |root| ==> root[i].stem in Own(root) && Own(root)[root[i].stem] == root[i]
    ensures forall n :: n in Own(root) ==> Own(root)[n] in root && Own(root)[n].stem == n
  {
    if root != [] {
      var last := |root| - 1;
      OwnHolds(root[..last]);
      assert forall i :: 0 <= i < last ==> root[..last][i] == root[i];
      assert root == root[..last] + [root[last]];
    }
  }

  /** Every file of the lambda's own directory is the entry of its name. */
  ghost predicate HasOwn(zip: Zip, root: seq<File>) {
    forall i :: 0 <= i < |root| ==> root[i].stem in zip.entries && zip.entries[root[i].stem] == root[i]
  }

  /** Every import of every entry is an entry, or the vendor tree's, which rides along. */
  ghost predicate ZipClosed(code: Graph, zip: Zip) {
    forall n, name :: n in zip.entries && name in code.imports(zip.entries[n]) ==>
      name in zip.entries || (zip.vendor && code.found(zip.entries[n], name) == Vendored)
  }

  /** Every entry is a file of its name that the lambda's own files reach. */
  ghost predicate ZipReached(code: Graph, roots: set<File>, zip: Zip) {
    forall n :: n in zip.entries ==> zip.entries[n].stem == n && Reached(code, roots, zip.entries[n])
  }

  lemma BuiltCloses(code: Graph, root: seq<File>, bag: Bag, zip: Zip)
    requires DistinctStems(root) && zip == Zip(bag.seen + Own(root), bag.vendor)
    requires forall i :: 0 <= i < |root| ==> Closed(code, bag, root[i])
    requires forall n :: n in bag.seen ==> Closed(code, bag, bag.seen[n])
    ensures HasOwn(zip, root) && ZipClosed(code, zip)
  {
    OwnHolds(root);
    forall n | n in zip.entries ensures Closed(code, bag, zip.entries[n]) {
      if n in Own(root) {
        assert Own(root)[n] in root;
      }
    }
    forall n, name | n in zip.entries && name in code.imports(zip.entries[n])
      ensures name in zip.entries || (zip.vendor && code.found(zip.entries[n], name) == Vendored)
    {
      assert Carried(code, bag, zip.entries[n], name);
    }
  }

  lemma BuiltReaches(code: Graph, root: seq<File>, bag: Bag, zip: Zip)
    requires DistinctStems(root) && zip == Zip(bag.seen + Own(root), bag.vendor)
    requires AllJustified(code, bag, Files(root))
    ensures ZipReached(code, Files(root), zip)
  {
    OwnHolds(root);
    forall n | n in zip.entries ensures zip.entries[n].stem == n && Reached(code, Files(root), zip.entries[n]) {
      if n in Own(root) {
        assert Own(root)[n] in root;
        RootReached(code, Files(root), Own(root)[n]);
      }
    }
  }

  // ----- one file a name -----

  predicate ServedAs(zip: Zip, found: Found, name: Name) {
    match found
    case Local(file) => name in zip.entries && zip.entries[name] == file
    case Vendored => name !in zip.entries && zip.vendor
    case Refused(_) => false
  }

  /** Every import of every entry is served as it resolves: a local file is the entry of its name, and a name of the
      vendor tree is no entry's. */
  ghost predicate Served(code: Graph, zip: Zip) {
    forall n, name :: n in zip.entries && name in code.imports(zip.entries[n]) ==>
      ServedAs(zip, code.found(zip.entries[n], name), name)
  }

  /** What a reached file imports is there to find, and no reached file has the name of what it finds in the vendor
      tree. */
  ghost predicate FindsAll(code: Graph, roots: set<File>, f: File) {
    forall name :: name in code.imports(f) ==>
      match code.found(f, name)
      case Local(_) => true
      case Vendored => forall h :: Reached(code, roots, h) ==> h.stem != name
      case Refused(_) => false
  }

  /** No two files that the lambda's own reach share a name, and each finds what it imports. */
  ghost predicate OneFileAName(code: Graph, roots: set<File>) {
    && (forall f, h :: Reached(code, roots, f) && Reached(code, roots, h) && f.stem == h.stem ==> f == h)
    && (forall f :: Reached(code, roots, f) ==> FindsAll(code, roots, f))
  }

  predicate IsEntry(zip: Zip, f: File) {
    f.stem in zip.entries && zip.entries[f.stem] == f
  }

  /** A resolved file has the name that was imported. */
  ghost predicate NamedByStem(code: Graph) {
    forall f, name :: code.found(f, name).Local? ==> code.found(f, name).file.stem == name
  }

  lemma GraphNamed(sc: Scope)
    ensures NamedByStem(GraphOf(sc))
  {
    forall f, name | GraphOf(sc).found(f, name).Local? ensures GraphOf(sc).found(f, name).file.stem == name {
      ResolveLocal(sc.repo, f, name, sc.lambdasRoot, sc.moduleRoot);
    }
  }

  lemma LinkedIsEntry(code: Graph, zip: Zip, e: File, f: File)
    requires Served(code, zip) && IsEntry(zip, e) && Links(code, e, f)
    ensures IsEntry(zip, f)
  {
    assert ServedAs(zip, code.found(zip.entries[e.stem], f.stem), f.stem);
  }

  /** A reached file is the entry of its name, when every import is served. */
  lemma {:induction false} ReachedIsEntry(code: Graph, root: seq<File>, zip: Zip, chain: seq<File>)
    requires HasOwn(zip, root) && Served(code, zip) && IsChain(code, Files(root), chain)
    ensures IsEntry(zip, chain[|chain| - 1])
    decreases |chain|
  {
    var last := |chain| - 1;
    if last == 0 {
      var i :| 0 <= i < |root| && root[i] == chain[0];
    } else {
      ReachedIsEntry(code, root, zip, chain[..last]);
      assert chain[..last][last - 1] == chain[last - 1];
      LinkedIsEntry(code, zip, chain[last - 1], chain[last]);
    }
  }

  lemma ServedIsEntry(code: Graph, root: seq<File>, zip: Zip, f: File)
    requires HasOwn(zip, root) && Served(code, zip) && Reached(code, Files(root), f)
    ensures IsEntry(zip, f)
  {
    var chain :| IsChain(code, Files(root), chain) && chain[|chain| - 1] == f;
    ReachedIsEntry(code, root, zip, chain);
  }

  lemma ServedFinds(code: Graph, root: seq<File>, zip: Zip, f: File)
    requires HasOwn(zip, root) && Served(code, zip) && Reached(code, Files(root), f)
    ensures FindsAll(code, Files(root), f)
  {
    ServedIsEntry(code, root, zip, f);
    forall name | name in code.imports(f) ensures ServedAs(zip, code.found(f, name), name) {
      assert ServedAs(zip, code.found(zip.entries[f.stem], name), name);
    }
    forall h | Reached(code, Files(root), h) ensures IsEntry(zip, h) {
      ServedIsEntry(code, root, zip, h);
    }
  }

  lemma ServedHasOne(code: Graph, root: seq<File>, zip: Zip)
    requires HasOwn(zip, root) && Served(code, zip)
    ensures OneFileAName(code, Files(root))
  {
    forall f | Reached(code, Files(root), f) ensures IsEntry(zip, f) && FindsAll(code, Files(root), f) {
      ServedIsEntry(code, root, zip, f);
      ServedFinds(code, root, zip, f);
    }
  }

  lemma EntryServed(code: Graph, roots: set<File>, zip: Zip, n: Name, name: Name)
    requires NamedByStem(code) && ZipReached(code, roots, zip) && ZipClosed(code, zip) && OneFileAName(code, roots)
    requires n in zip.entries && name in code.imports(zip.entries[n])
    ensures ServedAs(zip, code.found(zip.entries[n], name), name)
  {
    var at := zip.entries[n];
    assert FindsAll(code, roots, at);
    match code.found(at, name) {
      case Local(file) =>
        LinkReached(code, roots, at, file);
      case Vendored =>
      case Refused(_) =>
    }
  }

  /** Every import of every bundled file is served as it resolves exactly when the lambda's files reach one file a
      name: the walk keeps one file for each name, whoever imports it. */
  lemma ServedIff(code: Graph, root: seq<File>, zip: Zip)
    requires NamedByStem(code) && HasOwn(zip, root)
    requires ZipReached(code, Files(root), zip) && ZipClosed(code, zip)
    ensures Served(code, zip) <==> OneFileAName(code, Files(root))
  {
    if Served(code, zip) {
      ServedHasOne(code, root, zip);
    }
    if OneFileAName(code, Files(root)) {
      forall n, name | n in zip.entries && name in code.imports(zip.entries[n])
        ensures ServedAs(zip, code.found(zip.entries[n], name), name)
      {
        EntryServed(code, Files(root), zip, n, name);
      }
    }
  }

  /** build_py: when it does not refuse, the zip is closed: whatever a bundled file imports that the
      runtime does not provide is an entry or in the vendor tree that rides along. No file rides along that
      the lambda's own do not reach, and the vendor tree only when a reached file needs it. Each import is served by
      the file it resolves to exactly when there is one reached file a name. */
  method BuildPy(sc: Scope, root: seq<File>) returns (result: Result<Zip, Refusal>)
    requires DistinctStems(root)
    ensures result.Failure? ==> Real(GraphOf(sc), Files(root), result.error)
    ensures result.Success? ==>
              var code, roots, zip := GraphOf(sc), Files(root), result.value;
              && HasOwn(zip, root) && ZipClosed(code, zip) && ZipReached(code, roots, zip)
              && (zip.vendor ==> NeedsVendor(code, roots))
              && (Served(code, zip) <==> OneFileAName(code, roots))
  {
    var walk := new Walk(sc);
    ghost var code, roots := GraphOf(sc), Files(root);
    for k := 0 to |root|
      invariant walk.sc == sc && AllJustified(code, walk.bag, roots)
      invariant forall i :: 0 <= i < k ==> Closed(code, walk.bag, root[i])
      invariant forall n :: n in walk.bag.seen ==> Closed(code, walk.bag, walk.bag.seen[n])
    {
      ghost var before := walk.bag;
      RootReached(code, roots, root[k]);
      var refusal := walk.LocalImports(root[k], roots);
      if refusal.Some? {
        return Failure(refusal.value);
      }
      forall i | 0 <= i < k ensures Closed(code, walk.bag, root[i]) {
        GrewStaysClosed(code, before, walk.bag, root[i]);
      }
      forall n | n in before.seen ensures Closed(code, walk.bag, before.seen[n]) {
        GrewStaysClosed(code, before, walk.bag, before.seen[n]);
      }
    }
    var zip := Zip(walk.bag.seen + Own(root), walk.bag.vendor);
    BuiltCloses(code, root, walk.bag, zip);
    BuiltReaches(code, root, walk.bag, zip);
    GraphNamed(sc);
    ServedIff(code, root, zip);
    result := Success(zip);
  }

  lemma GrewStaysClosed(code: Graph, before: Bag, after: Bag, at: File)
    requires Grew(code, before, after) && Closed(code, before, at)
    ensures Closed(code, after, at)
  {
  }
}
