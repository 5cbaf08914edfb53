/**
 * The dependency manager: collects the top-level modules a piece of code
 * imports, removes the standard library, and sorts the rest into packages
 * that must be installed (allowed, missing or too old) and conflicts (not
 * allowed); installs allowed packages at their pinned versions through an
 * installer; and keeps a per-function record of dependencies on disk.
 *
 * Package metadata, version parsing and pip are the environment's:
 * the installed-package snapshot is a map, version order a predicate
 * `older(a, b)` (`parse_version(a) < parse_version(b)`), and the installer a
 * predicate on the `name==version` spec telling whether pip succeeded.
 */
module Dependencies {
  import opened Base
  import opened PyAst

  /** `allowed_packages`: the pinned allow-list. */
  const AllowedPackages: map<string, string> :=
    map["pygame" := "2.5.0", "pillow" := "10.0.0", "numpy" := "1.24.0",
        "pandas" := "2.0.0", "matplotlib" := "3.7.0"]

  /** `name.split('.')[0]` */
  function TopLevel(name: string): (r: string)
    ensures '.' !in r
  {
    Split(name, '.')[0]
  }

  /** The top level of a dotted name is its first segment. */
  lemma TopLevelOfDotted(first: string, rest: string)
    requires '.' !in first
    ensures TopLevel(first + "." + rest) == first
    ensures TopLevel(first) == first
  {
    SplitAtFirst(first, rest, '.');
    SplitWithout(first, '.');
  }

  /** What one node contributes to `imports`. */
  function ImportsOf(k: Kind): set<string>
  {
    match k
    case Import(first, rest) => set x | x in [first] + rest :: TopLevel(x)
    case ImportFrom(source, _, _) =>
      if source.Some? && source.value != "" then {TopLevel(source.value)} else {}
    case _ => {}
  }

  /** The top-level modules imported by the nodes of `ns`. */
  function ImportsIn(ns: seq<Node>): set<string>
  {
    if |ns| == 0 then {} else ImportsIn(ns[..|ns| - 1]) + ImportsOf(ns[|ns| - 1].kind)
  }

  /** A node listed in the walk contributes its imports. */
  lemma {:induction false} ImportsInContains(ns: seq<Node>, i: nat)
    requires i < |ns|
    ensures ImportsOf(ns[i].kind) <= ImportsIn(ns)
  {
    if i < |ns| - 1 {
      ImportsInContains(ns[..|ns| - 1], i);
    }
  }

  /** Packages that analysis sees as external to the standard library. */
  function External(tree: Node, stdlib: set<string>): set<string>
  {
    ImportsIn(Walk(tree)) - stdlib
  }

  /** The loop over `ast.walk` collecting top-level import names. */
  method CollectImports(tree: Node) returns (imports: set<string>)
    ensures imports == ImportsIn(Walk(tree))
  {
    var nodes := Walk(tree);
    imports := {};
    var i := 0;
    while i < |nodes|
      invariant 0 <= i <= |nodes|
      invariant imports == ImportsIn(nodes[..i])
    {
      assert nodes[..i + 1][..i] == nodes[..i];
      match nodes[i].kind {
        case Import(first, rest) =>
          var added := AliasTops([first] + rest);
          imports := imports + added;
        case ImportFrom(source, _, _) =>
          if source.Some? && source.value != "" {
            imports := imports + {TopLevel(source.value)};
          }
        case _ =>
      }
      i := i + 1;
    }
    assert nodes[..i] == nodes;
  }

  /** The inner loop over the aliases of one `import` statement. */
  method AliasTops(names: seq<string>) returns (added: set<string>)
    ensures added == set x | x in names :: TopLevel(x)
  {
    added := {};
    var j := 0;
    while j < |names|
      invariant 0 <= j <= |names|
      invariant added == set x | x in names[..j] :: TopLevel(x)
    {
      assert names[..j + 1] == names[..j] + [names[j]];
      added := added + {TopLevel(names[j])};
      j := j + 1;
    }
    assert names[..j] == names;
  }

  /** The record kept per function in `dependencies.json`. */
  datatype DepRecord = DepRecord(dependencies: seq<string>, versions: map<string, string>)

  /** `name==version` for every allowed name of `deps`, in order: what pip is asked for. */
  function Requests(deps: seq<string>): (r: seq<string>)
    ensures |r| <= |deps|
  {
    if |deps| == 0 then []
    else
      var last := deps[|deps| - 1];
      Requests(deps[..|deps| - 1]) +
        (if last in AllowedPackages then [last + "==" + AllowedPackages[last]] else [])
  }

  /** The versions recorded for a dependency list: the pins of its allowed names. */
  function PinnedVersions(deps: seq<string>): (r: map<string, string>)
    ensures forall d :: d in r <==> d in deps && d in AllowedPackages
    ensures forall d :: d in r ==> r[d] == AllowedPackages[d]
  {
    map d | d in deps && d in AllowedPackages :: AllowedPackages[d]
  }

  class DependencyManager {
    /** `installed_packages`: package key to installed version. */
    var installed: map<string, string>
    /** `dependencies.json`: None while the file does not exist. */
    var depFile: Option<map<string, DepRecord>>

    constructor(snapshot: map<string, string>)
      ensures installed == snapshot && depFile == None
    {
      installed := snapshot;
      depFile := None;
    }

    /** An allowed package that is missing or older than its pin. */
    predicate NeedsInstall(dep: string, older: (string, string) -> bool)
      reads this
    {
      dep in AllowedPackages && (dep !in installed || older(installed[dep], AllowedPackages[dep]))
    }

    /** `analyze_dependencies`: a parse failure gives two empty lists; otherwise every
        external import is a requirement (allowed, missing or older than the pin), a
        conflict (not allowed) or neither (allowed and up to date), and never two. */
    method AnalyzeDependencies(parsed: Parsed, stdlib: set<string>, older: (string, string) -> bool)
      returns (required: seq<string>, conflicts: seq<string>)
      ensures parsed.SyntaxError? ==> required == [] && conflicts == []
      ensures parsed.Parsed? ==>
        (forall d :: d in required <==> d in External(parsed.tree, stdlib) && NeedsInstall(d, older)) &&
        (forall d :: d in conflicts <==> d in External(parsed.tree, stdlib) && d !in AllowedPackages)
      ensures forall d :: d in required ==> d !in conflicts
      ensures Distinct(required) && Distinct(conflicts)
    {
      if parsed.SyntaxError? {
        return [], [];
      }
      var imports := CollectImports(parsed.tree);
      required, conflicts := Classify(imports - stdlib, older);
    }

    /** Sorts external names into the two buckets, one name at a time in set order. */
    method Classify(external: set<string>, older: (string, string) -> bool)
      returns (required: seq<string>, conflicts: seq<string>)
      ensures forall d :: d in required <==> d in external && NeedsInstall(d, older)
      ensures forall d :: d in conflicts <==> d in external && d !in AllowedPackages
      ensures Distinct(required) && Distinct(conflicts)
    {
      required := [];
      conflicts := [];
      var remaining := external;
      while remaining != {}
        invariant remaining <= external
        invariant forall d :: d in required <==> d in external - remaining && NeedsInstall(d, older)
        invariant forall d :: d in conflicts <==> d in external - remaining && d !in AllowedPackages
        invariant Distinct(required) && Distinct(conflicts)
        decreases |remaining|
      {
        var dep :| dep in remaining;
        if dep in AllowedPackages {
          if dep !in installed {
            DistinctAppend(required, dep);
            required := required + [dep];
          } else if older(installed[dep], AllowedPackages[dep]) {
            DistinctAppend(required, dep);
            required := required + [dep];
          }
        } else {
          DistinctAppend(conflicts, dep);
          conflicts := conflicts + [dep];
        }
        remaining := remaining - {dep};
      }
    }

    /**
     * `install_dependencies`: asks pip for `name==pin` for each allowed name in
     * order, skipping the others. `attempted` lists the specs passed to pip. A
     * failure stops the loop and reports false with the snapshot kept;
     * otherwise the snapshot becomes `refreshed`, the environment's listing
     * after installation.
     */
    method InstallDependencies(deps: seq<string>, installer: string -> bool, refreshed: map<string, string>)
      returns (ok: bool, attempted: seq<string>)
      modifies this
      ensures depFile == old(depFile)
      ensures ok <==> forall s :: s in Requests(deps) ==> installer(s)
      ensures ok ==> attempted == Requests(deps) && installed == refreshed
      ensures !ok ==> installed == old(installed)
      ensures !ok ==> |attempted| > 0 && attempted <= Requests(deps) && !installer(attempted[|attempted| - 1])
      ensures !ok ==> forall k :: 0 <= k < |attempted| - 1 ==> installer(attempted[k])
    {
      attempted := [];
      var i := 0;
      while i < |deps|
        invariant 0 <= i <= |deps|
        invariant attempted == Requests(deps[..i])
        invariant forall s :: s in attempted ==> installer(s)
        invariant installed == old(installed)
      {
        assert deps[..i + 1][..i] == deps[..i];
        var package := deps[i];
        if package in AllowedPackages {
          var spec := package + "==" + AllowedPackages[package];
          attempted := attempted + [spec];
          if !installer(spec) {
            RequestsSplit(deps, i + 1);
            assert Requests(deps) == attempted + Requests(deps[i + 1..]);
            assert attempted[|attempted| - 1] == spec;
            assert spec in Requests(deps);
            ok := false;
            return;
          }
        }
        i := i + 1;
      }
      assert deps[..i] == deps;
      installed := refreshed;
      ok := true;
    }

    /** `save_function_dependencies`: overwrites this function's record, pinning only
        allowed names, and leaves every other record in the file as it was. */
    method SaveFunctionDependencies(functionName: string, dependencies: seq<string>)
      modifies this
      ensures installed == old(installed)
      ensures depFile == Some(GetOr(old(depFile), map[])[functionName := DepRecord(dependencies, PinnedVersions(dependencies))])
      ensures GetFunctionDependencies(functionName) == PinnedVersions(dependencies)
      ensures forall f :: f != functionName ==> GetFunctionDependencies(f) == old(GetFunctionDependencies(f))
    {
      var data := GetOr(depFile, map[]);
      data := data[functionName := DepRecord(dependencies, PinnedVersions(dependencies))];
      depFile := Some(data);
    }

    /** `get_function_dependencies`: the recorded pins, or nothing without a file or record. */
    function GetFunctionDependencies(functionName: string): (r: map<string, string>)
      reads this
      ensures depFile.None? ==> r == map[]
      ensures depFile.Some? && functionName !in depFile.value ==> r == map[]
    {
      match depFile
      case None => map[]
      case Some(data) => if functionName in data then data[functionName].versions else map[]
    }
  }

  /** The requests of two lists one after the other. */
  lemma {:induction false} RequestsAppend(a: seq<string>, b: seq<string>)
    ensures Requests(a + b) == Requests(a) + Requests(b)
    decreases |b|
  {
    if |b| == 0 {
      assert a + b == a;
    } else {
      RequestsAppend(a, b[..|b| - 1]);
      assert (a + b)[..|a + b| - 1] == a + b[..|b| - 1];
      assert (a + b)[|a + b| - 1] == b[|b| - 1];
    }
  }

  /** The requests of a list are those of any prefix followed by those of the rest. */
  lemma RequestsSplit(deps: seq<string>, i: nat)
    requires i <= |deps|
    ensures Requests(deps) == Requests(deps[..i]) + Requests(deps[i..])
  {
    var a, b := deps[..i], deps[i..];
    assert a + b == deps;
    RequestsAppend(a, b);
  }

  /** Only allowed names are ever sent to pip, each at its pin. */
  lemma {:induction false} RequestsArePinned(deps: seq<string>)
    ensures forall s :: s in Requests(deps) ==>
      exists d :: d in deps && d in AllowedPackages && s == d + "==" + AllowedPackages[d]
  {
    if |deps| > 0 {
      RequestsArePinned(deps[..|deps| - 1]);
      forall s | s in Requests(deps)
        ensures exists d :: d in deps && d in AllowedPackages && s == d + "==" + AllowedPackages[d]
      {
        if s in Requests(deps[..|deps| - 1]) {
          var d :| d in deps[..|deps| - 1] && d in AllowedPackages && s == d + "==" + AllowedPackages[d];
          assert d in deps;
        } else {
          assert deps[|deps| - 1] in deps;
        }
      }
    }
  }

  /** `from . import x` brings in no module; `import a.b` brings in `a`. */
  lemma ImportShapes(a: string, b: string, x: string)
    requires '.' !in a
    ensures ImportsOf(ImportFrom(None, x, [])) == {}
    ensures ImportsOf(Import(a + "." + b, [])) == {a}
  {
    TopLevelOfDotted(a, b);
    assert [a + "." + b] + [] == [a + "." + b];
  }
}
