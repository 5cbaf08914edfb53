/**
 * The security analyzer: a list of violations that `analyze_code` resets and
 * every `_check_*` helper appends to while walking the syntax tree (or, for
 * the pattern scans, the raw text).
 *
 * As written, `analyze_code` calls `_check_error_handling`, which the class
 * never defines: the `AttributeError` lands in the method's handler, which
 * appends one more "error" violation, so `_check_input_sanitization` never
 * runs and no parsed input is ever free of violations.
 *
 * `ast.parse`, `ast.unparse` and the `re` scans are the host's: they are
 * the fields of `Oracles`.
 */
module Security {
  import opened Base
  import opened PyAst

  datatype Violation = Violation(kind: string, message: string, line: nat)

  /** The facilities the analyzer borrows: `re.finditer(pattern, text)` as the list of
      matched texts, `re.search(pattern, text)` as a predicate, `ast.unparse`, `ast.parse`. */
  datatype Oracles = Oracles(
    finditer: (string, string) -> seq<string>,
    search: (string, string) -> bool,
    unparse: Node -> string,
    parse: string -> Parsed)

  const ProhibitedImports: set<string> :=
    {"requests", "urllib", "socket", "subprocess", "threading", "multiprocessing",
     "concurrent", "selenium", "scrapy", "beautifulsoup4"}

  const AllowedImports: seq<string> :=
    ["os.path", "pathlib", "datetime", "random", "math", "json", "pygame", "sys", "typing"]

  const DangerousNames: set<string> := {"eval", "exec", "compile"}

  const AllowedDirs: set<string> := {"resources", "logs", "temp"}

  /** `dangerous_patterns`, used only by `_check_patterns`. */
  const DangerousPatterns: seq<(string, string)> := [
    ("system_access", @"os\.(system|popen|spawn|exec)"),
    ("network_access", @"(socket|urllib|http|requests|ftp)"),
    ("file_write", @"(write|create|remove|delete|rmdir|unlink)"),
    ("code_execution", @"(eval|exec|compile|__import__)"),
    ("shell_injection", @"(subprocess|shell|command)")]

  /** `malicious_patterns`, in declaration order. */
  const MaliciousPatterns: seq<(string, string)> := [
    ("shell_commands", @"(subprocess\..*|os\.system|os\.popen|commands\..*)"),
    ("network_access", @"(socket\..*|urllib\..*|requests\..*|http\..*)"),
    ("file_operations", @"(open|file|io\..*|fileinput\..*)"),
    ("code_execution", @"(eval|exec|compile|__import__|globals|locals)"),
    ("system_info", @"(os\.uname|platform\..*|sys\.version)"),
    ("process_manipulation", @"(os\.kill|signal\..*|psutil\..*)"),
    ("memory_manipulation", @"(ctypes\..*|mmap\..*)"),
    ("environment_vars", @"(os\.environ|os\.getenv|os\.putenv)")]

  /** `sensitive_operations`: name, patterns and permission names. */
  datatype SensitiveOp = SensitiveOp(name: string, patterns: seq<string>, permissions: seq<string>)

  const SensitiveOperations: seq<SensitiveOp> := [
    SensitiveOp("file_access", [@"open\(", @"Path\(", @"os\.path"], ["file_read", "file_write"]),
    SensitiveOp("network", [@"socket\.", @"requests\."], ["network_access"]),
    SensitiveOp("system", [@"os\.system", @"subprocess\."], ["system_exec"])]

  /** The message of the `AttributeError` raised by the call to `_check_error_handling`. */
  const MissingMethodMessage := "'SecurityAnalyzer' object has no attribute '_check_error_handling'"

  const ErrorPrefix := "Error analizando código: "

  // ---------------------------------------------------------------------
  // Specification: what each check appends, node by node along the walk
  // ---------------------------------------------------------------------

  /** The violations produced by visiting `ns` in order, `f` giving those of one node. */
  function FlatMap(ns: seq<Node>, f: Node -> seq<Violation>): seq<Violation>
  {
    if |ns| == 0 then [] else FlatMap(ns[..|ns| - 1], f) + f(ns[|ns| - 1])
  }

  /** Scanning one more category appends that category's matches. */
  lemma PatternStep(cats: seq<(string, string)>, c: int, code: string, finditer: (string, string) -> seq<string>,
                    kindOf: string -> string, prefix: string)
    requires 0 <= c < |cats|
    ensures PatternViolations(cats[..c + 1], code, finditer, kindOf, prefix) ==
      PatternViolations(cats[..c], code, finditer, kindOf, prefix) +
      MatchViolations(finditer(cats[c].1, code), kindOf(cats[c].0), prefix)
  {
    assert cats[..c + 1][..c] == cats[..c];
  }

  /** Counting over one more node adds that node's count. */
  lemma CountInStep(ns: seq<Node>, i: int, p: Node -> bool)
    requires 0 <= i < |ns|
    ensures CountIn(ns[..i + 1], p) == CountIn(ns[..i], p) + (if p(ns[i]) then 1 else 0)
  {
    assert ns[..i + 1][..i] == ns[..i];
  }

  /** The nesting report over one more node: that node's report is appended. */
  lemma NestingStep(ns: seq<Node>, i: int)
    requires 0 <= i < |ns|
    ensures NestingIn(ns[..i + 1]) == NestingIn(ns[..i]) +
      (if IsLoop(ns[i]) && CountIn(ns[..i + 1], IsLoop) > 2
       then [Violation("resource_usage", "Demasiados loops anidados", ns[i].line)] else [])
  {
    assert ns[..i + 1][..i] == ns[..i];
  }

  /** Visiting one more node appends that node's violations. */
  lemma FlatMapStep(ns: seq<Node>, i: int, f: Node -> seq<Violation>)
    requires 0 <= i < |ns|
    ensures FlatMap(ns[..i + 1], f) == FlatMap(ns[..i], f) + f(ns[i])
  {
    assert ns[..i + 1][..i] == ns[..i];
  }

  /** How many nodes of `ns` satisfy `p`. */
  function CountIn(ns: seq<Node>, p: Node -> bool): nat
  {
    if |ns| == 0 then 0 else CountIn(ns[..|ns| - 1], p) + (if p(ns[|ns| - 1]) then 1 else 0)
  }

  /** A check that reports each offending node once reports as many violations as there
      are offending nodes. */
  lemma {:induction false} OnePerNode(ns: seq<Node>, f: Node -> seq<Violation>, p: Node -> bool)
    requires forall n :: |f(n)| == (if p(n) then 1 else 0)
    ensures |FlatMap(ns, f)| == CountIn(ns, p)
  {
    if |ns| > 0 {
      OnePerNode(ns[..|ns| - 1], f, p);
    }
  }

  /** The name a call is made through, when its callee is a plain name. */
  function CalleeName(n: Node): Option<string>
  {
    if n.kind.Call? && |n.kids| > 0 && n.kids[0].kind.Name? then Some(n.kids[0].kind.id) else None
  }

  /** `node.names[0].name` of an import statement. */
  function FirstImportedName(k: Kind): Option<string>
  {
    match k
    case Import(first, _) => Some(first)
    case ImportFrom(_, firstName, _) => Some(firstName)
    case _ => None
  }

  function ImportAt(n: Node): seq<Violation>
  {
    match FirstImportedName(n.kind)
    case None => []
    case Some(m) =>
      if m in ProhibitedImports then [Violation("import", "Import prohibido: " + m, n.line)]
      else if !(exists k :: 0 <= k < |AllowedImports| && StartsWith(m, AllowedImports[k]))
      then [Violation("import", "Import no permitido: " + m, n.line)]
      else []
  }

  function DangerousAt(n: Node): seq<Violation>
  {
    var callee := CalleeName(n);
    if callee.Some? && callee.value in DangerousNames
    then [Violation("dangerous_call", "Llamada peligrosa a " + callee.value + "()", n.line)]
    else []
  }

  predicate IsDangerousCall(n: Node) {
    CalleeName(n).Some? && CalleeName(n).value in DangerousNames
  }

  /** `Path(s).parts` for a POSIX path: the root, then the non-empty segments other than ".". */
  function PathParts(s: string): seq<string>
  {
    (if StartsWith(s, "/") then ["/"] else []) + Segments(Split(s, '/'))
  }

  function Segments(parts: seq<string>): (r: seq<string>)
    ensures forall k :: 0 <= k < |r| ==> r[k] != "" && r[k] != "."
    ensures forall x :: x in r <==> x in parts && x != "" && x != "."
  {
    if |parts| == 0 then []
    else
      var rest := Segments(parts[1..]);
      if parts[0] == "" || parts[0] == "." then rest else [parts[0]] + rest
  }

  /** `str(Path(s))` for a POSIX path: exactly two leading slashes are kept as they are,
      any other number of them becomes one. */
  function PathText(s: string): string
  {
    var segs := Segments(Split(s, '/'));
    if StartsWith(s, "//") && !StartsWith(s, "///") then "//" + Join(segs, "/")
    else if StartsWith(s, "/") then "/" + Join(segs, "/")
    else if |segs| == 0 then "."
    else Join(segs, "/")
  }

  predicate UnderAllowedDir(s: string) {
    exists k :: 0 <= k < |PathParts(s)| && PathParts(s)[k] in AllowedDirs
  }

  function FileAt(n: Node): seq<Violation>
  {
    if CalleeName(n) == Some("open") && |n.kids| > 1 && n.kids[1].kind.Str?
       && !UnderAllowedDir(n.kids[1].kind.value)
    then [Violation("file_access", "Acceso a archivo fuera de directorios permitidos: " +
                    PathText(n.kids[1].kind.value), n.line)]
    else []
  }

  predicate IsLoop(n: Node) {
    n.kind.For? || n.kind.While?
  }

  predicate IsBreakOrReturn(k: Kind) {
    k.Break? || k.Return?
  }

  /** `_has_break_or_return` */
  predicate HasBreakOrReturn(n: Node) {
    exists x :: x in Walk(n) && IsBreakOrReturn(x.kind)
  }

  function LoopAt(n: Node): seq<Violation>
  {
    if IsLoop(n) && !HasBreakOrReturn(n)
    then [Violation("infinite_loop", "Posible loop infinito detectado", n.line)]
    else []
  }

  predicate IsName(n: Node) {
    n.kind.Name?
  }

  /** The loop-depth part of `_check_resource_usage` over a prefix of the walk: the
      counter only grows, so every loop after the second is reported. */
  function NestingIn(ns: seq<Node>): seq<Violation>
  {
    if |ns| == 0 then []
    else
      var last := ns[|ns| - 1];
      NestingIn(ns[..|ns| - 1]) +
        (if IsLoop(last) && CountIn(ns, IsLoop) > 2
         then [Violation("resource_usage", "Demasiados loops anidados", last.line)] else [])
  }

  function ResourceViolations(tree: Node): seq<Violation>
  {
    var ns := Walk(tree);
    var vars := CountIn(ns, IsName);
    NestingIn(ns) +
      (if vars > 50 then [Violation("resource_usage", "Demasiadas variables (" + NatToString(vars) + ")", 0)] else [])
  }

  /** One violation per match, category by category. */
  function PatternViolations(cats: seq<(string, string)>, code: string, finditer: (string, string) -> seq<string>,
                             kindOf: string -> string, prefix: string): seq<Violation>
  {
    if |cats| == 0 then []
    else
      PatternViolations(cats[..|cats| - 1], code, finditer, kindOf, prefix) +
        MatchViolations(finditer(cats[|cats| - 1].1, code), kindOf(cats[|cats| - 1].0), prefix)
  }

  function MatchViolations(matches: seq<string>, kind: string, prefix: string): (r: seq<Violation>)
    ensures |r| == |matches|
  {
    if |matches| == 0 then []
    else MatchViolations(matches[..|matches| - 1], kind, prefix) +
           [Violation(kind, prefix + matches[|matches| - 1], 0)]
  }

  function MaliciousKind(category: string): string { "malicious_code" }
  function CategoryKind(category: string): string { category }

  const MaliciousPrefix := "Patrón de código potencialmente malicioso detectado: "
  const DangerousPrefix := "Patrón peligroso detectado: "

  function SensitiveMessage(op: SensitiveOp, callText: string): string
  {
    "Operación sensible detectada (" + op.name + "): " + callText + ". Requiere permisos: " + Join(op.permissions, ", ")
  }

  /** The violations one call text yields: one per operation and matching pattern. */
  function SensitiveOps(ops: seq<SensitiveOp>, callText: string, search: (string, string) -> bool): seq<Violation>
  {
    if |ops| == 0 then []
    else SensitiveOps(ops[..|ops| - 1], callText, search) +
           SensitivePatterns(ops[|ops| - 1], ops[|ops| - 1].patterns, callText, search)
  }

  function SensitivePatterns(op: SensitiveOp, patterns: seq<string>, callText: string,
                             search: (string, string) -> bool): seq<Violation>
  {
    if |patterns| == 0 then []
    else SensitivePatterns(op, patterns[..|patterns| - 1], callText, search) +
           (if search(patterns[|patterns| - 1], callText) then [Violation("sensitive_operation", SensitiveMessage(op, callText), 0)] else [])
  }

  function SensitiveAt(o: Oracles): Node -> seq<Violation>
  {
    (n: Node) => if n.kind.Call? then SensitiveOps(SensitiveOperations, o.unparse(n), o.search) else []
  }

  predicate IsCompareOrCall(k: Kind) {
    k.Compare? || k.Call?
  }

  /** An `If` whose subtree holds a comparison or a call. */
  predicate IsValidatingIf(n: Node) {
    n.kind.If? && exists x :: x in Walk(n) && IsCompareOrCall(x.kind)
  }

  function ValidationViolations(tree: Node): seq<Violation>
  {
    if CountIn(Walk(tree), IsValidatingIf) > 0 then []
    else [Violation("input_validation", "No se detectó validación de datos de entrada", 0)]
  }

  predicate IsInputCall(n: Node) {
    CalleeName(n).Some? && CalleeName(n).value in {"input", "raw_input"}
  }

  function InputAt(n: Node): seq<Violation>
  {
    if IsInputCall(n) then [Violation("input_sanitization", "Uso de input sin sanitización detectado", n.line)] else []
  }

  /** What the five checks over the tree report, in call order. */
  function TreeChecks(tree: Node): seq<Violation>
  {
    var ns := Walk(tree);
    FlatMap(ns, ImportAt) + FlatMap(ns, DangerousAt) + FlatMap(ns, FileAt) + FlatMap(ns, LoopAt)
      + ResourceViolations(tree)
  }

  /** What the next three checks report, in call order. */
  function LaterChecks(tree: Node, code: string, o: Oracles): seq<Violation>
  {
    PatternViolations(MaliciousPatterns, code, o.finditer, MaliciousKind, MaliciousPrefix)
      + FlatMap(Walk(tree), SensitiveAt(o)) + ValidationViolations(tree)
  }

  /** Everything the checks that run before `_check_error_handling` report, in call order. */
  function ChecksBefore(tree: Node, code: string, o: Oracles): seq<Violation>
  {
    TreeChecks(tree) + LaterChecks(tree, code, o)
  }

  /** What `analyze_code` returns, as written. */
  function Analysis(code: string, o: Oracles): seq<Violation>
  {
    match o.parse(code)
    case SyntaxError(msg) => [Violation("error", ErrorPrefix + msg, 0)]
    case Parsed(tree) => ChecksBefore(tree, code, o) + [Violation("error", ErrorPrefix + MissingMethodMessage, 0)]
  }

  /** What `analyze_code` would return without the call to the missing method. */
  function AnalysisFixed(code: string, o: Oracles): seq<Violation>
  {
    match o.parse(code)
    case SyntaxError(msg) => [Violation("error", ErrorPrefix + msg, 0)]
    case Parsed(tree) => ChecksBefore(tree, code, o) + FlatMap(Walk(tree), InputAt)
  }


  // ---------------------------------------------------------------------
  // The analyzer object
  // ---------------------------------------------------------------------

  class SecurityAnalyzer {
    var violations: seq<Violation>

    constructor()
      ensures violations == []
    {
      violations := [];
    }

    /** `analyze_code` as written. */
    method AnalyzeCode(code: string, functionName: string, o: Oracles) returns (r: seq<Violation>)
      modifies this
      ensures violations == Analysis(code, o) && r == violations
    {
      violations := [];
      match o.parse(code) {
        case SyntaxError(msg) =>
          violations := violations + [Violation("error", ErrorPrefix + msg, 0)];
        case Parsed(tree) =>
          RunChecksBefore(tree, code, o);
          // `self._check_error_handling(tree)`: AttributeError, handled below the call.
          violations := violations + [Violation("error", ErrorPrefix + MissingMethodMessage, 0)];
      }
      r := violations;
    }

    /** `analyze_code` with the call to the undefined method removed, so that
        `_check_input_sanitization` runs and clean code can pass. */
    method AnalyzeCodeFixed(code: string, functionName: string, o: Oracles) returns (r: seq<Violation>)
      modifies this
      ensures violations == AnalysisFixed(code, o) && r == violations
    {
      violations := [];
      match o.parse(code) {
        case SyntaxError(msg) =>
          violations := violations + [Violation("error", ErrorPrefix + msg, 0)];
        case Parsed(tree) =>
          RunChecksBefore(tree, code, o);
          assert violations == ChecksBefore(tree, code, o);
          CheckInputSanitization(tree);
      }
      r := violations;
    }

    /** Lines 78-87 of `analyze_code`: the eight checks, in order. */
    method RunChecksBefore(tree: Node, code: string, o: Oracles)
      modifies this
      ensures violations == old(violations) + ChecksBefore(tree, code, o)
    {
      ghost var v0 := violations;
      RunTreeChecks(tree);
      RunLaterChecks(tree, code, o);
      Regroup(v0, TreeChecks(tree), LaterChecks(tree, code, o));
    }

    /** Lines 78-82: the checks over the tree alone. */
    method RunTreeChecks(tree: Node)
      modifies this
      ensures violations == old(violations) + TreeChecks(tree)
    {
      ghost var v0 := violations;
      CheckImports(tree);
      CheckDangerousCalls(tree);
      CheckFileOperations(tree);
      CheckInfiniteLoops(tree);
      CheckResourceUsage(tree);
      ghost var ns := Walk(tree);
      Regroup6(v0, FlatMap(ns, ImportAt), FlatMap(ns, DangerousAt), FlatMap(ns, FileAt),
              FlatMap(ns, LoopAt), ResourceViolations(tree));
    }

    /** Lines 85-87: the text scan, the sensitive calls and the validation check. */
    method RunLaterChecks(tree: Node, code: string, o: Oracles)
      modifies this
      ensures violations == old(violations) + LaterChecks(tree, code, o)
    {
      ghost var v0 := violations;
      CheckMaliciousPatterns(code, o.finditer);
      CheckSensitiveOperations(tree, o);
      CheckDataValidation(tree);
      Regroup4(v0, PatternViolations(MaliciousPatterns, code, o.finditer, MaliciousKind, MaliciousPrefix),
              FlatMap(Walk(tree), SensitiveAt(o)), ValidationViolations(tree));
    }

    /** `_check_imports` */
    method CheckImports(tree: Node)
      modifies this
      ensures violations == old(violations) + FlatMap(Walk(tree), ImportAt)
    {
      var ns := Walk(tree);
      var i := 0;
      while i < |ns|
        invariant 0 <= i <= |ns|
        invariant violations == old(violations) + FlatMap(ns[..i], ImportAt)
      {
        FlatMapStep(ns, i, ImportAt);
        ImportNode(ns[i]);
        Regroup(old(violations), FlatMap(ns[..i], ImportAt), ImportAt(ns[i]));
        i := i + 1;
      }
      assert ns[..i] == ns;
    }

    /** The body of the `_check_imports` loop for one node. */
    method ImportNode(node: Node)
      modifies this
      ensures violations == old(violations) + ImportAt(node)
    {
      match FirstImportedName(node.kind) {
        case Some(m) =>
          if m in ProhibitedImports {
            violations := violations + [Violation("import", "Import prohibido: " + m, node.line)];
          } else {
            var allowed := StartsWithAny(m, AllowedImports);
            if !allowed {
              violations := violations + [Violation("import", "Import no permitido: " + m, node.line)];
            }
          }
        case None =>
      }
    }

    /** `_check_dangerous_calls` */
    method CheckDangerousCalls(tree: Node)
      modifies this
      ensures violations == old(violations) + FlatMap(Walk(tree), DangerousAt)
    {
      var ns := Walk(tree);
      var i := 0;
      while i < |ns|
        invariant 0 <= i <= |ns|
        invariant violations == old(violations) + FlatMap(ns[..i], DangerousAt)
      {
        FlatMapStep(ns, i, DangerousAt);
        DangerousNode(ns[i]);
        Regroup(old(violations), FlatMap(ns[..i], DangerousAt), DangerousAt(ns[i]));
        i := i + 1;
      }
      assert ns[..i] == ns;
    }

    /** The body of the `_check_dangerous_calls` loop for one node. */
    method DangerousNode(node: Node)
      modifies this
      ensures violations == old(violations) + DangerousAt(node)
    {
      if node.kind.Call? && |node.kids| > 0 && node.kids[0].kind.Name? {
        var funcName := node.kids[0].kind.id;
        if funcName in DangerousNames {
          violations := violations + [Violation("dangerous_call", "Llamada peligrosa a " + funcName + "()", node.line)];
        }
      }
    }

    /** `_check_file_operations` */
    method CheckFileOperations(tree: Node)
      modifies this
      ensures violations == old(violations) + FlatMap(Walk(tree), FileAt)
    {
      var ns := Walk(tree);
      var i := 0;
      while i < |ns|
        invariant 0 <= i <= |ns|
        invariant violations == old(violations) + FlatMap(ns[..i], FileAt)
      {
        FlatMapStep(ns, i, FileAt);
        FileNode(ns[i]);
        Regroup(old(violations), FlatMap(ns[..i], FileAt), FileAt(ns[i]));
        i := i + 1;
      }
      assert ns[..i] == ns;
    }

    /** The body of the `_check_file_operations` loop for one node. */
    method FileNode(node: Node)
      modifies this
      ensures violations == old(violations) + FileAt(node)
    {
      if CalleeName(node) == Some("open") && |node.kids| > 1 {
        var pathArg := node.kids[1];
        if pathArg.kind.Str? {
          var inside := InAllowedDir(pathArg.kind.value);
          if !inside {
            violations := violations + [Violation("file_access", "Acceso a archivo fuera de directorios permitidos: " +
                                                  PathText(pathArg.kind.value), node.line)];
          }
        }
      }
    }

    /** `_check_infinite_loops` */
    method CheckInfiniteLoops(tree: Node)
      modifies this
      ensures violations == old(violations) + FlatMap(Walk(tree), LoopAt)
    {
      var ns := Walk(tree);
      var i := 0;
      while i < |ns|
        invariant 0 <= i <= |ns|
        invariant violations == old(violations) + FlatMap(ns[..i], LoopAt)
      {
        FlatMapStep(ns, i, LoopAt);
        LoopNode(ns[i]);
        Regroup(old(violations), FlatMap(ns[..i], LoopAt), LoopAt(ns[i]));
        i := i + 1;
      }
      assert ns[..i] == ns;
    }

    /** The body of the `_check_infinite_loops` loop for one node. */
    method LoopNode(node: Node)
      modifies this
      ensures violations == old(violations) + LoopAt(node)
    {
      if node.kind.While? || node.kind.For? {
        var exits := FindBreakOrReturn(node);
        if !exits {
          violations := violations + [Violation("infinite_loop", "Posible loop infinito detectado", node.line)];
        }
      }
    }

    /** `_check_resource_usage`: a loop counter that is never decremented and a count
        of name nodes. */
    method CheckResourceUsage(tree: Node)
      modifies this
      ensures violations == old(violations) + ResourceViolations(tree)
    {
      var ns := Walk(tree);
      var loopDepth := 0;
      var varCount := 0;
      var i := 0;
      while i < |ns|
        invariant 0 <= i <= |ns|
        invariant loopDepth == CountIn(ns[..i], IsLoop)
        invariant varCount == CountIn(ns[..i], IsName)
        invariant violations == old(violations) + NestingIn(ns[..i])
      {
        var node := ns[i];
        CountInStep(ns, i, IsLoop);
        CountInStep(ns, i, IsName);
        NestingStep(ns, i);
        ghost var added := if IsLoop(node) && CountIn(ns[..i + 1], IsLoop) > 2
          then [Violation("resource_usage", "Demasiados loops anidados", node.line)] else [];
        if node.kind.For? || node.kind.While? {
          loopDepth := loopDepth + 1;
          if loopDepth > 2 {
            violations := violations + [Violation("resource_usage", "Demasiados loops anidados", node.line)];
          }
        } else if node.kind.Name? {
          varCount := varCount + 1;
        }
        Regroup(old(violations), NestingIn(ns[..i]), added);
        i := i + 1;
      }
      assert ns[..i] == ns;
      if varCount > 50 {
        violations := violations + [Violation("resource_usage", "Demasiadas variables (" + NatToString(varCount) + ")", 0)];
      }
    }

    /** `_check_patterns`, which nothing calls: one violation per match of each
        dangerous pattern, its kind the pattern's name. */
    method CheckPatterns(code: string, finditer: (string, string) -> seq<string>)
      modifies this
      ensures violations == old(violations) + PatternViolations(DangerousPatterns, code, finditer, CategoryKind, DangerousPrefix)
    {
      ScanPatterns(DangerousPatterns, code, finditer, CategoryKind, DangerousPrefix);
    }

    /** `_check_malicious_patterns` */
    method CheckMaliciousPatterns(code: string, finditer: (string, string) -> seq<string>)
      modifies this
      ensures violations == old(violations) + PatternViolations(MaliciousPatterns, code, finditer, MaliciousKind, MaliciousPrefix)
    {
      ScanPatterns(MaliciousPatterns, code, finditer, MaliciousKind, MaliciousPrefix);
    }

    /** The loop shared by the two pattern scans: categories in order, matches in order. */
    method ScanPatterns(cats: seq<(string, string)>, code: string, finditer: (string, string) -> seq<string>,
                        kindOf: string -> string, prefix: string)
      modifies this
      ensures violations == old(violations) + PatternViolations(cats, code, finditer, kindOf, prefix)
    {
      var c := 0;
      while c < |cats|
        invariant 0 <= c <= |cats|
        invariant violations == old(violations) + PatternViolations(cats[..c], code, finditer, kindOf, prefix)
      {
        PatternStep(cats, c, code, finditer, kindOf, prefix);
        var matches := finditer(cats[c].1, code);
        AppendMatches(matches, kindOf(cats[c].0), prefix);
        Regroup(old(violations), PatternViolations(cats[..c], code, finditer, kindOf, prefix),
                MatchViolations(matches, kindOf(cats[c].0), prefix));
        c := c + 1;
      }
      assert cats[..c] == cats;
    }

    /** The inner loop of the pattern scans: one violation per match of one category. */
    method AppendMatches(matches: seq<string>, kind: string, prefix: string)
      modifies this
      ensures violations == old(violations) + MatchViolations(matches, kind, prefix)
    {
      var j := 0;
      while j < |matches|
        invariant 0 <= j <= |matches|
        invariant violations == old(violations) + MatchViolations(matches[..j], kind, prefix)
      {
        assert matches[..j + 1][..j] == matches[..j];
        Regroup(old(violations), MatchViolations(matches[..j], kind, prefix), [Violation(kind, prefix + matches[j], 0)]);
        violations := violations + [Violation(kind, prefix + matches[j], 0)];
        j := j + 1;
      }
      assert matches[..j] == matches;
    }

    /** `_check_sensitive_operations` */
    method CheckSensitiveOperations(tree: Node, o: Oracles)
      modifies this
      ensures violations == old(violations) + FlatMap(Walk(tree), SensitiveAt(o))
    {
      var ns := Walk(tree);
      var i := 0;
      while i < |ns|
        invariant 0 <= i <= |ns|
        invariant violations == old(violations) + FlatMap(ns[..i], SensitiveAt(o))
      {
        FlatMapStep(ns, i, SensitiveAt(o));
        SensitiveNode(ns[i], o);
        Regroup(old(violations), FlatMap(ns[..i], SensitiveAt(o)), SensitiveAt(o)(ns[i]));
        i := i + 1;
      }
      assert ns[..i] == ns;
    }

    /** The body of the `_check_sensitive_operations` loop for one node: calls only. */
    method SensitiveNode(node: Node, o: Oracles)
      modifies this
      ensures violations == old(violations) + SensitiveAt(o)(node)
    {
      if node.kind.Call? {
        var callText := o.unparse(node);
        SensitiveForCall(callText, o.search);
      }
    }

    /** The two inner loops of `_check_sensitive_operations` for one call. */
    method SensitiveForCall(callText: string, search: (string, string) -> bool)
      modifies this
      ensures violations == old(violations) + SensitiveOps(SensitiveOperations, callText, search)
    {
      var ops := SensitiveOperations;
      var k := 0;
      while k < |ops|
        invariant 0 <= k <= |ops|
        invariant violations == old(violations) + SensitiveOps(ops[..k], callText, search)
      {
        assert ops[..k + 1][..k] == ops[..k];
        var op := ops[k];
        SensitivePatternsFor(op, callText, search);
        Regroup(old(violations), SensitiveOps(ops[..k], callText, search),
                SensitivePatterns(op, op.patterns, callText, search));
        k := k + 1;
      }
      assert ops[..k] == ops;
    }

    /** The innermost loop: one violation per pattern of `op` found in the call. */
    method SensitivePatternsFor(op: SensitiveOp, callText: string, search: (string, string) -> bool)
      modifies this
      ensures violations == old(violations) + SensitivePatterns(op, op.patterns, callText, search)
    {
      var j := 0;
      while j < |op.patterns|
        invariant 0 <= j <= |op.patterns|
        invariant violations == old(violations) + SensitivePatterns(op, op.patterns[..j], callText, search)
      {
        assert op.patterns[..j + 1][..j] == op.patterns[..j];
        if search(op.patterns[j], callText) {
          Regroup(old(violations), SensitivePatterns(op, op.patterns[..j], callText, search),
                  [Violation("sensitive_operation", SensitiveMessage(op, callText), 0)]);
          violations := violations + [Violation("sensitive_operation", SensitiveMessage(op, callText), 0)];
        }
        j := j + 1;
      }
      assert op.patterns[..j] == op.patterns;
    }

    /** `_check_data_validation`: one violation when no `If` holds a comparison or call. */
    method CheckDataValidation(tree: Node)
      modifies this
      ensures violations == old(violations) + ValidationViolations(tree)
    {
      var ns := Walk(tree);
      var hasValidation := false;
      var i := 0;
      while i < |ns|
        invariant 0 <= i <= |ns|
        invariant hasValidation <==> CountIn(ns[..i], IsValidatingIf) > 0
        invariant violations == old(violations)
      {
        var node := ns[i];
        CountInStep(ns, i, IsValidatingIf);
        if node.kind.If? {
          var found := FindCompareOrCall(node);
          if found {
            hasValidation := true;
          }
        }
        i := i + 1;
      }
      assert ns[..i] == ns;
      assert hasValidation <==> CountIn(Walk(tree), IsValidatingIf) > 0;
      if !hasValidation {
        assert ValidationViolations(tree) == [Violation("input_validation", "No se detectó validación de datos de entrada", 0)];
        violations := violations + [Violation("input_validation", "No se detectó validación de datos de entrada", 0)];
      }
    }

    /** `_check_input_sanitization` */
    method CheckInputSanitization(tree: Node)
      modifies this
      ensures violations == old(violations) + FlatMap(Walk(tree), InputAt)
    {
      var ns := Walk(tree);
      var i := 0;
      while i < |ns|
        invariant 0 <= i <= |ns|
        invariant violations == old(violations) + FlatMap(ns[..i], InputAt)
      {
        FlatMapStep(ns, i, InputAt);
        InputNode(ns[i]);
        Regroup(old(violations), FlatMap(ns[..i], InputAt), InputAt(ns[i]));
        i := i + 1;
      }
      assert ns[..i] == ns;
    }

    /** The body of the `_check_input_sanitization` loop for one node. */
    method InputNode(node: Node)
      modifies this
      ensures violations == old(violations) + InputAt(node)
    {
      if node.kind.Call? && |node.kids| > 0 && node.kids[0].kind.Name? {
        if node.kids[0].kind.id in {"input", "raw_input"} {
          violations := violations + [Violation("input_sanitization", "Uso de input sin sanitización detectado", node.line)];
        }
      }
    }
  }

  /** `any(m.startswith(a) for a in allowed)` */
  method StartsWithAny(m: string, allowed: seq<string>) returns (b: bool)
    ensures b <==> exists k :: 0 <= k < |allowed| && StartsWith(m, allowed[k])
  {
    var k := 0;
    while k < |allowed|
      invariant 0 <= k <= |allowed|
      invariant forall j :: 0 <= j < k ==> !StartsWith(m, allowed[j])
    {
      if StartsWith(m, allowed[k]) {
        return true;
      }
      k := k + 1;
    }
    return false;
  }

  /** `any(dir in path.parts for dir in allowed_dirs)` */
  method InAllowedDir(s: string) returns (b: bool)
    ensures b <==> UnderAllowedDir(s)
  {
    var parts := PathParts(s);
    var k := 0;
    while k < |parts|
      invariant 0 <= k <= |parts|
      invariant forall j :: 0 <= j < k ==> parts[j] !in AllowedDirs
    {
      if parts[k] in AllowedDirs {
        return true;
      }
      k := k + 1;
    }
    return false;
  }

  /** `_has_break_or_return`: the walk below the node, left early at the first exit. */
  method FindBreakOrReturn(node: Node) returns (b: bool)
    ensures b <==> HasBreakOrReturn(node)
  {
    var ns := Walk(node);
    var i := 0;
    while i < |ns|
      invariant 0 <= i <= |ns|
      invariant forall j :: 0 <= j < i ==> !IsBreakOrReturn(ns[j].kind)
    {
      if ns[i].kind.Break? || ns[i].kind.Return? {
        assert ns[i] in ns && IsBreakOrReturn(ns[i].kind);
        return true;
      }
      i := i + 1;
    }
    return false;
  }

  /** The inner loop of `_check_data_validation`, left at the first comparison or call. */
  method FindCompareOrCall(node: Node) returns (b: bool)
    ensures b <==> exists x :: x in Walk(node) && IsCompareOrCall(x.kind)
  {
    var ns := Walk(node);
    var i := 0;
    while i < |ns|
      invariant 0 <= i <= |ns|
      invariant forall j :: 0 <= j < i ==> !IsCompareOrCall(ns[j].kind)
    {
      if ns[i].kind.Compare? || ns[i].kind.Call? {
        assert ns[i] in ns && IsCompareOrCall(ns[i].kind);
        return true;
      }
      i := i + 1;
    }
    return false;
  }

  // ---------------------------------------------------------------------
  // Properties
  // ---------------------------------------------------------------------

  /** As written, every input yields at least one violation, the last being an "error";
      a syntax error yields exactly that one. */
  lemma AnalysisNeverEmpty(code: string, o: Oracles)
    ensures var r := Analysis(code, o); |r| >= 1 && r[|r| - 1].kind == "error"
    ensures o.parse(code).SyntaxError? ==> |Analysis(code, o)| == 1
    ensures o.parse(code).Parsed? ==>
      Analysis(code, o)[|Analysis(code, o)| - 1].message == ErrorPrefix + MissingMethodMessage
  {
  }

  /** As written, `_check_input_sanitization` never contributes: the verdict does not
      depend on calls to `input`. Without the missing method, it does. */
  lemma InputSanitizationNeverRuns(code: string, o: Oracles)
    requires o.parse(code).Parsed?
    ensures Analysis(code, o) == ChecksBefore(o.parse(code).tree, code, o) +
                                  [Violation("error", ErrorPrefix + MissingMethodMessage, 0)]
    ensures AnalysisFixed(code, o) == ChecksBefore(o.parse(code).tree, code, o) + FlatMap(Walk(o.parse(code).tree), InputAt)
  {
  }

  /** A tree with one `if x == y:` and nothing else. */
  function CleanTree(): Node
  {
    Node(Module, 0, [Node(If, 1, [Node(Compare, 1, [])])])
  }

  lemma CleanTreeWalk()
    ensures Walk(CleanTree()) == [CleanTree(), CleanTree().kids[0], CleanTree().kids[0].kids[0]]
  {
    var t := CleanTree();
    var a := t.kids[0];
    var b := a.kids[0];
    assert [t][1..] + t.kids == [a];
    assert [a][1..] + a.kids == [b];
    assert [b][1..] + b.kids == [];
  }

  /** A three-node walk visits its nodes in order. */
  lemma FlatMapThree(ns: seq<Node>, f: Node -> seq<Violation>)
    requires |ns| == 3
    ensures FlatMap(ns, f) == f(ns[0]) + f(ns[1]) + f(ns[2])
  {
    assert ns[..2][..1] == ns[..1];
    assert ns[..1][..0] == [];
    assert ns[..3] == ns;
    assert FlatMap(ns[..1], f) == f(ns[0]);
  }

  lemma CountInThree(ns: seq<Node>, p: Node -> bool)
    requires |ns| == 3
    ensures CountIn(ns, p) == (if p(ns[0]) then 1 else 0) + (if p(ns[1]) then 1 else 0) + (if p(ns[2]) then 1 else 0)
  {
    assert ns[..2][..1] == ns[..1];
    assert ns[..1][..0] == [];
    assert ns[..3] == ns;
    assert CountIn(ns[..1], p) == if p(ns[0]) then 1 else 0;
  }

  /** A check that reports none of the three nodes of the clean tree reports nothing. */
  lemma CleanFlatMap(f: Node -> seq<Violation>)
    requires f(CleanTree()) == [] && f(CleanTree().kids[0]) == [] && f(CleanTree().kids[0].kids[0]) == []
    ensures FlatMap(Walk(CleanTree()), f) == []
  {
    CleanTreeWalk();
    FlatMapThree(Walk(CleanTree()), f);
  }

  lemma CleanCounts()
    ensures CountIn(Walk(CleanTree()), IsLoop) == 0 && CountIn(Walk(CleanTree()), IsName) == 0
  {
    CleanTreeWalk();
    CountInThree(Walk(CleanTree()), IsLoop);
    CountInThree(Walk(CleanTree()), IsName);
  }

  /** No loop, so no nesting violation. */
  lemma {:induction false} NoLoopsNoNesting(ns: seq<Node>)
    requires CountIn(ns, IsLoop) == 0
    ensures NestingIn(ns) == []
  {
    if |ns| > 0 {
      NoLoopsNoNesting(ns[..|ns| - 1]);
    }
  }

  lemma CleanImports() ensures FlatMap(Walk(CleanTree()), ImportAt) == [] { CleanFlatMap(ImportAt); }
  lemma CleanDangerous() ensures FlatMap(Walk(CleanTree()), DangerousAt) == [] { CleanFlatMap(DangerousAt); }
  lemma CleanFiles() ensures FlatMap(Walk(CleanTree()), FileAt) == [] { CleanFlatMap(FileAt); }
  lemma CleanInputs() ensures FlatMap(Walk(CleanTree()), InputAt) == [] { CleanFlatMap(InputAt); }
  lemma CleanLoops() ensures FlatMap(Walk(CleanTree()), LoopAt) == [] { CleanFlatMap(LoopAt); }
  lemma CleanResources() ensures ResourceViolations(CleanTree()) == [] {
    CleanCounts();
    NoLoopsNoNesting(Walk(CleanTree()));
  }

  /** The clean tree raises nothing in the five checks over the tree. */
  lemma CleanTreeChecks()
    ensures TreeChecks(CleanTree()) == []
  {
    CleanImports();
    CleanDangerous();
    CleanFiles();
    CleanLoops();
    CleanResources();
  }

  /** ... nor, when the regexes match nothing, in the text scan, the sensitive calls
      (it has none) or the validation check. */
  lemma CleanLaterChecks(code: string, o: Oracles)
    requires forall p, c :: o.finditer(p, c) == []
    ensures LaterChecks(CleanTree(), code, o) == []
  {
    var t := CleanTree();
    CleanTreeWalk();
    var ns := Walk(t);
    FlatMapThree(ns, SensitiveAt(o));
    EmptyScans(MaliciousPatterns, code, o.finditer, MaliciousKind, MaliciousPrefix);
    assert ns[2] in Walk(ns[1]) by {
      assert Walk(ns[1]) == Bfs([ns[1]]);
      assert [ns[1]][1..] + ns[1].kids == [ns[2]];
    }
    assert IsValidatingIf(ns[1]);
    CountInThree(ns, IsValidatingIf);
  }

  /** Everything before the missing call is silent on the clean tree. */
  lemma CleanChecksBefore(code: string, o: Oracles)
    requires forall p, c :: o.finditer(p, c) == []
    ensures ChecksBefore(CleanTree(), code, o) == []
  {
    CleanTreeChecks();
    CleanLaterChecks(code, o);
  }

  /** With the missing call removed, code that parses to the clean tree passes when the
      regexes match nothing. */
  lemma FixedAnalysisCanPass(code: string, o: Oracles)
    requires o.parse(code) == Parsed(CleanTree())
    requires forall p, c :: o.finditer(p, c) == []
    ensures AnalysisFixed(code, o) == []
  {
    CleanChecksBefore(code, o);
    CleanInputs();
    ParsedAnalyses(code, o, CleanTree(), [], []);
  }

  /** As written the same code is rejected. */
  lemma CleanCodeRejected(code: string, o: Oracles)
    requires o.parse(code) == Parsed(CleanTree())
    requires forall p, c :: o.finditer(p, c) == []
    ensures Analysis(code, o) == [Violation("error", ErrorPrefix + MissingMethodMessage, 0)]
  {
    CleanChecksBefore(code, o);
    CleanInputs();
    ParsedAnalyses(code, o, CleanTree(), [], []);
  }

  /** Both analyses of parsed code, from what the checks report on its tree. */
  lemma ParsedAnalyses(code: string, o: Oracles, t: Node, before: seq<Violation>, inputs: seq<Violation>)
    requires o.parse(code) == Parsed(t)
    requires ChecksBefore(t, code, o) == before && FlatMap(Walk(t), InputAt) == inputs
    ensures AnalysisFixed(code, o) == before + inputs
    ensures Analysis(code, o) == before + [Violation("error", ErrorPrefix + MissingMethodMessage, 0)]
  {
  }

  lemma {:induction false} EmptyScans(cats: seq<(string, string)>, code: string, finditer: (string, string) -> seq<string>,
                                      kindOf: string -> string, prefix: string)
    requires forall p, c :: finditer(p, c) == []
    ensures PatternViolations(cats, code, finditer, kindOf, prefix) == []
  {
    if |cats| > 0 {
      EmptyScans(cats[..|cats| - 1], code, finditer, kindOf, prefix);
    }
  }

  /** The import check looks at the first alias only: `import math, socket` passes, and
      `from os import path` is judged by `path`, not by `os`. */
  lemma ImportCheckFirstNameOnly(line: nat, kids: seq<Node>)
    ensures ImportAt(Node(Import("math", ["socket"]), line, kids)) == []
    ensures ImportAt(Node(Import("socket", ["math"]), line, kids)) == [Violation("import", "Import prohibido: socket", line)]
    ensures ImportAt(Node(ImportFrom(Some("os"), "path", []), line, kids)) ==
            [Violation("import", "Import no permitido: path", line)]
  {
    assert "math" !in ProhibitedImports;
    assert AllowedImports[4] == "math";
    assert StartsWith("math", AllowedImports[4]);
    assert "socket" in ProhibitedImports;
    assert "Import prohibido: " + "socket" == "Import prohibido: socket";
    assert "path" !in ProhibitedImports;
    forall k | 0 <= k < |AllowedImports| ensures !StartsWith("path", AllowedImports[k]) {
      var a := AllowedImports[k];
      if |a| <= 4 {
        assert a == "math" || a == "json" || a == "sys";
        assert a[0] != 'p' && "path"[..|a|][0] == 'p';
      }
    }
    assert "Import no permitido: " + "path" == "Import no permitido: path";
  }

  /** One `dangerous_call` violation per call of eval/exec/compile by name, one
      `infinite_loop` per loop without an exit below it, one `input_sanitization`
      per call of input/raw_input. */
  lemma OneViolationPerOffence(tree: Node)
    ensures |FlatMap(Walk(tree), DangerousAt)| == CountIn(Walk(tree), IsDangerousCall)
    ensures |FlatMap(Walk(tree), LoopAt)| == CountIn(Walk(tree), (n: Node) => IsLoop(n) && !HasBreakOrReturn(n))
    ensures |FlatMap(Walk(tree), InputAt)| == CountIn(Walk(tree), IsInputCall)
  {
    OnePerNode(Walk(tree), DangerousAt, IsDangerousCall);
    OnePerNode(Walk(tree), LoopAt, (n: Node) => IsLoop(n) && !HasBreakOrReturn(n));
    OnePerNode(Walk(tree), InputAt, IsInputCall);
  }

  /** An exit anywhere below a loop, however deeply nested, keeps it from being reported. */
  lemma ExitBelowLoopIsEnough(n: Node, k: nat)
    requires IsLoop(n) && k < |n.kids| && HasBreakOrReturn(n.kids[k])
    ensures LoopAt(n) == []
  {
    var x :| x in Walk(n.kids[k]) && IsBreakOrReturn(x.kind);
    WalkVisitsAll(n.kids[k]);
    NodesOfChild(n, k);
    WalkVisitsAll(n);
    assert x in Nodes(n);
  }

  /** The nesting counter is never decremented: however the loops are nested, every
      loop after the second in walk order is reported, once. */
  lemma {:induction false} NestingCountsLoops(ns: seq<Node>)
    ensures |NestingIn(ns)| == if CountIn(ns, IsLoop) > 2 then CountIn(ns, IsLoop) - 2 else 0
  {
    if |ns| > 0 {
      NestingCountsLoops(ns[..|ns| - 1]);
    }
  }

  /** The malicious scan reports exactly one violation per regex match. */
  lemma {:induction false} OnePerMatch(cats: seq<(string, string)>, code: string, finditer: (string, string) -> seq<string>)
    ensures |PatternViolations(cats, code, finditer, MaliciousKind, MaliciousPrefix)| == MatchCount(cats, code, finditer)
  {
    if |cats| > 0 {
      OnePerMatch(cats[..|cats| - 1], code, finditer);
    }
  }

  function MatchCount(cats: seq<(string, string)>, code: string, finditer: (string, string) -> seq<string>): nat
  {
    if |cats| == 0 then 0 else MatchCount(cats[..|cats| - 1], code, finditer) + |finditer(cats[|cats| - 1].1, code)|
  }

  /** A literal path through `resources`, `logs` or `temp` is never reported, and a path
      that is not a string literal is not looked at. */
  lemma FileCheckScope(line: nat, dir: string, file: string, arg: Node)
    requires dir in AllowedDirs && '/' !in dir
    requires !arg.kind.Str?
    ensures FileAt(Node(Call, line, [Node(Name("open"), line, []), Node(Str(dir + "/" + file), line, [])])) == []
    ensures FileAt(Node(Call, line, [Node(Name("open"), line, []), arg])) == []
  {
    var s := dir + "/" + file;
    SplitAtFirst(dir, file, '/');
    assert s == dir + ['/'] + file;
    var segs := Segments(Split(s, '/'));
    assert dir in Split(s, '/');
    assert dir in segs;
    var parts := PathParts(s);
    assert dir in parts;
    var k :| 0 <= k < |parts| && parts[k] == dir;
    assert UnderAllowedDir(s);
  }
}
