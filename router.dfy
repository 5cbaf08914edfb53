/**
 * `FunctionManager`, the router of the engine: it reads the classifier's
 * answer (`analyze_request`), runs a known function through the sandbox and
 * records the outcome (`execute_function`), and passes newly requested code
 * through the gates of `create_new_function` before writing, registering and
 * trying it.
 *
 * The collaborators' answers are parameters: the classifier's and the code
 * generator's replies, the outcome of the sandboxed run, the host's parser,
 * compiler, regexes, pip and importer, and the translator the answers are
 * passed through (as written, `AiService.TranslateResult`).
 */
module Router {
  import opened Base
  import opened PyAst
  import opened Registry
  import opened Executor
  import opened Logs
  import opened Feedback
  import opened Security
  import opened Dependencies
  import opened Permissions
  import TestManager
  import AiService

  // ---------------------------------------------------------------------
  // analyze_request
  // ---------------------------------------------------------------------

  datatype RequestKind = Yes | New | No

  /** The dictionary `analyze_request` returns: its type, the function's name, and the
      registry's description of it (YES) or the requested behaviour (NEW). */
  datatype RequestAnalysis = RequestAnalysis(kind: RequestKind, name: string, detail: string)

  const YesPrefix := "YES - "
  const NewPrefix := "NEW - "
  const NoAnalysis := RequestAnalysis(No, "", "")

  /** `analyze_request` once the classifier has answered `response`; `functions` is the
      registry's `list_functions()`. */
  function AnalyzeRequest(response: string, functions: map<string, Entry>): (r: RequestAnalysis)
    ensures r.kind == Yes <==> StartsWith(response, YesPrefix)
    ensures r.kind == New <==>
      !StartsWith(response, YesPrefix) && StartsWith(response, NewPrefix) && ' ' in ReplaceAll(response, NewPrefix, "")
    ensures r.kind == No ==> r == NoAnalysis
    ensures r.kind == Yes ==>
      Strip(r.name) == r.name &&
      r.detail == (if r.name in functions then GetOr(functions[r.name].description, "") else "")
    ensures r.kind == New ==> Strip(r.name) == r.name && Strip(r.detail) == r.detail
  {
    if StartsWith(response, YesPrefix) then
      var name := Strip(ReplaceAll(response, YesPrefix, ""));
      StripIdempotent(ReplaceAll(response, YesPrefix, ""), Whitespace);
      RequestAnalysis(Yes, name, if name in functions then GetOr(functions[name].description, "") else "")
    else if StartsWith(response, NewPrefix) then
      var parts := SplitOnce(ReplaceAll(response, NewPrefix, ""), ' ');
      if |parts| == 2 then
        StripIdempotent(parts[0], Whitespace);
        StripIdempotent(parts[1], Whitespace);
        RequestAnalysis(New, Strip(parts[0]), Strip(parts[1]))
      else NoAnalysis
    else NoAnalysis
  }

  /** `YES - name` names the function `name` and brings its registered description. */
  lemma YesNamesFunction(name: string, functions: map<string, Entry>)
    requires Strip(name) == name && !Contains(name, YesPrefix)
    ensures AnalyzeRequest(YesPrefix + name, functions) ==
      RequestAnalysis(Yes, name, if name in functions then GetOr(functions[name].description, "") else "")
  {
    assert StartsWith(YesPrefix + name, YesPrefix);
    ReplacePrefixOnly(YesPrefix, name);
  }

  /** `NEW - name rest of the text`: the name ends at the first space and the rest,
      stripped, is the description. */
  lemma NewSplitsAtFirstSpace(name: string, description: string, functions: map<string, Entry>)
    requires ' ' !in name && Strip(name) == name
    requires !Contains(name + " " + description, NewPrefix)
    ensures AnalyzeRequest(NewPrefix + name + " " + description, functions) ==
      RequestAnalysis(New, name, Strip(description))
  {
    var t := name + " " + description;
    Regroup4(NewPrefix, name, " ", description);
    ReplacePrefixOnly(NewPrefix, t);
    SplitOnceAt(name, description, ' ');
    NewAnswer(t, name, description, functions);
  }

  lemma NewAnswer(t: string, name: string, description: string, functions: map<string, Entry>)
    requires ReplaceAll(NewPrefix + t, NewPrefix, "") == t && SplitOnce(t, ' ') == [name, description]
    ensures AnalyzeRequest(NewPrefix + t, functions) == RequestAnalysis(New, Strip(name), Strip(description))
  {
    NotYesAnswer(t);
    assert StartsWith(NewPrefix + t, NewPrefix);
  }

  /** An answer starting with `NEW - ` does not start with `YES - `. */
  lemma NotYesAnswer(t: string)
    ensures !StartsWith(NewPrefix + t, YesPrefix)
  {
    assert (NewPrefix + t)[0] == 'N';
  }

  /** An answer starting with a prefix starts with no whitespace. */
  lemma PrefixedHeadVisible(t: string)
    ensures (NewPrefix + t)[0] !in Whitespace && (YesPrefix + t)[0] !in Whitespace
  {
    assert (NewPrefix + t)[0] == 'N' && (YesPrefix + t)[0] == 'Y';
  }

  /** A `NEW - ` answer without a space after the prefix is treated as NO. */
  lemma NewWithoutSpaceIsNo(rest: string, functions: map<string, Entry>)
    requires ' ' !in rest && !Contains(rest, NewPrefix)
    ensures AnalyzeRequest(NewPrefix + rest, functions) == NoAnalysis
  {
    NotYesAnswer(rest);
    assert StartsWith(NewPrefix + rest, NewPrefix);
    ReplacePrefixOnly(NewPrefix, rest);
  }

  /** When the classifier fails or says nothing, the service answers NO and the
      request is not a function request. */
  lemma SilentClassifierMeansNo(reply: AiService.Reply, functions: map<string, Entry>)
    requires reply.Raised? || reply.text == ""
    ensures AnalyzeRequest(AiService.AnalyzeRequest(reply), functions) == NoAnalysis
  {
  }

  /** `s.split(c, 1)` of `a + c + b` where `a` has no `c`. */
  lemma SplitOnceAt(a: string, b: string, c: char)
    requires c !in a
    ensures SplitOnce(a + [c] + b, c) == [a, b]
  {
    var s := a + [c] + b;
    assert s[|a|] == c;
    assert forall k :: 0 <= k < |a| ==> s[k] == a[k];
    assert FirstIndex(s, c) == |a|;
    var r := SplitOnce(s, c);
    assert r[0] == s[..|a|];
    assert a == s[..|a|];
    assert r[1] == s[|a| + 1..];
  }

  // ---------------------------------------------------------------------
  // create_new_function: the request it is given
  // ---------------------------------------------------------------------

  /** How `create_new_function` reads its argument: the first line must start with
      `NEW - `; the name is that line without the prefix, the description the second
      line, both stripped. A missing second line raises `IndexError`. */
  datatype CreationRequest = NotNew | NoSecondLine | CreationRequest(name: string, description: string)

  function ParseCreationRequest(aiResponse: string): (r: CreationRequest)
    ensures r.NotNew? <==> !StartsWith(Split(aiResponse, '\n')[0], NewPrefix)
    ensures r.NoSecondLine? <==> StartsWith(Split(aiResponse, '\n')[0], NewPrefix) && |Split(aiResponse, '\n')| == 1
    ensures r.CreationRequest? ==> Strip(r.name) == r.name && Strip(r.description) == r.description
  {
    var lines := Split(aiResponse, '\n');
    if !StartsWith(lines[0], NewPrefix) then NotNew
    else if |lines| < 2 then NoSecondLine
    else
      StripIdempotent(ReplaceAll(lines[0], NewPrefix, ""), Whitespace);
      StripIdempotent(lines[1], Whitespace);
      CreationRequest(Strip(ReplaceAll(lines[0], NewPrefix, "")), Strip(lines[1]))
  }

  lemma NewPrefixOneLine()
    ensures '\n' !in NewPrefix
  {
    assert NewPrefix == ['N', 'E', 'W', ' ', '-', ' '];
  }

  /** The text `execute_function` builds from a NEW analysis reads back as the same name
      and description. */
  lemma CreationRequestRoundTrip(name: string, description: string)
    requires '\n' !in name && '\n' !in description
    requires !Contains(name, NewPrefix) && Strip(name) == name && Strip(description) == description
    ensures ParseCreationRequest(NewPrefix + name + "\n" + description) == CreationRequest(name, description)
  {
    var first := NewPrefix + name;
    NewPrefixOneLine();
    SplitAtFirst(first, description, '\n');
    SplitWithout(description, '\n');
    assert Split(NewPrefix + name + "\n" + description, '\n') == [first, description];
    assert StartsWith(first, NewPrefix);
    ReplacePrefixOnly(NewPrefix, name);
  }

  // ---------------------------------------------------------------------
  // create_new_function: gates and answers
  // ---------------------------------------------------------------------

  /** The `return` of `create_new_function` that answered, in the order of the gates. */
  datatype Stage =
    | FormatRejected
    | DescriptionMissing
    | NoCode
    | Insecure(violations: seq<Violation>)
    | Unacceptable
    | TestFailed(error: string)
    | Conflicts(names: seq<string>)
    | InstallFailed
    | HighRisk(permissions: seq<Permission>)
    | ImportFailed(error: string)
    | NotDefined
    | TrialFailed(error: string)
    | Created(name: string)

  /** How far the request got: a stage of rank k passed every gate of lower rank. */
  function Rank(s: Stage): nat
  {
    match s
    case FormatRejected => 0
    case DescriptionMissing => 1
    case NoCode => 2
    case Insecure(_) => 3
    case Unacceptable => 4
    case TestFailed(_) => 5
    case Conflicts(_) => 6
    case InstallFailed => 7
    case HighRisk(_) => 8
    case ImportFailed(_) => 9
    case NotDefined => 9
    case TrialFailed(_) => 10
    case Created(_) => 10
  }

  function RiskName(r: Risk): string
  {
    match r
    case Low => "low"
    case Medium => "medium"
    case High => "high"
    case Critical => "critical"
  }

  function ViolationLines(vs: seq<Violation>): seq<string>
  {
    seq(|vs|, i requires 0 <= i < |vs| => "- " + vs[i].kind + ": " + vs[i].message)
  }

  function PermissionLines(ps: seq<Permission>): seq<string>
  {
    seq(|ps|, i requires 0 <= i < |ps| => "- " + ps[i].name + ": " + ps[i].description + " (Nivel: " + RiskName(ps[i].risk) + ")")
  }

  /** What `create_new_function` returns at each stage; `None` when the module holds no
      function of the requested name and the method falls off its end. */
  function CreationMessage(s: Stage): (r: Option<string>)
    ensures r.None? <==> s.NotDefined?
  {
    match s
    case FormatRejected => Some("Error: Formato inválido de respuesta")
    case DescriptionMissing => Some("Error al crear la función: list index out of range")
    case NoCode => Some("Error: No se pudo generar el código")
    case Insecure(vs) => Some("Error: El código no cumple con los requisitos de seguridad:\n" + Join(ViolationLines(vs), "\n"))
    case Unacceptable => Some("Error: El código generado no cumple con los requisitos")
    case TestFailed(e) => Some("Error: No se pudo crear la función después de varios intentos:\n" + e)
    case Conflicts(names) => Some("Error: Librerías no permitidas: " + Join(names, ", "))
    case InstallFailed => Some("Error: No se pudieron instalar las dependencias requeridas")
    case HighRisk(ps) => Some("Error: La función requiere permisos de alto riesgo:\n" + Join(PermissionLines(ps), "\n"))
    case ImportFailed(e) => Some("Error al registrar la función: " + e)
    case NotDefined => None
    case TrialFailed(e) => Some("Función creada pero falló la prueba: " + e)
    case Created(name) => Some("Función " + name + " creada y probada exitosamente")
  }

  /** The permissions that stop a creation: those of high or critical risk, in order. */
  function HighRiskOf(ps: seq<Permission>): (r: seq<Permission>)
    ensures forall p :: p in r <==> p in ps && (p.risk == High || p.risk == Critical)
  {
    if |ps| == 0 then []
    else (if ps[0].risk == High || ps[0].risk == Critical then [ps[0]] else []) + HighRiskOf(ps[1..])
  }

  /** Generated code is refused at the permission gate exactly when it is detected as
      writing files, using the network or running commands. */
  lemma HighRiskDetected(code: string)
    ensures HighRiskOf(AnalyzeRequiredPermissions(code)) != [] <==>
      "file_write" in RequiredNames(code) || "network_access" in RequiredNames(code) || "system_exec" in RequiredNames(code)
  {
    var ps := AnalyzeRequiredPermissions(code);
    var names := RequiredNames(code);
    if "file_write" in names { assert FileWrite in HighRiskOf(ps); }
    if "network_access" in names { assert NetworkAccess in HighRiskOf(ps); }
    if "system_exec" in names { assert SystemExec in HighRiskOf(ps); }
    if HighRiskOf(ps) != [] {
      var p := HighRiskOf(ps)[0];
      assert p in ps && p in CatalogList && p.name in names;
    }
  }

  /** The names passed to `grant_permissions`. */
  function PermissionNames(ps: seq<Permission>): (r: seq<string>)
    ensures |r| == |ps| && forall i :: 0 <= i < |ps| ==> r[i] == ps[i].name
  {
    seq(|ps|, i requires 0 <= i < |ps| => ps[i].name)
  }

  /** The grant is exactly the detected capabilities, all of which the catalog knows. */
  lemma GrantedNames(code: string)
    ensures (set n | n in PermissionNames(AnalyzeRequiredPermissions(code))) == RequiredNames(code)
    ensures forall n :: n in PermissionNames(AnalyzeRequiredPermissions(code)) ==> n in CatalogNames
  {
    NamesOfGranted(AnalyzeRequiredPermissions(code), RequiredNames(code));
  }

  /** The names of the catalog entries selected by `req` are `req` itself. */
  lemma NamesOfGranted(ps: seq<Permission>, req: set<string>)
    requires req <= CatalogNames
    requires forall p :: p in ps <==> p in CatalogList && p.name in req
    ensures (set n | n in PermissionNames(ps)) == req
    ensures forall n :: n in PermissionNames(ps) ==> n in CatalogNames
  {
    var names := PermissionNames(ps);
    CatalogDistinct();
    forall n | n in req ensures n in names {
      var p := Lookup(n).value;
      assert p in ps;
      var i :| 0 <= i < |ps| && ps[i] == p;
      assert names[i] == n;
    }
    forall n | n in names ensures n in req && n in CatalogNames {
      var i :| 0 <= i < |names| && names[i] == n;
      assert ps[i] in ps;
    }
  }

  /** What importing the written file gives: an exception, no function of the
      requested name, or that function's docstring and the exception (if any) that
      calling it raised. */
  datatype ModuleLoad = ImportRaised(error: string) | Lacks | Defines(doc: Option<string>, trial: Option<string>)

  /**
   * Everything `create_new_function` asks its collaborators: the code generator's
   * reply; which analyzer runs (`fixedAnalyzer` selects the one without the call to
   * the missing method) and the host facilities it borrows; whether a text compiles;
   * the test manager's environment and its recursion bound; the standard library's
   * module names, the version order, pip, and the package listing after an install;
   * and the importer.
   */
  datatype CreationEnv = CreationEnv(
    codeReply: AiService.Reply,
    fixedAnalyzer: bool,
    oracles: Oracles,
    compiles: string -> bool,
    test: TestManager.Env,
    fuel: nat,
    stdlib: set<string>,
    older: (string, string) -> bool,
    installer: string -> bool,
    refreshed: map<string, string>,
    load: (string, string) -> ModuleLoad)

  /** The generator produced code (`if not code` lets it through). */
  predicate HasCode(reply: AiService.Reply)
  {
    reply.Answered? && reply.text != "" && AiService.CleanCode(reply.text) != ""
  }

  /** The generated code, cleaned. */
  function GeneratedCode(reply: AiService.Reply): string
  {
    if reply.Answered? then AiService.CleanCode(reply.text) else ""
  }

  /** The analyzer's verdict on `code`. */
  function Verdict(env: CreationEnv, code: string): seq<Violation>
  {
    if env.fixedAnalyzer then AnalysisFixed(code, env.oracles) else Analysis(code, env.oracles)
  }

  /** The outside modules `analyze_dependencies` finds; none when the code does not parse. */
  function Externals(parsed: Parsed, stdlib: set<string>): set<string>
  {
    if parsed.SyntaxError? then {} else External(parsed.tree, stdlib)
  }

  /** Every outside module the code imports is on the allow-list. */
  ghost predicate ImportsAllowed(code: string, env: CreationEnv)
  {
    forall d :: d in Externals(env.oracles.parse(code), env.stdlib) ==> d in AllowedPackages
  }

  /** The refusals of the checks rank 3 to 5. */
  lemma CheckRefusalRank(s: Stage)
    requires s.Insecure? || s == Unacceptable || s.TestFailed?
    ensures 3 <= Rank(s) <= 5
  {
  }

  lemma HighRiskRank(ps: seq<Permission>)
    ensures Rank(HighRisk(ps)) == 8
  {
  }

  /** The pip request for an allowed package. */
  function Pin(d: string): string
    requires d in AllowedPackages
  {
    d + "==" + AllowedPackages[d]
  }

  const FunctionsDir := "resources/functions"

  function FunctionPath(name: string): string
  {
    FunctionsDir + "/" + name + ".py"
  }

  /** Every allowed name of a dependency list is requested at its pin. */
  lemma {:induction false} RequestsCoverAllowed(deps: seq<string>, d: string)
    requires d in deps && d in AllowedPackages
    ensures Pin(d) in Requests(deps)
    decreases |deps|
  {
    var init := deps[..|deps| - 1];
    if d in init {
      RequestsCoverAllowed(init, d);
    } else {
      assert deps == init + [deps[|deps| - 1]];
    }
  }

  /** pip succeeds for a list of allowed names exactly when it succeeds for each pin. */
  lemma InstallsEach(deps: seq<string>, installer: string -> bool)
    requires forall d :: d in deps ==> d in AllowedPackages
    ensures (forall s :: s in Requests(deps) ==> installer(s)) <==>
            (forall d :: d in deps ==> installer(Pin(d)))
  {
    RequestsArePinned(deps);
    forall d | d in deps ensures Pin(d) in Requests(deps) {
      RequestsCoverAllowed(deps, d);
    }
  }

  /** Some package the code needs (allowed, and missing from `installed` or older than
      its pin) fails to install at its pin; `installed` is what pip listed beforehand. */
  ghost predicate InstallFails(code: string, env: CreationEnv, installed: map<string, string>)
  {
    exists d :: d in Externals(env.oracles.parse(code), env.stdlib) && d in AllowedPackages &&
      (d !in installed || env.older(installed[d], AllowedPackages[d])) && !env.installer(Pin(d))
  }

  /** The pins `save_function_dependencies` records for the code: every imported package
      on the allow-list that is missing from `installed` or older than its pin. */
  ghost function NeededPins(code: string, env: CreationEnv, installed: map<string, string>): map<string, string>
  {
    map d | d in Externals(env.oracles.parse(code), env.stdlib) && d in AllowedPackages &&
            (d !in installed || env.older(installed[d], AllowedPackages[d])) :: AllowedPackages[d]
  }

  /** The pins recorded for the packages `analyze_dependencies` requires are the needed
      pins, and it requires none exactly when no pin is needed. */
  lemma NeededPinsAreRequired(required: seq<string>, code: string, env: CreationEnv, installed: map<string, string>)
    requires forall d :: d in required <==>
      d in Externals(env.oracles.parse(code), env.stdlib) && d in AllowedPackages &&
      (d !in installed || env.older(installed[d], AllowedPackages[d]))
    ensures PinnedVersions(required) == NeededPins(code, env, installed)
    ensures |required| > 0 <==> NeededPins(code, env, installed) != map[]
  {
    var pins := NeededPins(code, env, installed);
    if |required| > 0 {
      assert required[0] in pins;
    }
  }

  /** `names` lists exactly the imported packages the allow-list refuses. */
  ghost predicate ListsForbidden(names: seq<string>, code: string, env: CreationEnv)
  {
    forall d :: d in names <==> d in Externals(env.oracles.parse(code), env.stdlib) && d !in AllowedPackages
  }

  /** The refusal, if any, of the three checks in their order: the security analysis,
      `validate_code`, then the test. */
  function CheckOutcome(name: string, code: string, env: CreationEnv): (r: Option<Stage>)
    ensures r.Some? ==> r.value.Insecure? || r.value == Unacceptable || r.value.TestFailed?
    ensures r.Some? && r.value.Insecure? <==> Verdict(env, code) != []
    ensures r.Some? && r.value.Insecure? ==> r.value.violations == Verdict(env, code)
    ensures r == Some(Unacceptable) <==> Verdict(env, code) == [] && !AiService.Acceptable(code, env.compiles(code))
    ensures var t := TestManager.TestFunction(name, code, env.test, env.fuel);
      && (r.Some? && r.value.TestFailed? <==>
            Verdict(env, code) == [] && AiService.Acceptable(code, env.compiles(code)) && t.Failed?)
      && (r.Some? && r.value.TestFailed? ==> r.value.error == t.error)
      && (r == None <==> Verdict(env, code) == [] && AiService.Acceptable(code, env.compiles(code)) && t.Passed?)
  {
    var verdict := Verdict(env, code);
    if verdict != [] then Some(Insecure(verdict))
    else if !AiService.Acceptable(code, env.compiles(code)) then Some(Unacceptable)
    else
      var t := TestManager.TestFunction(name, code, env.test, env.fuel);
      if t.Failed? then Some(TestFailed(t.error)) else None
  }

  /** As written the test refuses every code, so the checks refuse every code: none
      reaches the dependencies, the permissions or the file. */
  lemma AsWrittenChecksRefuse(name: string, code: string, env: CreationEnv)
    ensures !env.test.fixedLoader ==> CheckOutcome(name, code, env).Some?
  {
    TestManager.NothingPassesAsWritten(name, code, env.test, env.fuel);
  }

  /** The generated code once cleaned. */
  function CodeOf(env: CreationEnv): string
  {
    GeneratedCode(env.codeReply)
  }

  /** The test of the generated code under the requested name. */
  function TestOf(aiResponse: string, env: CreationEnv): TestManager.TestResult
    requires ParseCreationRequest(aiResponse).CreationRequest?
  {
    TestManager.TestFunction(ParseCreationRequest(aiResponse).name, CodeOf(env), env.test, env.fuel)
  }

  /** As written, the analyzer always reports the missing `_check_error_handling`, so
      the security gate refuses every generated code (`CreateNewFunction` stops at
      `Insecure` whenever it reaches that gate). */
  lemma AsWrittenGateRefusesAll(env: CreationEnv, code: string)
    requires !env.fixedAnalyzer
    ensures Verdict(env, code) != []
  {
    AnalysisNeverEmpty(code, env.oracles);
  }

  /** With the analyzer repaired, code whose tree holds no flagged construct passes the
      security gate, where the code as written stops it. */
  lemma RepairedGateAdmitsCleanCode(env: CreationEnv, code: string)
    requires env.oracles.parse(code) == Parsed(CleanTree())
    requires forall p, c :: env.oracles.finditer(p, c) == []
    ensures env.fixedAnalyzer ==> Verdict(env, code) == []
    ensures !env.fixedAnalyzer ==> Verdict(env, code) == [Violation("error", ErrorPrefix + MissingMethodMessage, 0)]
  {
    FixedAnalysisCanPass(code, env.oracles);
    CleanCodeRejected(code, env.oracles);
  }

  // ---------------------------------------------------------------------
  // execute_function
  // ---------------------------------------------------------------------

  /** Which branch of `execute_function` answered. */
  datatype Route =
    | NotAFunction
    | Creation(stage: Stage)
    | UnknownFunction
    | Disabled
    | ExceptionRaised(error: string)
    | RunFailed(error: string)
    | RunSucceeded(value: string)

  function DisabledMessage(name: string): string
  {
    "La función " + name + " está deshabilitada temporalmente"
  }

  /** The text `execute_function` passes to `create_new_function` for a NEW analysis. */
  function CreationText(a: RequestAnalysis): string
  {
    NewPrefix + a.name + "\n" + a.detail
  }

  /** `str(context)` for the dictionary given to the translator after a successful run
      (the quoting `repr` applies inside the texts is not modelled). */
  function ContextText(request: string, name: string, description: string, time: nat): string
  {
    "{'request': '" + request + "', 'function_name': '" + name + "', 'description': '" + description +
    "', 'execution_time': " + NatToString(time) + "}"
  }

  /** No close matches: `execution_error` does not list suggestions. */
  function NoMatches(query: string, names: seq<string>): seq<string>
  {
    []
  }

  /** The answer after an execution error: the fallback of the `execution_error`
      template, since its callers pass only `name` and `error`. */
  function ExecutionErrorText(error: string): string
  {
    "Error: " + error + "\n" + FallbackAction
  }

  // ---------------------------------------------------------------------
  // The manager
  // ---------------------------------------------------------------------

  /** A loaded function object; only its docstring is looked at. */
  datatype FunctionObject = FunctionObject(doc: Option<string>)

  /** One entry of `errors/<name>_errors.log`. */
  datatype FunctionError = FunctionError(timestamp: string, context: string, error: string)

  class FunctionManager {
    /** `self.functions`: the callable objects by name. */
    var functions: map<string, FunctionObject>
    /** The files this manager wrote, by path. */
    var files: map<string, string>
    /** The per-function error logs. */
    var functionErrors: map<string, seq<FunctionError>>

    const registry: FunctionRegistry
    const logManager: LogManager
    const securityAnalyzer: SecurityAnalyzer
    const dependencyManager: DependencyManager
    const permissionManager: PermissionManager
    const feedbackManager: FeedbackManager
    const safeExecutor: SafeExecutor

    ghost predicate Valid()
      reads this, registry, logManager
    {
      registry.Valid() && logManager.Valid() && feedbackManager.registry == registry
    }

    /** `__init__`: `loaded` is what `_load_functions` found in the functions directory;
        the log sub-directories and the installed packages are as the disk has them. */
    constructor(loaded: map<string, FunctionObject>, executionsExist: bool, metricsExist: bool,
                installed: map<string, string>, restoresDirectory: bool)
      ensures Valid()
      ensures safeExecutor.State() == Fresh && safeExecutor.restoresDirectory == restoresDirectory
      ensures functions == loaded && files == map[] && functionErrors == map[]
      ensures registry.functions == map[] && permissionManager.functionPermissions == map[]
      ensures dependencyManager.installed == installed && dependencyManager.depFile == None
      ensures logManager.executionsDir == executionsExist && logManager.metricsDir == metricsExist
      ensures logManager.executionLogs == map[] && logManager.metricsFiles == map[] && logManager.errorLogs == NoErrorLogs
    {
      functions := loaded;
      files := map[];
      functionErrors := map[];
      var reg := new FunctionRegistry();
      registry := reg;
      logManager := new LogManager(executionsExist, metricsExist);
      securityAnalyzer := new SecurityAnalyzer();
      dependencyManager := new DependencyManager(installed);
      permissionManager := new PermissionManager();
      feedbackManager := new FeedbackManager(reg);
      safeExecutor := new SafeExecutor(restoresDirectory);
    }

    /** `get_available_functions`: every loaded function with its docstring, or
        "Sin descripción" when it has none. */
    function GetAvailableFunctions(): (r: map<string, string>)
      reads this
      ensures r.Keys == functions.Keys
      ensures forall n :: n in r ==> r[n] == ChooseDescription(None, functions[n].doc)
      ensures forall n :: n in r ==> r[n] != ""
    {
      map n | n in functions :: ChooseDescription(None, functions[n].doc)
    }

    /** Lines 205-220 of `create_new_function`: the security analysis, `validate_code` and
        the test. `tested` is the code the test settled on. */
    method CheckCode(name: string, code: string, env: CreationEnv) returns (stage: Option<Stage>, tested: string)
      modifies securityAnalyzer
      ensures stage == CheckOutcome(name, code, env)
      ensures stage == None ==> tested == TestManager.TestFunction(name, code, env.test, env.fuel).code
    {
      var violations;
      if env.fixedAnalyzer {
        violations := securityAnalyzer.AnalyzeCodeFixed(code, name, env.oracles);
      } else {
        violations := securityAnalyzer.AnalyzeCode(code, name, env.oracles);
      }
      tested := code;
      if |violations| > 0 {
        return Some(Insecure(violations)), tested;
      }
      var ok := AiService.ValidateCode(code, env.compiles(code));
      if !ok {
        return Some(Unacceptable), tested;
      }
      var t := TestManager.TestFunction(name, code, env.test, env.fuel);
      if !t.Passed? {
        return Some(TestFailed(t.error)), tested;
      }
      return None, t.code;
    }

    /** Lines 223-236: conflicts refuse the code; required packages are installed and
        recorded for the function. */
    method ResolveDependencies(name: string, code: string, env: CreationEnv) returns (stage: Option<Stage>)
      modifies dependencyManager
      ensures
        && (!ImportsAllowed(code, env) ==>
              && stage.Some? && stage.value.Conflicts?
              && ListsForbidden(stage.value.names, code, env)
              && Distinct(stage.value.names))
        && (ImportsAllowed(code, env) ==> (stage == None <==> !InstallFails(code, env, old(dependencyManager.installed))))
        && (ImportsAllowed(code, env) && stage != None ==> stage == Some(InstallFailed))
      ensures stage != None ==> stage.value.Conflicts? || stage.value == InstallFailed
      ensures stage != None ==>
        dependencyManager.installed == old(dependencyManager.installed) && dependencyManager.depFile == old(dependencyManager.depFile)
      ensures forall f :: f != name ==>
        dependencyManager.GetFunctionDependencies(f) == old(dependencyManager.GetFunctionDependencies(f))
      ensures stage == None && NeededPins(code, env, old(dependencyManager.installed)) != map[] ==>
        dependencyManager.GetFunctionDependencies(name) == NeededPins(code, env, old(dependencyManager.installed))
      ensures stage == None && NeededPins(code, env, old(dependencyManager.installed)) == map[] ==>
        unchanged(dependencyManager)
    {
      var required, conflicts := dependencyManager.AnalyzeDependencies(env.oracles.parse(code), env.stdlib, env.older);
      ghost var ext := Externals(env.oracles.parse(code), env.stdlib);
      if |conflicts| > 0 {
        assert conflicts[0] in ext && conflicts[0] !in AllowedPackages;
        return Some(Conflicts(conflicts));
      }
      NeededPinsAreRequired(required, code, env, dependencyManager.installed);
      stage := InstallRequired(name, required, env);
    }

    /** Lines 228-236: the required packages are installed, and on success recorded for
        the function; with none required nothing happens. */
    method InstallRequired(name: string, required: seq<string>, env: CreationEnv) returns (stage: Option<Stage>)
      requires forall d :: d in required ==> d in AllowedPackages
      modifies dependencyManager
      ensures stage == None <==> forall d :: d in required ==> env.installer(Pin(d))
      ensures stage != None ==>
        && stage == Some(InstallFailed)
        && dependencyManager.installed == old(dependencyManager.installed)
        && dependencyManager.depFile == old(dependencyManager.depFile)
      ensures forall f :: f != name ==>
        dependencyManager.GetFunctionDependencies(f) == old(dependencyManager.GetFunctionDependencies(f))
      ensures stage == None && |required| > 0 ==> dependencyManager.GetFunctionDependencies(name) == PinnedVersions(required)
      ensures |required| == 0 ==> unchanged(dependencyManager)
    {
      if |required| == 0 {
        return None;
      }
      var ok, attempted := dependencyManager.InstallDependencies(required, env.installer, env.refreshed);
      InstallsEach(required, env.installer);
      if !ok {
        return Some(InstallFailed);
      }
      dependencyManager.SaveFunctionDependencies(name, required);
      return None;
    }

    /** Line 278: `registry.register(name, obj, description, path)`. */
    method RegisterLoaded(name: string, doc: Option<string>, description: string, now: string)
      requires registry.Valid()
      modifies registry
      ensures registry.Valid()
      ensures registry.functions == old(registry.functions)[name :=
        FreshEntry(name, ChooseDescription(Some(description), doc), Some(FunctionPath(name)), None, None, now)]
    {
      var _ := registry.Register(name, doc, Some(description), Some(FunctionPath(name)), None, None, now);
    }

    /** Lines 239-297: the permission gate, the grant, the file, and the import that
        registers and tries the function. */
    method Install(name: string, description: string, code: string, env: CreationEnv, now: string)
      returns (stage: Stage)
      requires Valid()
      modifies this, registry, permissionManager
      ensures Valid()
      ensures var high := HighRiskOf(AnalyzeRequiredPermissions(code));
        && (high != [] ==>
              && stage == HighRisk(high) && functions == old(functions) && files == old(files)
              && unchanged(registry, permissionManager))
        && (high == [] ==>
              permissionManager.functionPermissions == old(permissionManager.functionPermissions)[name := RequiredNames(code)] &&
              files == old(files)[FunctionPath(name) := code])
      ensures Rank(stage) >= 8
      ensures stage.HighRisk? || Rank(stage) >= 9
      ensures stage.HighRisk? <==> HighRiskOf(AnalyzeRequiredPermissions(code)) != []
      ensures Rank(stage) >= 9 && !env.load(name, code).Defines? ==>
        functions == old(functions) && unchanged(registry) &&
        stage == (if env.load(name, code).Lacks? then NotDefined else ImportFailed(env.load(name, code).error))
      ensures Rank(stage) >= 9 && env.load(name, code).Defines? ==>
        var m := env.load(name, code);
        && functions == old(functions)[name := FunctionObject(m.doc)]
        && registry.functions == old(registry.functions)[name :=
             FreshEntry(name, ChooseDescription(Some(description), m.doc), Some(FunctionPath(name)), None, None, now)]
        && stage == (if m.trial.None? then Created(name) else TrialFailed(m.trial.value))
      ensures functionErrors == old(functionErrors)
    {
      var required := AnalyzeRequiredPermissions(code);
      var high := HighRiskOf(required);
      if |high| > 0 {
        HighRiskRank(high);
        return HighRisk(high);
      }
      Grant(name, code);
      files := files[FunctionPath(name) := code];
      stage := LoadWritten(name, description, code, env, now);
    }

    /** Line 250: every permission the code needs is in the catalogue, so the grant
        always succeeds and records exactly the names it needs. */
    method Grant(name: string, code: string)
      modifies permissionManager
      ensures permissionManager.functionPermissions == old(permissionManager.functionPermissions)[name := RequiredNames(code)]
    {
      GrantedNames(code);
      var granted := permissionManager.GrantPermissions(name, PermissionNames(AnalyzeRequiredPermissions(code)));
    }

    /** Lines 268-297: the import of the written file; a function of the requested name
        is registered, kept and called once. */
    method LoadWritten(name: string, description: string, code: string, env: CreationEnv, now: string)
      returns (stage: Stage)
      requires Valid()
      modifies this, registry
      ensures Valid()
      ensures Rank(stage) >= 9
      ensures files == old(files) && functionErrors == old(functionErrors)
      ensures !env.load(name, code).Defines? ==>
        functions == old(functions) && unchanged(registry) &&
        stage == (if env.load(name, code).Lacks? then NotDefined else ImportFailed(env.load(name, code).error))
      ensures env.load(name, code).Defines? ==>
        var m := env.load(name, code);
        && functions == old(functions)[name := FunctionObject(m.doc)]
        && registry.functions == old(registry.functions)[name :=
             FreshEntry(name, ChooseDescription(Some(description), m.doc), Some(FunctionPath(name)), None, None, now)]
        && stage == (if m.trial.None? then Created(name) else TrialFailed(m.trial.value))
    {
      match env.load(name, code) {
        case ImportRaised(e) =>
          return ImportFailed(e);
        case Lacks =>
          return NotDefined;
        case Defines(doc, trial) =>
          RegisterLoaded(name, doc, description, now);
          functions := functions[name := FunctionObject(doc)];
          if trial.None? {
            return Created(name);
          }
          return TrialFailed(trial.value);
      }
    }
  
    /** Lines 223-297: dependencies, permissions, the file and the import, for code that
        passed the checks. */
    method Deploy(name: string, description: string, code: string, env: CreationEnv, now: string)
      returns (stage: Stage)
      requires Valid()
      modifies this, registry, dependencyManager, permissionManager
      ensures Valid()
      ensures functionErrors == old(functionErrors)
      ensures Rank(stage) >= 6
      ensures stage.Conflicts? || stage == InstallFailed || stage.HighRisk? || Rank(stage) >= 9
      ensures
        && (stage.Conflicts? <==> !ImportsAllowed(code, env))
        && (stage.Conflicts? ==> ListsForbidden(stage.names, code, env))
      ensures Rank(stage) >= 7 ==>
        (stage == InstallFailed <==> InstallFails(code, env, old(dependencyManager.installed)))
      ensures Rank(stage) <= 7 ==> dependencyManager.installed == old(dependencyManager.installed)
      ensures Rank(stage) <= 8 ==>
        functions == old(functions) && files == old(files) && unchanged(registry, permissionManager)
      ensures Rank(stage) >= 8 ==>
        && (stage.HighRisk? <==> HighRiskOf(AnalyzeRequiredPermissions(code)) != [])
        && (stage.HighRisk? ==> stage.permissions == HighRiskOf(AnalyzeRequiredPermissions(code)))
      ensures Rank(stage) >= 9 ==>
        permissionManager.functionPermissions == old(permissionManager.functionPermissions)[name := RequiredNames(code)] &&
        files == old(files)[FunctionPath(name) := code]
      ensures Rank(stage) >= 9 && !env.load(name, code).Defines? ==>
        functions == old(functions) && unchanged(registry) &&
        stage == (if env.load(name, code).Lacks? then NotDefined else ImportFailed(env.load(name, code).error))
      ensures Rank(stage) >= 9 && env.load(name, code).Defines? ==>
        var m := env.load(name, code);
        && functions == old(functions)[name := FunctionObject(m.doc)]
        && registry.functions == old(registry.functions)[name :=
             FreshEntry(name, ChooseDescription(Some(description), m.doc), Some(FunctionPath(name)), None, None, now)]
        && stage == (if m.trial.None? then Created(name) else TrialFailed(m.trial.value))
    {
      var deps := ResolveDependencies(name, code, env);
      if deps.Some? {
        assert deps.value.Conflicts? || deps.value == InstallFailed;
        return deps.value;
      }
      assert ImportsAllowed(code, env) && !InstallFails(code, env, old(dependencyManager.installed));
      stage := Install(name, description, code, env, now);
    }

    /** Lines 205-297: the checks, then the deployment of the code the test settled on. */
    method Gates(name: string, description: string, code: string, env: CreationEnv, now: string)
      returns (stage: Stage)
      requires Valid()
      modifies this, registry, securityAnalyzer, dependencyManager, permissionManager
      ensures Valid()
      ensures functionErrors == old(functionErrors)
      ensures CheckOutcome(name, code, env).Some? ==>
        && stage == CheckOutcome(name, code, env).value
        && 3 <= Rank(stage) <= 5
        && functions == old(functions) && files == old(files)
        && unchanged(registry, permissionManager, dependencyManager)
      ensures CheckOutcome(name, code, env) == None ==>
        Rank(stage) >= 6 && (stage.Conflicts? || stage == InstallFailed || stage.HighRisk? || Rank(stage) >= 9)
      ensures CheckOutcome(name, code, env) == None && Rank(stage) <= 8 ==>
        functions == old(functions) && files == old(files) && unchanged(registry, permissionManager)
      ensures CheckOutcome(name, code, env) == None ==>
        var tested := TestManager.TestFunction(name, code, env.test, env.fuel).code;
        && (stage.Conflicts? <==> !ImportsAllowed(tested, env))
        && (stage.Conflicts? ==> ListsForbidden(stage.names, tested, env))
        && (Rank(stage) >= 7 ==>
              (stage == InstallFailed <==> InstallFails(tested, env, old(dependencyManager.installed))))
        && (Rank(stage) >= 8 ==>
              && (stage.HighRisk? <==> HighRiskOf(AnalyzeRequiredPermissions(tested)) != [])
              && (stage.HighRisk? ==> stage.permissions == HighRiskOf(AnalyzeRequiredPermissions(tested))))
        && (Rank(stage) >= 9 ==>
              permissionManager.functionPermissions == old(permissionManager.functionPermissions)[name := RequiredNames(tested)] &&
              files == old(files)[FunctionPath(name) := tested])
      ensures CheckOutcome(name, code, env) == None && Rank(stage) >= 9 ==>
        var tested := TestManager.TestFunction(name, code, env.test, env.fuel).code;
        var m := env.load(name, tested);
        && (m.ImportRaised? ==> stage == ImportFailed(m.error) && functions == old(functions) && unchanged(registry))
        && (m.Lacks? ==> stage == NotDefined && functions == old(functions) && unchanged(registry))
        && (m.Defines? ==>
              && functions == old(functions)[name := FunctionObject(m.doc)]
              && registry.functions == old(registry.functions)[name :=
                   FreshEntry(name, ChooseDescription(Some(description), m.doc), Some(FunctionPath(name)), None, None, now)]
              && stage == (if m.trial.None? then Created(name) else TrialFailed(m.trial.value)))
    {
      var gate, tested := CheckCode(name, code, env);
      if gate.Some? {
        CheckRefusalRank(gate.value);
        return gate.value;
      }
      stage := Deploy(name, description, tested, env, now);
    }

    /** What `create_new_function` promises about the stage it reaches and the state it
        leaves: each gate refuses exactly when its condition holds, and every refusal
        (rank 8 or lower) comes before anything is granted, written or registered. */
    twostate predicate CreationEffect(aiResponse: string, env: CreationEnv, now: string, stage: Stage)
      reads this, registry, securityAnalyzer, dependencyManager, permissionManager
    {
      && functionErrors == old(functionErrors)
      && (var req := ParseCreationRequest(aiResponse);
          && (req.NotNew? <==> stage == FormatRejected)
          && (req.NoSecondLine? <==> stage == DescriptionMissing)
          && (req.CreationRequest? ==> (stage == NoCode <==> !HasCode(env.codeReply))))
      && (Rank(stage) <= 2 ==> unchanged(securityAnalyzer))
      && (Rank(stage) <= 5 ==> unchanged(dependencyManager))
      && (Rank(stage) <= 8 ==>
            functions == old(functions) && files == old(files) && unchanged(registry, permissionManager))
      && (Rank(stage) >= 3 ==> ParseCreationRequest(aiResponse).CreationRequest? && HasCode(env.codeReply))
      && (3 <= Rank(stage) <= 5 ==>
            CheckOutcome(ParseCreationRequest(aiResponse).name, CodeOf(env), env) == Some(stage))
      && (Rank(stage) >= 6 ==> CheckOutcome(ParseCreationRequest(aiResponse).name, CodeOf(env), env) == None)
      && (Rank(stage) >= 6 ==>
            var tested := TestOf(aiResponse, env).code;
            && (stage.Conflicts? <==> !ImportsAllowed(tested, env))
            && (stage.Conflicts? ==> ListsForbidden(stage.names, tested, env))
            && (Rank(stage) >= 7 ==>
                  (stage == InstallFailed <==> InstallFails(tested, env, old(dependencyManager.installed))))
            && (Rank(stage) >= 8 ==>
                  && (stage.HighRisk? <==> HighRiskOf(AnalyzeRequiredPermissions(tested)) != [])
                  && (stage.HighRisk? ==> stage.permissions == HighRiskOf(AnalyzeRequiredPermissions(tested)))))
      && (Rank(stage) >= 9 ==>
            var req := ParseCreationRequest(aiResponse);
            var tested := TestOf(aiResponse, env).code;
            var m := env.load(req.name, tested);
            && permissionManager.functionPermissions == old(permissionManager.functionPermissions)[req.name := RequiredNames(tested)]
            && files == old(files)[FunctionPath(req.name) := tested]
            && (m.ImportRaised? ==> stage == ImportFailed(m.error) && functions == old(functions) && unchanged(registry))
            && (m.Lacks? ==> stage == NotDefined && functions == old(functions) && unchanged(registry))
            && (m.Defines? ==>
                  && functions == old(functions)[req.name := FunctionObject(m.doc)]
                  && registry.functions == old(registry.functions)[req.name :=
                       FreshEntry(req.name, ChooseDescription(Some(req.description), m.doc), Some(FunctionPath(req.name)), None, None, now)]
                  && stage == (if m.trial.None? then Created(req.name) else TrialFailed(m.trial.value))))
    }

    /** As written no creation gets past the test: nothing is installed, granted,
        written or registered. */
    twostate lemma AsWrittenCreatesNothing(aiResponse: string, env: CreationEnv, now: string, stage: Stage)
      requires CreationEffect(aiResponse, env, now, stage) && !env.test.fixedLoader
      ensures Rank(stage) <= 5
      ensures functions == old(functions) && files == old(files)
      ensures unchanged(registry, dependencyManager, permissionManager)
    {
      if Rank(stage) >= 6 {
        AsWrittenChecksRefuse(ParseCreationRequest(aiResponse).name, CodeOf(env), env);
      }
    }

    /** `create_new_function`: the gates in their order. Every refusal (rank 8 or lower)
        returns before anything is granted, written or registered. */
    method CreateNewFunction(aiResponse: string, env: CreationEnv, now: string) returns (r: Option<string>, stage: Stage)
      requires Valid()
      modifies this, registry, securityAnalyzer, dependencyManager, permissionManager
      ensures Valid()
      ensures r == CreationMessage(stage)
      ensures functionErrors == old(functionErrors)
      ensures var req := ParseCreationRequest(aiResponse);
        && (req.NotNew? <==> stage == FormatRejected)
        && (req.NoSecondLine? <==> stage == DescriptionMissing)
        && (req.CreationRequest? ==> (stage == NoCode <==> !HasCode(env.codeReply)))
      ensures Rank(stage) <= 2 ==> unchanged(securityAnalyzer)
      ensures Rank(stage) <= 5 ==> unchanged(dependencyManager)
      ensures Rank(stage) <= 8 ==>
        functions == old(functions) && files == old(files) && unchanged(registry, permissionManager)
      ensures Rank(stage) >= 3 ==> ParseCreationRequest(aiResponse).CreationRequest? && HasCode(env.codeReply)
      ensures 3 <= Rank(stage) <= 5 ==>
        CheckOutcome(ParseCreationRequest(aiResponse).name, CodeOf(env), env) == Some(stage)
      ensures Rank(stage) >= 6 ==> CheckOutcome(ParseCreationRequest(aiResponse).name, CodeOf(env), env) == None
      ensures Rank(stage) >= 6 ==>
        var tested := TestOf(aiResponse, env).code;
        && (stage.Conflicts? <==> !ImportsAllowed(tested, env))
        && (stage.Conflicts? ==> ListsForbidden(stage.names, tested, env))
        && (Rank(stage) >= 7 ==>
              (stage == InstallFailed <==> InstallFails(tested, env, old(dependencyManager.installed))))
        && (Rank(stage) >= 8 ==>
              && (stage.HighRisk? <==> HighRiskOf(AnalyzeRequiredPermissions(tested)) != [])
              && (stage.HighRisk? ==> stage.permissions == HighRiskOf(AnalyzeRequiredPermissions(tested))))
      ensures Rank(stage) >= 9 ==>
        var req := ParseCreationRequest(aiResponse);
        var tested := TestOf(aiResponse, env).code;
        var m := env.load(req.name, tested);
        && permissionManager.functionPermissions == old(permissionManager.functionPermissions)[req.name := RequiredNames(tested)]
        && files == old(files)[FunctionPath(req.name) := tested]
        && (m.ImportRaised? ==> stage == ImportFailed(m.error) && functions == old(functions) && unchanged(registry))
        && (m.Lacks? ==> stage == NotDefined && functions == old(functions) && unchanged(registry))
        && (m.Defines? ==>
              && functions == old(functions)[req.name := FunctionObject(m.doc)]
              && registry.functions == old(registry.functions)[req.name :=
                   FreshEntry(req.name, ChooseDescription(Some(req.description), m.doc), Some(FunctionPath(req.name)), None, None, now)]
              && stage == (if m.trial.None? then Created(req.name) else TrialFailed(m.trial.value)))
    {
      var req := ParseCreationRequest(aiResponse);
      if req.NotNew? {
        stage := FormatRejected;
      } else if req.NoSecondLine? {
        stage := DescriptionMissing;
      } else {
        var code := AiService.GenerateCode(env.codeReply);
        if code.None? || code.value == "" {
          stage := NoCode;
        } else {
          stage := Gates(req.name, req.description, code.value, env, now);
        }
      }
      r := CreationMessage(stage);
    }

    /** The error log of one function, empty before its first entry. */
    static function ErrorsOf(errors: map<string, seq<FunctionError>>, name: string): seq<FunctionError>
    {
      if name in errors then errors[name] else []
    }

    /** Lines 152-161: an exception left `execute` or `log_execution`; the error goes to the
        function's error log and the answer is the execution-error feedback, untranslated.
        The registry and the logs kept by the log manager do not change. */
    twostate predicate ReportedException(name: string, request: string, error: string, now: string,
                                         r: string, route: Route)
      reads this, registry, logManager
    {
      && route == ExceptionRaised(error) && r == ExecutionErrorText(error)
      && unchanged(registry)
      && logManager.executionLogs == old(logManager.executionLogs)
      && logManager.metricsFiles == old(logManager.metricsFiles)
      && logManager.errorLogs == old(logManager.errorLogs)
      && functionErrors == old(functionErrors)[name := ErrorsOf(old(functionErrors), name) + [FunctionError(now, request, error)]]
    }

    /** Lines 109-150: the dictionary was logged; a failure counts an error, is logged and
        its feedback translated, a success updates the usage and is translated with its
        context. */
    twostate predicate LoggedAndAnswered(name: string, request: string, result: ExecResult,
                                         translate: (string, string) -> string, now: string, r: string, route: Route)
      reads this, registry, logManager
    {
      && name in old(registry.functions)
      && functionErrors == old(functionErrors)
      && logManager.executionLogs == old(logManager.executionLogs)[name :=
           (if name in old(logManager.executionLogs) then old(logManager.executionLogs)[name] else []) + [RecordOf(result, now)]]
      && (logManager.metricsDir ==>
            logManager.metricsFiles == old(logManager.metricsFiles)[name := Updated(Current(old(logManager.metricsFiles), name), result, now)])
      && (!logManager.metricsDir ==> logManager.metricsFiles == old(logManager.metricsFiles))
      && (result.Failed? ==>
            && route == RunFailed(result.error)
            && r == translate(ExecutionErrorText(result.error), request)
            && registry.functions == old(registry.functions)[name := ErrorCounted(old(registry.functions)[name])]
            && logManager.errorLogs == WithError(old(logManager.errorLogs),
                 ErrorRecord(now, name, result.error, map["request" := request, "type" := KindName(result.kind)])))
      && (result.Succeeded? ==>
            && route == RunSucceeded(result.value)
            && r == translate(result.value, ContextText(request, name,
                      GetOr(old(registry.functions)[name].description, ""), result.executionTime))
            && registry.functions == old(registry.functions)[name :=
                 UsageUpdated(old(registry.functions)[name], result.executionTime as real, now)]
            && logManager.errorLogs == old(logManager.errorLogs))
    }

    /** Lines 103-161 for a loaded and enabled function: the executor's fields take the run,
        and the answer is the exception's feedback when `execute` or `log_execution`
        raises, otherwise the logged and translated dictionary. The loaded functions and
        the written files do not change. */
    twostate predicate RanFunction(name: string, request: string, run: RunEvent, logFailure: string,
                                   translate: (string, string) -> string, now: string, r: string, route: Route)
      reads this, registry, logManager, safeExecutor
    {
      var out := ExecuteOutcome(safeExecutor.restoresDirectory, old(safeExecutor.State()), run);
      && functions == old(functions) && files == old(files)
      && safeExecutor.State() == AfterRun(old(safeExecutor.State()), run)
      && (out.Raised? ==> ReportedException(name, request, out.error, now, r, route))
      && (out.Returned? && !old(logManager.executionsDir) ==> ReportedException(name, request, logFailure, now, r, route))
      && (out.Returned? && old(logManager.executionsDir) ==> LoggedAndAnswered(name, request, out.result, translate, now, r, route))
    }

    /** Lines 103-161 of `execute_function`, for a loaded and enabled function. */
    method RunFunction(name: string, request: string, run: RunEvent, logFailure: string,
                       translate: (string, string) -> string, now: string) returns (r: string, route: Route)
      requires Valid() && name in functions && registry.IsFunctionEnabled(name)
      modifies this, registry, logManager, safeExecutor
      ensures Valid()
      ensures RanFunction(name, request, run, logFailure, translate, now, r, route)
    {
      var out := safeExecutor.Execute(run);
      if out.Raised? {
        r := ReportException(name, request, out.error, now);
        return r, ExceptionRaised(out.error);
      }
      var raised := logManager.LogExecution(name, out.result, now);
      if raised {
        r := ReportException(name, request, logFailure, now);
        return r, ExceptionRaised(logFailure);
      }
      r, route := Answer(name, request, out.result, translate, now);
    }

    /** Lines 152-161: the error goes to the function's error log and the answer is the
        execution-error feedback, untranslated. */
    method ReportException(name: string, request: string, error: string, now: string) returns (r: string)
      modifies this
      ensures r == ExecutionErrorText(error)
      ensures functions == old(functions) && files == old(files)
      ensures functionErrors == old(functionErrors)[name := ErrorsOf(old(functionErrors), name) + [FunctionError(now, request, error)]]
    {
      var message := feedbackManager.GetErrorMessage("execution_error", map["name" := name, "error" := error], NoMatches);
      CallersGetFallback(name, error, "");
      functionErrors := functionErrors[name := ErrorsOf(functionErrors, name) + [FunctionError(now, request, error)]];
      return message.message + "\n" + message.action;
    }

    /** Lines 111-150: the answer for a logged run; a failure counts an error and is
        logged, a success updates the usage and is translated with its context. */
    method Answer(name: string, request: string, result: ExecResult, translate: (string, string) -> string,
                  now: string) returns (r: string, route: Route)
      requires Valid() && name in registry.functions
      modifies registry, logManager
      ensures Valid()
      ensures logManager.executionLogs == old(logManager.executionLogs)
      ensures logManager.metricsFiles == old(logManager.metricsFiles)
      ensures logManager.executionsDir == old(logManager.executionsDir) && logManager.metricsDir == old(logManager.metricsDir)
      ensures result.Failed? ==>
        && route == RunFailed(result.error)
        && r == translate(ExecutionErrorText(result.error), request)
        && registry.functions == old(registry.functions)[name := ErrorCounted(old(registry.functions)[name])]
        && logManager.errorLogs == WithError(old(logManager.errorLogs),
             ErrorRecord(now, name, result.error, map["request" := request, "type" := KindName(result.kind)]))
      ensures result.Succeeded? ==>
        && route == RunSucceeded(result.value)
        && r == translate(result.value, ContextText(request, name,
                  GetOr(old(registry.functions)[name].description, ""), result.executionTime))
        && registry.functions == old(registry.functions)[name :=
             UsageUpdated(old(registry.functions)[name], result.executionTime as real, now)]
        && logManager.errorLogs == old(logManager.errorLogs)
    {
      match result {
        case Failed(error, kind) =>
          var message := feedbackManager.GetErrorMessage("execution_error", map["name" := name, "error" := error], NoMatches);
          CallersGetFallback(name, error, "");
          registry.IncrementErrorCount(name, now);
          logManager.LogError(name, error, map["request" := request, "type" := KindName(kind)], now);
          return translate(message.message + "\n" + message.action, request), RunFailed(error);
        case Succeeded(value, time, _) =>
          registry.UpdateUsage(name, time as real, now);
          var info := registry.GetFunctionInfo(name);
          return translate(value, ContextText(request, name, GetOr(info.description, ""), time)), RunSucceeded(value);
      }
    }

    /** Lines 87-91 of `execute_function`: a NEW analysis goes to `create_new_function`
        and its message, if any, is translated for the request. */
    method CreateRequested(a: RequestAnalysis, request: string, env: CreationEnv,
                           translate: (string, string) -> string, now: string) returns (r: Option<string>, route: Route)
      requires Valid()
      modifies this, registry, securityAnalyzer, dependencyManager, permissionManager
      ensures Valid()
      ensures route.Creation? && CreationEffect(CreationText(a), env, now, route.stage)
      ensures r == if route.stage.NotDefined? then None else Some(translate(CreationMessage(route.stage).value, request))
    {
      var result, stage := CreateNewFunction(CreationText(a), env, now);
      route := Creation(stage);
      if result.None? {
        return None, route;
      }
      r := Some(translate(result.value, request));
    }

    /** Lines 94-161 of `execute_function` once the analysis named `name`: an unknown
        name is not a function request, a disabled one is refused, and an enabled one runs. */
    method CallKnown(name: string, request: string, run: RunEvent, logFailure: string,
                     translate: (string, string) -> string, now: string) returns (r: Option<string>, route: Route)
      requires Valid()
      modifies this, registry, logManager, safeExecutor
      ensures Valid()
      ensures name !in old(functions) ==>
        route == UnknownFunction && r == None && unchanged(this, registry, logManager, safeExecutor)
      ensures name in old(functions) && !old(registry.IsFunctionEnabled(name)) ==>
        route == Disabled && r == Some(DisabledMessage(name)) && unchanged(this, registry, logManager, safeExecutor)
      ensures name in old(functions) && old(registry.IsFunctionEnabled(name)) ==>
        r.Some? && RanFunction(name, request, run, logFailure, translate, now, r.value, route)
    {
      if name !in functions {
        return None, UnknownFunction;
      }
      if !registry.IsFunctionEnabled(name) {
        return Some(DisabledMessage(name)), Disabled;
      }
      var answer;
      answer, route := RunFunction(name, request, run, logFailure, translate, now);
      r := Some(answer);
    }

    /** `execute_function`. `analysisReply` is the classifier's answer, `run` how the
        function's thread ended, `logFailure` the text of the exception raised when the
        execution log cannot be opened, and `translate` the AI service's
        `translate_result`. */
    method ExecuteFunction(request: string, analysisReply: AiService.Reply, env: CreationEnv, run: RunEvent,
                           logFailure: string, translate: (string, string) -> string, now: string)
      returns (r: Option<string>, route: Route)
      requires Valid()
      modifies this, registry, logManager, safeExecutor, securityAnalyzer, dependencyManager, permissionManager
      ensures Valid()
      ensures var a := AnalyzeRequest(AiService.AnalyzeRequest(analysisReply), old(registry.functions));
        && (a.kind == No ==>
              route == NotAFunction && r == None &&
              unchanged(this, registry, logManager, safeExecutor, securityAnalyzer, dependencyManager, permissionManager))
        && (a.kind == New ==>
              && route.Creation? && unchanged(logManager, safeExecutor)
              && CreationEffect(CreationText(a), env, now, route.stage)
              && r == (if route.stage.NotDefined? then None
                       else Some(translate(CreationMessage(route.stage).value, request))))
        && (a.kind == Yes && a.name !in old(functions) ==>
              route == UnknownFunction && r == None &&
              unchanged(this, registry, logManager, safeExecutor, securityAnalyzer, dependencyManager, permissionManager))
        && (a.kind == Yes && a.name in old(functions) && !old(registry.IsFunctionEnabled(a.name)) ==>
              route == Disabled && r == Some(DisabledMessage(a.name)) &&
              unchanged(this, registry, logManager, safeExecutor, securityAnalyzer, dependencyManager, permissionManager))
        && (a.kind == Yes && a.name in old(functions) && old(registry.IsFunctionEnabled(a.name)) ==>
              && unchanged(securityAnalyzer, dependencyManager, permissionManager)
              && r.Some? && RanFunction(a.name, request, run, logFailure, translate, now, r.value, route))
    {
      var a := AnalyzeRequest(AiService.AnalyzeRequest(analysisReply), registry.functions);
      if a.kind == New {
        r, route := CreateRequested(a, request, env, translate, now);
      } else {
        r, route := ExecuteKnown(a, request, run, logFailure, translate, now);
      }
    }

    /** Lines 84-161 of `execute_function` for an analysis that is not NEW. */
    method ExecuteKnown(a: RequestAnalysis, request: string, run: RunEvent, logFailure: string,
                        translate: (string, string) -> string, now: string) returns (r: Option<string>, route: Route)
      requires Valid() && a.kind != New
      modifies this, registry, logManager, safeExecutor
      ensures Valid()
      ensures a.kind == No ==> route == NotAFunction && r == None && unchanged(this, registry, logManager, safeExecutor)
      ensures a.kind == Yes && a.name !in old(functions) ==>
        route == UnknownFunction && r == None && unchanged(this, registry, logManager, safeExecutor)
      ensures a.kind == Yes && a.name in old(functions) && !old(registry.IsFunctionEnabled(a.name)) ==>
        route == Disabled && r == Some(DisabledMessage(a.name)) && unchanged(this, registry, logManager, safeExecutor)
      ensures a.kind == Yes && a.name in old(functions) && old(registry.IsFunctionEnabled(a.name)) ==>
        r.Some? && RanFunction(a.name, request, run, logFailure, translate, now, r.value, route)
    {
      if a.kind == No {
        return None, NotAFunction;
      }
      r, route := CallKnown(a.name, request, run, logFailure, translate, now);
    }
  }
}
