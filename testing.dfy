/**
 * The test and repair manager: runs a generated function once, checks that it
 * has a docstring and a `try` somewhere in its module, and on any failure asks
 * a code generator for a repaired version, retrying while the attempt number
 * is at most `max_repair_attempts`.
 *
 * `test_function` and `_repair_code` call each other. A repaired version is
 * tested by a fresh `test_function`, which starts its own chain of repairs at
 * attempt 1; only a failure of that nested test moves the outer chain to the
 * next attempt. The bound therefore holds per chain.
 *
 * As written, the temporary module is built from the location "", for which
 * `spec_from_file_location` finds no loader and returns `None`; building the
 * module from it raises `AttributeError` on every call, before the code is
 * run. `fixedLoader` selects a test that builds the module from a real `.py`
 * location instead; then loading and running the code (`exec`, `getattr`,
 * the call) is the environment's `load`. `ast.parse` is its `parse`. The
 * repair service handed to the manager in the application is the AI service,
 * which has no `generate_content`: that case is `LacksGenerateContent`.
 */
module TestManager {
  import opened Base
  import opened PyAst

  /** `self.max_repair_attempts`: three targeted repairs and one full rewrite. */
  const MaxRepairAttempts: nat := 4

  const MissingGenerateContent := "'AIService' object has no attribute 'generate_content'"
  const ExhaustedMessage := "Se agotaron los intentos de reparación"
  const EmptyRepairMessage := "No se pudo generar código reparado"
  const NonStringMessage := "La función debe retornar un string"
  const NoDocMessage := "Función sin documentación"
  const NoTryMessage := "Función sin manejo de errores"
  const RecursionMessage := "maximum recursion depth exceeded"
  /** What `module_from_spec(None)` raises. */
  const NoLoaderMessage := "'NoneType' object has no attribute 'loader'"

  /** What calling the loaded function does. */
  datatype RunOutcome = Returned(text: string) | NonString | Raised(error: string, trace: string)

  /** What loading the code into a fresh module and looking the name up gives: an
      exception, no (truthy) attribute by that name, or a callable with its
      docstring ("" when it has none) and the outcome of calling it. */
  datatype LoadOutcome = LoadRaised(error: string, trace: string) | Missing | Found(doc: string, run: RunOutcome)

  /** What the repair prompt carries: the error, the current code and whether it asks
      for a complete rewrite instead of a minimal fix. */
  datatype RepairRequest = RepairRequest(error: string, code: string, rewrite: bool)

  datatype RepairService = LacksGenerateContent | Generates(generate: RepairRequest -> string)

  /** `fixedLoader` is false for the test as written; `loaderTrace` is the traceback text
      of the exception the as-written test raises. */
  datatype Env = Env(fixedLoader: bool, loaderTrace: string,
                     load: (string, string) -> LoadOutcome, parse: string -> Parsed, repair: RepairService)

  /** The dictionaries the two methods return. */
  datatype TestResult = Passed(code: string, result: string) | Failed(error: string, code: string)

  datatype Validation = Valid | Invalid(error: string)

  // ---------------------------------------------------------------------
  // `_validate_function` and `_extract_function_name`
  // ---------------------------------------------------------------------

  predicate HasTry(tree: Node) {
    exists x :: x in Walk(tree) && x.kind.Try?
  }

  /** What `_validate_function` decides. */
  function ValidationOf(doc: string, parsed: Parsed): (r: Validation)
    ensures r.Valid? <==> doc != "" && parsed.Parsed? && HasTry(parsed.tree)
    ensures doc == "" ==> r == Invalid(NoDocMessage)
  {
    if doc == "" then Invalid(NoDocMessage)
    else
      match parsed
      case SyntaxError(msg) => Invalid("Error en validación: " + msg)
      case Parsed(tree) => if HasTry(tree) then Valid else Invalid(NoTryMessage)
  }

  /** `_validate_function`: the docstring first, then a walk that stops at the first `Try`. */
  method ValidateFunction(doc: string, parsed: Parsed) returns (r: Validation)
    ensures r == ValidationOf(doc, parsed)
  {
    if doc == "" {
      return Invalid(NoDocMessage);
    }
    match parsed {
      case SyntaxError(msg) =>
        return Invalid("Error en validación: " + msg);
      case Parsed(tree) =>
        var ns := Walk(tree);
        var hasTryExcept := false;
        var i := 0;
        while i < |ns|
          invariant 0 <= i <= |ns|
          invariant !hasTryExcept ==> forall j :: 0 <= j < i ==> !ns[j].kind.Try?
          invariant hasTryExcept ==> HasTry(tree)
        {
          if ns[i].kind.Try? {
            hasTryExcept := true;
            break;
          }
          i := i + 1;
        }
        if !hasTryExcept {
          return Invalid(NoTryMessage);
        }
        return Valid;
    }
  }

  /** `ns[i]` is a function definition and none comes before it. */
  predicate FirstDefAt(ns: seq<Node>, i: int)
  {
    0 <= i < |ns| && ns[i].kind.FunctionDef? && forall j :: 0 <= j < i ==> !ns[j].kind.FunctionDef?
  }

  /** The name of the first function definition in `ns`, or "". */
  function FirstDefName(ns: seq<Node>): (r: string)
    ensures (forall i :: 0 <= i < |ns| ==> !ns[i].kind.FunctionDef?) ==> r == ""
    ensures forall i :: FirstDefAt(ns, i) ==> r == ns[i].kind.name
  {
    if |ns| == 0 then ""
    else if ns[0].kind.FunctionDef? then ns[0].kind.name
    else
      var rest := FirstDefName(ns[1..]);
      FirstDefShift(ns);
      rest
  }

  lemma FirstDefShift(ns: seq<Node>)
    requires |ns| > 0 && !ns[0].kind.FunctionDef?
    ensures forall i :: FirstDefAt(ns, i) ==> FirstDefAt(ns[1..], i - 1)
    ensures (forall i :: 0 <= i < |ns| ==> !ns[i].kind.FunctionDef?) ==>
      forall i :: 0 <= i < |ns[1..]| ==> !ns[1..][i].kind.FunctionDef?
  {
    assert forall i :: 1 <= i < |ns| ==> ns[i] == ns[1..][i - 1];
    forall i | FirstDefAt(ns, i) ensures FirstDefAt(ns[1..], i - 1) {
      forall j | 0 <= j < i - 1 ensures !ns[1..][j].kind.FunctionDef? {
        assert ns[1..][j] == ns[j + 1];
      }
    }
  }

  /** What `_extract_function_name` returns: "" when the code does not parse. */
  function ExtractedName(parsed: Parsed): string
  {
    match parsed
    case SyntaxError(_) => ""
    case Parsed(tree) => FirstDefName(Walk(tree))
  }

  /** `_extract_function_name`: the walk, left at the first `FunctionDef`. */
  method ExtractFunctionName(parsed: Parsed) returns (r: string)
    ensures r == ExtractedName(parsed)
  {
    match parsed {
      case SyntaxError(_) =>
        return "";
      case Parsed(tree) =>
        var ns := Walk(tree);
        var i := 0;
        while i < |ns|
          invariant 0 <= i <= |ns|
          invariant forall j :: 0 <= j < i ==> !ns[j].kind.FunctionDef?
        {
          if ns[i].kind.FunctionDef? {
            return ns[i].kind.name;
          }
          i := i + 1;
        }
        return "";
    }
  }

  // ---------------------------------------------------------------------
  // `test_function` and `_repair_code`
  // ---------------------------------------------------------------------

  /** The prompt is the full-rewrite one exactly at the last permitted attempt. */
  function RequestFor(error: string, code: string, attempt: nat): (r: RepairRequest)
    ensures r.rewrite <==> attempt == MaxRepairAttempts
    ensures r.error == error && r.code == code
  {
    RepairRequest(error, code, attempt == MaxRepairAttempts)
  }

  /** The complaint of the outer handler when building the module raised. */
  function NoSpecComplaint(trace: string): string
  {
    "Error en prueba: " + NoLoaderMessage + "\n" + trace
  }

  /** One run of the code: the verdict before any repair, `None` when it passes. */
  function FirstRun(name: string, code: string, env: Env): Option<string>
  {
    if !env.fixedLoader then Some(NoSpecComplaint(env.loaderTrace))
    else
    match env.load(name, code)
    case LoadRaised(e, trace) => Some("Error en prueba: " + e + "\n" + trace)
    case Missing => Some("Función " + name + " no encontrada en el código")
    case Found(doc, run) =>
      match ValidationOf(doc, env.parse(code))
      case Invalid(error) => Some(error)
      case Valid =>
        match run
        case Returned(_) => None
        case NonString => Some(NonStringMessage)
        case Raised(e, trace) => Some("Error ejecutando función: " + e + "\n" + trace)
  }

  /** The code passes its own test with this result. */
  predicate PassesWith(name: string, code: string, env: Env, result: string) {
    env.fixedLoader && env.load(name, code).Found? && env.load(name, code).run == Returned(result) &&
    ValidationOf(env.load(name, code).doc, env.parse(code)).Valid?
  }

  /** The first run passes exactly when the code loads, validates and returns a string;
      as written it never does, and the complaint is always the missing loader. */
  lemma FirstRunPasses(name: string, code: string, env: Env)
    ensures FirstRun(name, code, env).None? <==> exists s :: PassesWith(name, code, env, s)
    ensures !env.fixedLoader ==> FirstRun(name, code, env) == Some(NoSpecComplaint(env.loaderTrace))
  {
    if FirstRun(name, code, env).None? {
      assert PassesWith(name, code, env, env.load(name, code).run.text);
    }
  }

  /**
   * `test_function(name, code)`. `fuel` bounds the depth of nested tests and stands
   * for the interpreter's recursion limit.
   */
  function TestFunction(name: string, code: string, env: Env, fuel: nat): TestResult
    decreases fuel, 6
  {
    match FirstRun(name, code, env)
    case None => Passed(code, env.load(name, code).run.text)
    case Some(error) => RepairCode(code, error, 1, env, fuel)
  }

  /** `_repair_code(code, error, attempt)`. */
  function RepairCode(code: string, error: string, attempt: nat, env: Env, fuel: nat): TestResult
    decreases fuel, 5 - attempt
  {
    if attempt > MaxRepairAttempts then Failed(ExhaustedMessage, code)
    else
      match env.repair
      case LacksGenerateContent => Failed(MissingGenerateContent, code)
      case Generates(generate) =>
        var repaired := generate(RequestFor(error, code, attempt));
        if repaired == "" then Failed(EmptyRepairMessage, code)
        else if fuel == 0 then Failed(RecursionMessage, code)
        else
          var nested := TestFunction(ExtractedName(env.parse(code)), repaired, env, fuel - 1);
          if nested.Passed? then nested
          else RepairCode(repaired, nested.error, attempt + 1, env, fuel)
  }

  // ---------------------------------------------------------------------
  // Properties
  // ---------------------------------------------------------------------

  /** With a module built from a real location, code that passes on the first run is
      returned as it is, with the string it returned. */
  lemma PassingCodeReturnedAsIs(name: string, code: string, env: Env, fuel: nat, s: string)
    requires PassesWith(name, code, env, s)
    ensures TestFunction(name, code, env, fuel) == Passed(code, s)
  {
  }

  /** As written every test starts a repair chain with the missing-loader complaint; with
      a real location, a call that returns something other than a string starts one with
      its own complaint. */
  lemma FailureStartsRepair(name: string, code: string, env: Env, fuel: nat, doc: string)
    ensures !env.fixedLoader ==>
      TestFunction(name, code, env, fuel) == RepairCode(code, NoSpecComplaint(env.loaderTrace), 1, env, fuel)
    ensures env.fixedLoader && env.load(name, code) == Found(doc, NonString) && ValidationOf(doc, env.parse(code)).Valid? ==>
      TestFunction(name, code, env, fuel) == RepairCode(code, NonStringMessage, 1, env, fuel)
  {
  }

  /** Past the bound `_repair_code` gives up at once, returning the code it was given. */
  lemma ExhaustedKeepsCode(code: string, error: string, attempt: nat, env: Env, fuel: nat)
    requires attempt > MaxRepairAttempts
    ensures RepairCode(code, error, attempt, env, fuel) == Failed(ExhaustedMessage, code)
  {
  }

  /** An empty reply from the generator ends the chain with the current code. */
  lemma EmptyRepairKeepsCode(code: string, error: string, attempt: nat, env: Env, fuel: nat)
    requires attempt <= MaxRepairAttempts && env.repair.Generates?
    requires env.repair.generate(RequestFor(error, code, attempt)) == ""
    ensures RepairCode(code, error, attempt, env, fuel) == Failed(EmptyRepairMessage, code)
  {
  }

  /** The repair service as written has no `generate_content`: failing code is never
      repaired, and `test_function` returns either a pass of the code it was given or
      the `AttributeError` with that same code. With the loader as written as well, the
      result is that `AttributeError` for every name and code. */
  lemma AsWrittenNeverRepairs(name: string, code: string, env: Env, fuel: nat)
    requires env.repair == LacksGenerateContent
    ensures var r := TestFunction(name, code, env, fuel);
      r.code == code &&
      (r.Passed? <==> FirstRun(name, code, env).None?) &&
      (r.Failed? ==> r.error == MissingGenerateContent)
    ensures !env.fixedLoader ==> TestFunction(name, code, env, fuel) == Failed(MissingGenerateContent, code)
  {
  }

  /** As written nothing passes the test, whatever the repair service: every version of
      the code, the first and each repaired one, fails on the missing loader. */
  lemma NothingPassesAsWritten(name: string, code: string, env: Env, fuel: nat)
    ensures !env.fixedLoader ==> TestFunction(name, code, env, fuel).Failed?
  {
    PassedCodeWasTested(name, code, env, fuel);
  }

  /** Any code reported as passing was itself loaded, validated and run, and returned
      the reported string: repaired code is never returned untested. */
  lemma {:induction false} PassedCodeWasTested(name: string, code: string, env: Env, fuel: nat)
    ensures TestFunction(name, code, env, fuel).Passed? ==>
      exists n :: PassesWith(n, TestFunction(name, code, env, fuel).code, env, TestFunction(name, code, env, fuel).result)
    decreases fuel, 6
  {
    if FirstRun(name, code, env).Some? {
      RepairPassedWasTested(code, FirstRun(name, code, env).value, 1, env, fuel);
    } else {
      assert PassesWith(name, code, env, env.load(name, code).run.text);
    }
  }

  lemma {:induction false} RepairPassedWasTested(code: string, error: string, attempt: nat, env: Env, fuel: nat)
    ensures RepairCode(code, error, attempt, env, fuel).Passed? ==>
      exists n :: PassesWith(n, RepairCode(code, error, attempt, env, fuel).code, env,
                             RepairCode(code, error, attempt, env, fuel).result)
    decreases fuel, 5 - attempt
  {
    if attempt <= MaxRepairAttempts && env.repair.Generates? {
      var repaired := env.repair.generate(RequestFor(error, code, attempt));
      if repaired != "" && fuel > 0 {
        var name := ExtractedName(env.parse(code));
        var nested := TestFunction(name, repaired, env, fuel - 1);
        RepairUnfold(code, error, attempt, env, fuel);
        if nested.Passed? {
          PassedCodeWasTested(name, repaired, env, fuel - 1);
        } else {
          RepairPassedWasTested(repaired, nested.error, attempt + 1, env, fuel);
        }
      }
    }
  }

  /** One repair round that produced code: the retest's result when it passed, else the
      next round. */
  lemma RepairUnfold(code: string, error: string, attempt: nat, env: Env, fuel: nat)
    requires attempt <= MaxRepairAttempts && env.repair.Generates? && fuel > 0
    requires env.repair.generate(RequestFor(error, code, attempt)) != ""
    ensures var repaired := env.repair.generate(RequestFor(error, code, attempt));
      var nested := TestFunction(ExtractedName(env.parse(code)), repaired, env, fuel - 1);
      RepairCode(code, error, attempt, env, fuel) ==
        if nested.Passed? then nested else RepairCode(repaired, nested.error, attempt + 1, env, fuel)
  {
  }

  /** The code in any result is the code first given or a reply of the generator. */
  ghost predicate FromInputOrGenerator(c: string, code: string, env: Env) {
    c == code || (env.repair.Generates? && exists q :: env.repair.generate(q) == c)
  }

  lemma {:induction false} ResultCodeProvenance(name: string, code: string, env: Env, fuel: nat)
    ensures FromInputOrGenerator(TestFunction(name, code, env, fuel).code, code, env)
    decreases fuel, 6
  {
    if FirstRun(name, code, env).Some? {
      RepairCodeProvenance(code, FirstRun(name, code, env).value, 1, env, fuel);
    }
  }

  lemma {:induction false} RepairCodeProvenance(code: string, error: string, attempt: nat, env: Env, fuel: nat)
    ensures FromInputOrGenerator(RepairCode(code, error, attempt, env, fuel).code, code, env)
    decreases fuel, 5 - attempt
  {
    if attempt <= MaxRepairAttempts && env.repair.Generates? {
      var q := RequestFor(error, code, attempt);
      var repaired := env.repair.generate(q);
      if repaired != "" && fuel > 0 {
        var name := ExtractedName(env.parse(code));
        ResultCodeProvenance(name, repaired, env, fuel - 1);
        var nested := TestFunction(name, repaired, env, fuel - 1);
        if !nested.Passed? {
          RepairCodeProvenance(repaired, nested.error, attempt + 1, env, fuel);
        }
      }
    }
  }

  /** With a docstring, a `try` among the module's own statements is enough for the walk
      to find it; without a docstring validation fails before the tree is looked at. */
  lemma ValidationNeedsDocAndTry(doc: string, tree: Node, k: nat)
    requires doc != "" && k < |tree.kids| && tree.kids[k].kind.Try?
    ensures ValidationOf(doc, Parsed(tree)) == Valid
    ensures ValidationOf("", Parsed(tree)) == Invalid(NoDocMessage)
  {
    WalkVisitsAll(tree);
    NodesOfChild(tree, k);
    assert tree.kids[k] in Walk(tree.kids[k]);
    WalkVisitsAll(tree.kids[k]);
    assert tree.kids[k] in Nodes(tree);
  }
}
