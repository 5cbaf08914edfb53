/**
 * The deterministic parts of `AIManager`: intent keywords, the fixed task
 * suggestions, the parsing of the classifier's verdict, the choice of a
 * function's type, extension and path, the suffix that makes a new name
 * unique, and the creation path that writes, registers and loads a function.
 */
module AiManager {
  import opened Base
  import opened Registry
  import opened Router
  import AiService

  // ---------------------------------------------------------------------
  // analyze_intent and get_task_suggestions
  // ---------------------------------------------------------------------

  datatype Intent = Intent(intent: string, confidence: real, entities: map<string, string>)

  /** `analyze_intent`: the first keyword group found in the lowercased message wins. */
  function AnalyzeIntent(message: string): (r: Intent)
    ensures var m := Lower(message);
      && (r.intent == "set_reminder" <==> Contains(m, "recordatorio") || Contains(m, "recuérdame"))
      && (r.intent == "create_task" <==>
            !(Contains(m, "recordatorio") || Contains(m, "recuérdame")) && (Contains(m, "tarea") || Contains(m, "añade")))
      && (r.intent == "play_media" <==>
            !(Contains(m, "recordatorio") || Contains(m, "recuérdame")) && !(Contains(m, "tarea") || Contains(m, "añade")) &&
            (Contains(m, "reproduce") || Contains(m, "pon")))
      && (r.intent == "chat" <==>
            !(Contains(m, "recordatorio") || Contains(m, "recuérdame")) && !(Contains(m, "tarea") || Contains(m, "añade")) &&
            !(Contains(m, "reproduce") || Contains(m, "pon")))
    ensures r.intent == "set_reminder" || r.intent == "create_task" ==> r.confidence == 0.9 && r.entities == map["task" := Lower(message)]
    ensures r.intent == "play_media" ==> r.confidence == 0.8 && r.entities == map["media" := Lower(message)]
    ensures r.intent == "chat" ==> r.confidence == 0.6 && r.entities == map[]
  {
    var m := Lower(message);
    if Contains(m, "recordatorio") || Contains(m, "recuérdame") then Intent("set_reminder", 0.9, map["task" := m])
    else if Contains(m, "tarea") || Contains(m, "añade") then Intent("create_task", 0.9, map["task" := m])
    else if Contains(m, "reproduce") || Contains(m, "pon") then Intent("play_media", 0.8, map["media" := m])
    else Intent("chat", 0.6, map[])
  }

  /** Letter case does not change the intent. */
  lemma {:induction false} IntentIgnoresCase(message: string)
    ensures AnalyzeIntent(Lower(message)) == AnalyzeIntent(message)
  {
    LowerIdempotent(message);
  }

  const TaskSuggestions: seq<string> :=
    ["Revisar correos pendientes", "Actualizar lista de compras", "Hacer ejercicio", "Leer un libro", "Organizar archivos"]

  /** `get_task_suggestions`: the first three of the fixed list, whatever the tasks are. */
  function GetTaskSuggestions(currentTasks: seq<string>): (r: seq<string>)
    ensures |r| == 3 && r == TaskSuggestions[..|r|]
  {
    TaskSuggestions[..3]
  }

  // ---------------------------------------------------------------------
  // verify_function_request
  // ---------------------------------------------------------------------

  datatype RequestVerdict =
    | NoFunction
    | Existing(functionName: string, extraInfo: string)
    | Requested(functionName: string, description: string)

  /** The text after a prefix, split at its first space. */
  function Parts(rest: string): (r: (string, string))
    ensures ' ' !in r.0
    ensures ' ' in rest ==> rest == r.0 + " " + r.1
    ensures ' ' !in rest ==> r == (rest, "")
  {
    var parts := SplitOnce(rest, ' ');
    (parts[0], if |parts| > 1 then parts[1] else "")
  }

  /** The parsing of `verify_function_request` once the model has answered: a stripped
      reply that starts with a prefix names a function up to its first space. */
  function VerifyFunctionRequest(reply: AiService.Reply): (r: RequestVerdict)
    ensures reply.Raised? || reply.text == "" ==> r == NoFunction
    ensures reply.Answered? && reply.text != "" ==>
      var t := Strip(reply.text);
      && (r.Existing? <==> StartsWith(t, YesPrefix))
      && (r.Requested? <==> !StartsWith(t, YesPrefix) && StartsWith(t, NewPrefix))
      && (r.Existing? ==> (r.functionName, r.extraInfo) == Parts(t[6..]))
      && (r.Requested? ==> (r.functionName, r.description) == Parts(t[6..]))
    ensures !r.NoFunction? ==> ' ' !in r.functionName
  {
    if reply.Raised? || reply.text == "" then NoFunction
    else
      var t := Strip(reply.text);
      if StartsWith(t, YesPrefix) then
        var p := Parts(t[6..]);
        Existing(p.0, p.1)
      else if StartsWith(t, NewPrefix) then
        var p := Parts(t[6..]);
        Requested(p.0, p.1)
      else NoFunction
  }

  /** A reply naming a function and its extra text is read back as that pair. */
  lemma ExistingRoundTrip(name: string, extra: string)
    requires ' ' !in name
    requires extra != [] && extra[|extra| - 1] !in Whitespace
    ensures VerifyFunctionRequest(AiService.Answered(YesPrefix + name + " " + extra)) == Existing(name, extra)
  {
    var t := YesPrefix + name + " " + extra;
    Regroup4(YesPrefix, name, " ", extra);
    PrefixedHeadVisible(name + " " + extra);
    LastOfConcat(YesPrefix + name + " ", extra);
    PrefixedParts(YesPrefix, name, extra);
    StripOfTrimmed(t);
  }

  /** A request for a new function is read back as its name and description. */
  lemma RequestedRoundTrip(name: string, description: string)
    requires ' ' !in name
    requires description != [] && description[|description| - 1] !in Whitespace
    ensures VerifyFunctionRequest(AiService.Answered(NewPrefix + name + " " + description)) ==
      Requested(name, description)
  {
    var rest := name + " " + description;
    var t := NewPrefix + name + " " + description;
    Regroup4(NewPrefix, name, " ", description);
    NotYesAnswer(rest);
    PrefixedHeadVisible(rest);
    LastOfConcat(NewPrefix + name + " ", description);
    PrefixedParts(NewPrefix, name, description);
    StripOfTrimmed(t);
    RequestedAnswer(t, t, name, description);
  }

  lemma RequestedAnswer(text: string, t: string, name: string, description: string)
    requires StartsWith(t, NewPrefix) && Parts(t[6..]) == (name, description)
    requires text != "" && Strip(text) == t && !StartsWith(t, YesPrefix)
    ensures VerifyFunctionRequest(AiService.Answered(text)) == Requested(name, description)
  {
  }

  /** The text after a six-character prefix splits back into the name and the rest. */
  lemma PrefixedParts(prefix: string, name: string, rest: string)
    requires |prefix| == 6 && ' ' !in name
    ensures var t := prefix + name + " " + rest;
      StartsWith(t, prefix) && t[6..] == name + " " + rest && Parts(t[6..]) == (name, rest)
  {
    var t := prefix + name + " " + rest;
    assert t[..6] == prefix;
    assert t[6..] == name + [' '] + rest;
    SplitOnceAt(name, rest, ' ');
  }

  // ---------------------------------------------------------------------
  // _determine_function_type and _determine_file_extension
  // ---------------------------------------------------------------------

  const GameWords: seq<string> := ["juego", "game", "pygame"]
  const SearchWords: seq<string> := ["buscar", "internet", "wikipedia"]
  const FileWords: seq<string> := ["archivo", "file", "crear", "escribir"]

  /** `_determine_function_type`: the first keyword group found in the lowercased
      description. */
  function DetermineFunctionType(description: string): (r: string)
    ensures var d := Lower(description);
      && (r == "game" <==> ContainsAny(d, GameWords))
      && (r == "web_search" <==> !ContainsAny(d, GameWords) && ContainsAny(d, SearchWords))
      && (r == "file_operation" <==>
            !ContainsAny(d, GameWords) && !ContainsAny(d, SearchWords) && ContainsAny(d, FileWords))
      && (r == "default" <==>
            !ContainsAny(d, GameWords) && !ContainsAny(d, SearchWords) && !ContainsAny(d, FileWords))
  {
    var d := Lower(description);
    if ContainsAny(d, GameWords) then "game"
    else if ContainsAny(d, SearchWords) then "web_search"
    else if ContainsAny(d, FileWords) then "file_operation"
    else "default"
  }

  /** `_determine_file_extension`: the first marker found in the lowercased description;
      Python source otherwise. */
  function DetermineFileExtension(description: string): (r: string)
    ensures var d := Lower(description);
      && (r == ".js" <==> Contains(d, "javascript") || Contains(d, "js"))
      && (r == ".bat" <==> !(Contains(d, "javascript") || Contains(d, "js")) && (Contains(d, "batch") || Contains(d, "bat")))
      && (r == ".html" <==>
            !(Contains(d, "javascript") || Contains(d, "js")) && !(Contains(d, "batch") || Contains(d, "bat")) &&
            Contains(d, "html"))
      && (r == ".css" <==>
            !(Contains(d, "javascript") || Contains(d, "js")) && !(Contains(d, "batch") || Contains(d, "bat")) &&
            !Contains(d, "html") && Contains(d, "css"))
      && (r == ".py" <==>
            !(Contains(d, "javascript") || Contains(d, "js")) && !(Contains(d, "batch") || Contains(d, "bat")) &&
            !Contains(d, "html") && !Contains(d, "css"))
  {
    var d := Lower(description);
    if Contains(d, "javascript") || Contains(d, "js") then ".js"
    else if Contains(d, "batch") || Contains(d, "bat") then ".bat"
    else if Contains(d, "html") then ".html"
    else if Contains(d, "css") then ".css"
    else ".py"
  }

  /** The marker for JavaScript is a bare substring, so a description that mentions JSON
      asks for a `.js` file. */
  lemma JsonMeansJs(before: string, after: string)
    requires Lower(before) == before && Lower(after) == after
    ensures DetermineFileExtension(before + "json" + after) == ".js"
  {
    var d := before + "json" + after;
    assert d == before + ("json" + after);
    LowerOfConcat(before, "json" + after);
    LowerOfConcat("json", after);
    assert Lower("json") == "json";
    assert Lower(d) == d;
    assert ("json" + after)[..2] == "js";
    assert Contains("json" + after, "js");
    ContainsAppend("json" + after, before, "js");
    assert Contains(Lower(d), "js");
  }

  /** `Lower` works character by character. */
  lemma LowerOfConcat(a: string, b: string)
    ensures Lower(a + b) == Lower(a) + Lower(b)
  {
  }

  // ---------------------------------------------------------------------
  // _ensure_unique_function_name
  // ---------------------------------------------------------------------

  /** `f"{base_name}_{counter}"` */
  function Suffixed(base: string, k: nat): string
  {
    base + "_" + NatToString(k)
  }

  /** Different counters give different names. */
  lemma SuffixedInjective(base: string, j: nat, k: nat)
    requires Suffixed(base, j) == Suffixed(base, k)
    ensures j == k
  {
    var n := |base| + 1;
    assert NatToString(j) == Suffixed(base, j)[n..];
    assert NatToString(k) == Suffixed(base, k)[n..];
    NatToStringInjective(j, k);
  }

  /** The names `base_1` .. `base_n`. */
  ghost function SuffixesUpTo(base: string, n: nat): set<string>
  {
    if n == 0 then {} else SuffixesUpTo(base, n - 1) + {Suffixed(base, n)}
  }

  lemma {:induction false} SuffixesUpToSpec(base: string, n: nat)
    ensures |SuffixesUpTo(base, n)| == n
    ensures forall k :: 1 <= k <= n ==> Suffixed(base, k) in SuffixesUpTo(base, n)
    ensures forall k: nat :: Suffixed(base, k) in SuffixesUpTo(base, n) ==> 1 <= k <= n
  {
    if n > 0 {
      SuffixesUpToSpec(base, n - 1);
      forall k: nat | Suffixed(base, k) in SuffixesUpTo(base, n)
        ensures 1 <= k <= n
      {
        if Suffixed(base, k) == Suffixed(base, n) {
          SuffixedInjective(base, k, n);
        }
      }
      assert Suffixed(base, n) !in SuffixesUpTo(base, n - 1);
    }
  }

  /** `_ensure_unique_function_name`. `existing` are the names `function_manager.functions`
      holds, `None` when reading them raised. */
  method EnsureUniqueFunctionName(base: string, existing: Option<set<string>>) returns (r: string)
    ensures existing.None? ==> r == base
    ensures existing.Some? && base !in existing.value ==> r == base
    ensures existing.Some? && base in existing.value ==>
      exists k: nat ::
        && k >= 1 && r == Suffixed(base, k) && r !in existing.value
        && forall j :: 1 <= j < k ==> Suffixed(base, j) in existing.value
    ensures existing.Some? ==> r !in existing.value
  {
    if existing.None? || base !in existing.value {
      return base;
    }
    var names := existing.value;
    var counter: nat := 1;
    SuffixesUpToSpec(base, 0);
    while Suffixed(base, counter) in names
      invariant counter >= 1
      invariant SuffixesUpTo(base, counter - 1) <= names
      invariant forall j :: 1 <= j < counter ==> Suffixed(base, j) in names
      decreases |names| - |SuffixesUpTo(base, counter - 1)|
    {
      SuffixesUpToSpec(base, counter - 1);
      SuffixesUpToSpec(base, counter);
      assert SuffixesUpTo(base, counter) <= names;
      assert |SuffixesUpTo(base, counter)| <= |names| by {
        SubsetCard(SuffixesUpTo(base, counter), names);
      }
      counter := counter + 1;
    }
    r := Suffixed(base, counter);
  }

  /** A subset is no larger than its superset. */
  lemma SubsetCard(a: set<string>, b: set<string>)
    requires a <= b
    ensures |a| <= |b|
  {
    assert b == a + (b - a);
  }

  // ---------------------------------------------------------------------
  // create_new_function
  // ---------------------------------------------------------------------

  /** What `AIManager.create_new_function` returns. */
  datatype CreationResult =
    | CreationSucceeded(name: string, code: string, path: string)
    | CreationFailed(error: string)

  /** `generate_code` produced some text (possibly empty once cleaned). */
  predicate Produced(reply: AiService.Reply)
  {
    reply.Answered? && reply.text != ""
  }

  /** The `TypeError` of `f.write(None)` when no code was generated. */
  const WriteNoneError := "write() argument must be str, not None"

  /** The `AttributeError` of `getattr(module, name)` for a module without that name. */
  function MissingAttribute(name: string): string
  {
    "module '" + name + "' has no attribute '" + name + "'"
  }

  /** Where the generated file goes: games on the desktop of `home`, others with the
      managed functions. */
  function FilePath(home: string, name: string, functionType: string, extension: string): (r: string)
    ensures EndsWith(r, "/" + name + extension)
    ensures functionType == "game" ==> StartsWith(r, home + "/Desktop/")
    ensures functionType != "game" ==> StartsWith(r, FunctionsDir + "/")
    ensures functionType != "game" && extension == ".py" ==> r == FunctionPath(name)
  {
    if functionType == "game" then home + "/Desktop/" + name + extension
    else FunctionsDir + "/" + name + extension
  }

  class AIManager {
    const functionManager: FunctionManager

    constructor(functionManager: FunctionManager)
      ensures this.functionManager == functionManager
    {
      this.functionManager := functionManager;
    }

    /** `create_new_function`: the unique name, the type and extension, the file, the
        registration, and for Python code that is no game the import into
        `function_manager.functions`. `codeReply` is the model's answer, `home` the
        user's home directory and `load` what importing the written file gives. */
    method CreateNewFunction(name: string, description: string, codeReply: AiService.Reply, home: string,
                             load: (string, string) -> ModuleLoad, now: string) returns (r: CreationResult)
      requires functionManager.Valid()
      modifies functionManager, functionManager.registry
      ensures functionManager.Valid()
      ensures var unique := UniqueName(name, old(functionManager.functions.Keys));
        var ftype := DetermineFunctionType(description);
        var ext := DetermineFileExtension(description);
        var path := FilePath(home, unique, ftype, ext);
        && unique !in old(functionManager.functions)
        && functionManager.functionErrors == old(functionManager.functionErrors)
        && (!Produced(codeReply) ==>
              && r == CreationFailed(WriteNoneError)
              && functionManager.files == old(functionManager.files)[path := ""]
              && functionManager.functions == old(functionManager.functions)
              && unchanged(functionManager.registry))
        && (Produced(codeReply) ==>
              var code := AiService.CleanCode(codeReply.text);
              && functionManager.files == old(functionManager.files)[path := code]
              && functionManager.registry.functions == old(functionManager.registry.functions)[unique :=
                   FreshEntry(unique, ChooseDescription(Some(description), None), Some(path), None, Some(ftype), now)]
              && (ftype == "game" || ext != ".py" ==>
                    r == CreationSucceeded(unique, code, path) && functionManager.functions == old(functionManager.functions))
              && (ftype != "game" && ext == ".py" ==>
                    var m := load(unique, code);
                    && (m.ImportRaised? ==> r == CreationFailed(m.error) && functionManager.functions == old(functionManager.functions))
                    && (m.Lacks? ==> r == CreationFailed(MissingAttribute(unique)) && functionManager.functions == old(functionManager.functions))
                    && (m.Defines? ==>
                          r == CreationSucceeded(unique, code, path) &&
                          functionManager.functions == old(functionManager.functions)[unique := FunctionObject(m.doc)])))
    {
      var unique := EnsureUniqueFunctionName(name, Some(functionManager.functions.Keys));
      UniqueNameSpec(name, functionManager.functions.Keys, unique);
      var ftype := DetermineFunctionType(description);
      var ext := DetermineFileExtension(description);
      var path := FilePath(home, unique, ftype, ext);
      var code := AiService.GenerateCode(codeReply);
      if code.None? {
        functionManager.files := functionManager.files[path := ""];
        return CreationFailed(WriteNoneError);
      }
      r := WriteAndLoad(unique, description, code.value, path, ftype, ext, load(unique, code.value), now);
    }

    /** Lines 359-391: the file, the registration and, for Python code that is no game,
        the import. */
    method WriteAndLoad(name: string, description: string, code: string, path: string, ftype: string, ext: string,
                        m: ModuleLoad, now: string) returns (r: CreationResult)
      requires functionManager.Valid()
      modifies functionManager, functionManager.registry
      ensures functionManager.Valid()
      ensures functionManager.functionErrors == old(functionManager.functionErrors)
      ensures functionManager.files == old(functionManager.files)[path := code]
      ensures functionManager.registry.functions == old(functionManager.registry.functions)[name :=
        FreshEntry(name, ChooseDescription(Some(description), None), Some(path), None, Some(ftype), now)]
      ensures ftype == "game" || ext != ".py" ==>
        r == CreationSucceeded(name, code, path) && functionManager.functions == old(functionManager.functions)
      ensures ftype != "game" && ext == ".py" ==>
        && (m.ImportRaised? ==> r == CreationFailed(m.error) && functionManager.functions == old(functionManager.functions))
        && (m.Lacks? ==> r == CreationFailed(MissingAttribute(name)) && functionManager.functions == old(functionManager.functions))
        && (m.Defines? ==>
              r == CreationSucceeded(name, code, path) &&
              functionManager.functions == old(functionManager.functions)[name := FunctionObject(m.doc)])
    {
      WriteAndRegister(functionManager, name, description, code, path, ftype, now);
      if ftype != "game" && ext == ".py" {
        r := Import(name, code, path, m);
      } else {
        r := CreationSucceeded(name, code, path);
      }
    }

    /** Lines 376-391: importing the written module `m` and taking its function object. */
    method Import(name: string, code: string, path: string, m: ModuleLoad) returns (r: CreationResult)
      requires functionManager.Valid()
      modifies functionManager
      ensures functionManager.Valid()
      ensures functionManager.functionErrors == old(functionManager.functionErrors)
      ensures functionManager.files == old(functionManager.files)
      ensures m.ImportRaised? ==> r == CreationFailed(m.error) && functionManager.functions == old(functionManager.functions)
      ensures m.Lacks? ==> r == CreationFailed(MissingAttribute(name)) && functionManager.functions == old(functionManager.functions)
      ensures m.Defines? ==>
        r == CreationSucceeded(name, code, path) &&
        functionManager.functions == old(functionManager.functions)[name := FunctionObject(m.doc)]
    {
      match m {
        case ImportRaised(e) =>
          return CreationFailed(e);
        case Lacks =>
          return CreationFailed(MissingAttribute(name));
        case Defines(doc, _) =>
          functionManager.functions := functionManager.functions[name := FunctionObject(doc)];
          return CreationSucceeded(name, code, path);
      }
    }
  }

  /** The name `EnsureUniqueFunctionName` settles on, as a value. */
  ghost function UniqueName(base: string, existing: set<string>): string
  {
    if base !in existing then base
    else Suffixed(base, SmallestFree(base, existing))
  }

  /** The smallest counter from 1 whose suffixed name is free. */
  ghost function SmallestFree(base: string, existing: set<string>): (k: nat)
    ensures k >= 1 && Suffixed(base, k) !in existing
    ensures forall j :: 1 <= j < k ==> Suffixed(base, j) in existing
  {
    FreeExists(base, existing);
    var k :| k >= 1 && Suffixed(base, k) !in existing && forall j :: 1 <= j < k ==> Suffixed(base, j) in existing;
    k
  }

  /** Some counter up to one more than the number of names is free, and the smallest free
      one exists. */
  lemma FreeExists(base: string, existing: set<string>)
    ensures exists k: nat :: k >= 1 && Suffixed(base, k) !in existing && forall j :: 1 <= j < k ==> Suffixed(base, j) in existing
  {
    var n := |existing| + 1;
    SuffixesUpToSpec(base, n);
    if forall k :: 1 <= k <= n ==> Suffixed(base, k) in existing {
      SuffixesWithin(base, n, existing);
      SubsetCard(SuffixesUpTo(base, n), existing);
      assert false;
    }
    var k := LeastFree(base, existing, n);
  }

  /** A set holding each of `base_1` .. `base_n` holds `SuffixesUpTo(base, n)`. */
  lemma {:induction false} SuffixesWithin(base: string, n: nat, names: set<string>)
    requires forall k :: 1 <= k <= n ==> Suffixed(base, k) in names
    ensures SuffixesUpTo(base, n) <= names
  {
    if n > 0 {
      SuffixesWithin(base, n - 1, names);
    }
  }

  /** The least free counter at or below a free `n`. */
  lemma {:induction false} LeastFree(base: string, existing: set<string>, n: nat) returns (k: nat)
    requires exists i :: 1 <= i <= n && Suffixed(base, i) !in existing
    ensures 1 <= k <= n && Suffixed(base, k) !in existing
    ensures forall j :: 1 <= j < k ==> Suffixed(base, j) in existing
    decreases n
  {
    if exists i :: 1 <= i <= n - 1 && Suffixed(base, i) !in existing {
      k := LeastFree(base, existing, n - 1);
    } else {
      k := n;
    }
  }

  /** The method computes `UniqueName`, which is always fresh. */
  lemma UniqueNameSpec(base: string, existing: set<string>, r: string)
    requires base !in existing ==> r == base
    requires base in existing ==>
      exists k: nat ::
        && k >= 1 && r == Suffixed(base, k) && r !in existing
        && forall j :: 1 <= j < k ==> Suffixed(base, j) in existing
    ensures r == UniqueName(base, existing) && r !in existing
  {
    if base in existing {
      var k: nat :| k >= 1 && r == Suffixed(base, k) && r !in existing && forall j :: 1 <= j < k ==> Suffixed(base, j) in existing;
      var s := SmallestFree(base, existing);
      assert k == s;
    }
  }

  /** Lines 359-374: the file is written and the function registered. */
  method WriteAndRegister(fm: FunctionManager, name: string, description: string, code: string, path: string, ftype: string, now: string)
    requires fm.Valid()
    modifies fm, fm.registry
    ensures fm.Valid()
    ensures fm.functionErrors == old(fm.functionErrors)
    ensures fm.functions == old(fm.functions)
    ensures fm.files == old(fm.files)[path := code]
    ensures fm.registry.functions == old(fm.registry.functions)[name :=
      FreshEntry(name, ChooseDescription(Some(description), None), Some(path), None, Some(ftype), now)]
  {
    var reg := fm.registry;
    fm.files := fm.files[path := code];
    assert reg.Valid();
    var _ := reg.Register(name, None, Some(description), Some(path), None, Some(ftype), now);
  }

}
