/**
 * The feedback manager: error messages built from templates with Python's
 * `str.format`, falling back to a generic message whenever formatting
 * raises; a ranking of the registry's functions related to a given one; and
 * the text shown after an execution.
 *
 * `difflib.get_close_matches` is the environment's `closeMatches`.
 */
module Feedback {
  import opened Base
  import opened Registry
  import opened Executor
  import opened StrFormat

  // ---------------------------------------------------------------------
  // `error_templates` and `get_error_message`
  // ---------------------------------------------------------------------

  datatype Template = Template(message: string, action: string)

  /** The dictionary `get_error_message` returns. */
  datatype Message = Message(message: string, action: string)

  const NotFoundHead := "No encontré la función '"
  const NotFoundMid := "'. "
  const NotFoundAction := "Puedo crear una nueva función si me describes lo que necesitas."
  const ExecutionMessageHead := "Hubo un error al ejecutar '"
  const ExecutionMessageMid := "': "
  const ExecutionActionHead := "Esto puede deberse a "
  const ExecutionActionMid := ". Sugerencia: "
  const ValidationAction := "Necesito ajustar el código para cumplir con las reglas de seguridad."
  const DefaultHead := "Error desconocido: "
  const DefaultActionStart := "Por favor, intenta de nuevo "
  const DefaultActionEnd := "o describe tu necesidad de otra forma."
  const DefaultAction := DefaultActionStart + DefaultActionEnd
  const FallbackAction := "Por favor, intenta de nuevo."
  const SuggestionsHeader := "\n¿Quizás quisiste decir alguna de estas?\n"

  const NotFoundTemplate := Template(NotFoundHead + Field("name") + NotFoundMid + Field("suggestions"), NotFoundAction)
  const ExecutionTemplate := Template(ExecutionMessageHead + Field("name") + ExecutionMessageMid + Field("error"),
                                      ExecutionActionHead + Field("reason") + ExecutionActionMid + Field("suggestion"))
  const DefaultTemplate := Template(DefaultHead + Field("error"), DefaultAction)

  /** `self.error_templates` */
  const ErrorTemplates: map<string, Template> := map[
    "function_not_found" := NotFoundTemplate,
    "execution_error" := ExecutionTemplate,
    "permission_error" := Template("No tengo permiso para " + Field("action"), "Por favor, verifica que tengo acceso a " + Field("resource")),
    "validation_error" := Template("La función no cumple con los requisitos: " + Field("details"), ValidationAction),
    "dependency_error" := Template("Hay un problema con las dependencias: " + Field("details"), "Necesito " + Field("action") + " para continuar.")]

  /** The message used whenever formatting raises. */
  function Fallback(kw: map<string, string>): (r: Message)
    ensures r.action == FallbackAction
    ensures r.message == "Error: " + (if "error" in kw then kw["error"] else "desconocido")
  {
    Message("Error: " + (if "error" in kw then kw["error"] else "desconocido"), FallbackAction)
  }

  /** `get_error_message(error_type, **kw)`; `suggestions` is what
      `_get_function_suggestions` returns for `kw.get('name', '')`. */
  function ErrorMessage(errorType: string, kw: map<string, string>, suggestions: string): Message
  {
    var tpl := if errorType in ErrorTemplates then ErrorTemplates[errorType] else DefaultTemplate;
    var message := Format(tpl.message, kw);
    var action := Format(tpl.action, kw);
    if message.None? || action.None? then Fallback(kw)
    else if errorType == "function_not_found" then
      var again := Format(message.value, map["suggestions" := if suggestions != "" then SuggestionsHeader + suggestions else ""]);
      if again.None? then Fallback(kw) else Message(again.value, action.value)
    else Message(message.value, action.value)
  }

  lemma {:induction false} ExecutionSelected()
    ensures "execution_error" in ErrorTemplates && ErrorTemplates["execution_error"] == ExecutionTemplate
  {
  }

  lemma {:induction false} NotFoundSelected()
    ensures "function_not_found" in ErrorTemplates && ErrorTemplates["function_not_found"] == NotFoundTemplate
  {
  }

  // Each literal part of a template is free of braces (one lemma per literal).
  lemma {:induction false} NameKeysBraceFree()
    ensures BraceFree("name") && BraceFree("error") && BraceFree("reason") && BraceFree("suggestion")
    ensures BraceFree("suggestions") && BraceFree("")
  {
  }

  lemma {:induction false} ExecutionMessageHeadBraceFree()
    ensures BraceFree(ExecutionMessageHead)
  {
  }

  lemma {:induction false} ExecutionActionHeadBraceFree()
    ensures BraceFree(ExecutionActionHead)
  {
  }

  lemma {:induction false} ShortPartsBraceFree()
    ensures BraceFree(ExecutionMessageMid) && BraceFree(ExecutionActionMid) && BraceFree(NotFoundMid)
  {
  }

  lemma {:induction false} DefaultHeadBraceFree()
    ensures BraceFree(DefaultHead)
  {
  }

  lemma {:induction false} NotFoundHeadBraceFree()
    ensures BraceFree(NotFoundHead)
  {
  }

  lemma {:induction false} DefaultActionBraceFree()
    ensures BraceFree(DefaultAction)
  {
    DefaultActionStartBraceFree();
    DefaultActionEndBraceFree();
    BraceFreeConcat(DefaultActionStart, DefaultActionEnd);
  }

  lemma DefaultActionStartBraceFree()
    ensures BraceFree(DefaultActionStart)
  {
  }

  lemma DefaultActionEndBraceFree()
    ensures BraceFree(DefaultActionEnd)
  {
  }

  /** The execution-error action formats exactly when `reason` and `suggestion` are given. */
  lemma {:induction false} ExecutionActionFormat(kw: map<string, string>)
    ensures Format(ExecutionTemplate.action, kw) ==
      if "reason" in kw && "suggestion" in kw
      then Some(ExecutionActionHead + kw["reason"] + ExecutionActionMid + kw["suggestion"])
      else None
  {
    NameKeysBraceFree();
    ExecutionActionHeadBraceFree();
    ShortPartsBraceFree();
    var t := ExecutionActionHead + Field("reason") + ExecutionActionMid + Field("suggestion");
    assert t + "" == t;
    FormatTwoFields(ExecutionActionHead, "reason", ExecutionActionMid, "suggestion", "", kw);
    if "reason" in kw && "suggestion" in kw {
      var v := ExecutionActionHead + kw["reason"] + ExecutionActionMid + kw["suggestion"];
      assert v + "" == v;
    }
  }

  /** The execution-error message formats exactly when `name` and `error` are given. */
  lemma {:induction false} ExecutionMessageFormat(kw: map<string, string>)
    ensures Format(ExecutionTemplate.message, kw) ==
      if "name" in kw && "error" in kw
      then Some(ExecutionMessageHead + kw["name"] + ExecutionMessageMid + kw["error"])
      else None
  {
    NameKeysBraceFree();
    ExecutionMessageHeadBraceFree();
    ShortPartsBraceFree();
    var t := ExecutionMessageHead + Field("name") + ExecutionMessageMid + Field("error");
    assert t + "" == t;
    FormatTwoFields(ExecutionMessageHead, "name", ExecutionMessageMid, "error", "", kw);
    if "name" in kw && "error" in kw {
      var v := ExecutionMessageHead + kw["name"] + ExecutionMessageMid + kw["error"];
      assert v + "" == v;
    }
  }

  /** The execution-error action needs `reason` and `suggestion`: without either, the
      message is the fallback, whatever else is passed. */
  lemma {:induction false} ExecutionErrorFallsBack(kw: map<string, string>, suggestions: string)
    requires "reason" !in kw || "suggestion" !in kw
    ensures ErrorMessage("execution_error", kw, suggestions) == Fallback(kw)
  {
    ExecutionSelected();
    ExecutionActionFormat(kw);
  }

  /** The two keyword arguments the executor's callers pass (`name`, `error`) are not
      enough: they always get "Error: <error>". */
  lemma {:induction false} CallersGetFallback(name: string, error: string, suggestions: string)
    ensures ErrorMessage("execution_error", map["name" := name, "error" := error], suggestions) ==
            Message("Error: " + error, FallbackAction)
  {
    ExecutionErrorFallsBack(map["name" := name, "error" := error], suggestions);
  }

  /** With all four arguments the execution-error template is filled in. */
  lemma {:induction false} ExecutionErrorFilled(kw: map<string, string>, suggestions: string)
    requires "name" in kw && "error" in kw && "reason" in kw && "suggestion" in kw
    ensures ErrorMessage("execution_error", kw, suggestions) ==
      Message(ExecutionMessageHead + kw["name"] + ExecutionMessageMid + kw["error"],
              ExecutionActionHead + kw["reason"] + ExecutionActionMid + kw["suggestion"])
  {
    ExecutionSelected();
    ExecutionMessageFormat(kw);
    ExecutionActionFormat(kw);
  }

  /** An unknown error type uses the "Error desconocido" template. */
  lemma {:induction false} UnknownTypeUsesDefault(errorType: string, kw: map<string, string>, suggestions: string)
    requires errorType !in ErrorTemplates
    ensures "error" in kw ==> ErrorMessage(errorType, kw, suggestions) == Message(DefaultHead + kw["error"], DefaultAction)
    ensures "error" !in kw ==> ErrorMessage(errorType, kw, suggestions) == Fallback(kw)
  {
    NameKeysBraceFree();
    DefaultHeadBraceFree();
    DefaultActionBraceFree();
    assert DefaultTemplate.message == DefaultHead + Field("error") + "";
    FormatOneField(DefaultHead, "error", "", kw);
    FormatLiteral(DefaultAction, kw);
    if "error" in kw {
      assert DefaultHead + kw["error"] + "" == DefaultHead + kw["error"];
    }
  }

  /** `function_not_found` only formats when the caller passes a `suggestions` argument
      itself; otherwise the first `format` raises and the suggestions are never looked up. */
  lemma {:induction false} NotFoundNeedsSuggestionsArgument(kw: map<string, string>, suggestions: string)
    requires "suggestions" !in kw
    ensures ErrorMessage("function_not_found", kw, suggestions) == Fallback(kw)
  {
    NotFoundSelected();
    NameKeysBraceFree();
    NotFoundHeadBraceFree();
    ShortPartsBraceFree();
    assert NotFoundTemplate.message == NotFoundHead + Field("name") + NotFoundMid + Field("suggestions") + "";
    FormatTwoFields(NotFoundHead, "name", NotFoundMid, "suggestions", "", kw);
  }

  // ---------------------------------------------------------------------
  // Ordering for `get_related_functions`
  // ---------------------------------------------------------------------

  /** One element of the related list; `common_tags` is a list built from a set, so
      only its contents are modelled. */
  datatype Related = Related(name: string, description: string, functionType: string, commonTags: set<string>)

  function Key(r: Related): nat { |r.commonTags| }

  predicate SortedDesc(s: seq<Related>) {
    forall i, j :: 0 <= i < j < |s| ==> Key(s[i]) >= Key(s[j])
  }

  /** Places `x` after every element whose key is at least its own. */
  function InsertDesc(xs: seq<Related>, x: Related): (r: seq<Related>)
    ensures |r| == |xs| + 1
  {
    if |xs| == 0 then [x]
    else if Key(xs[|xs| - 1]) >= Key(x) then xs + [x]
    else
      var init := xs[..|xs| - 1];
      assert xs == init + [xs[|xs| - 1]];
      InsertDesc(init, x) + [xs[|xs| - 1]]
  }

  /** `sorted(s, key=len(common_tags), reverse=True)`: a stable sort, largest key first. */
  function SortDesc(s: seq<Related>): (r: seq<Related>)
    ensures |r| == |s|
  {
    if |s| == 0 then [] else InsertDesc(SortDesc(s[..|s| - 1]), s[|s| - 1])
  }

  lemma {:induction false} InsertPermutes(xs: seq<Related>, x: Related)
    ensures multiset(InsertDesc(xs, x)) == multiset(xs) + multiset{x}
    decreases |xs|
  {
    if |xs| > 0 && Key(xs[|xs| - 1]) < Key(x) {
      var init := xs[..|xs| - 1];
      assert xs == init + [xs[|xs| - 1]];
      InsertPermutes(init, x);
    }
  }

  /** The sort is a permutation of its input. */
  lemma {:induction false} SortPermutes(s: seq<Related>)
    ensures multiset(SortDesc(s)) == multiset(s)
  {
    if |s| > 0 {
      var init, last := s[..|s| - 1], s[|s| - 1];
      assert s == init + [last];
      SortPermutes(init);
      InsertPermutes(SortDesc(init), last);
      assert SortDesc(s) == InsertDesc(SortDesc(init), last);
      assert multiset(s) == multiset(init) + multiset{last};
    }
  }

  /** `x` alone when its key is `k`, otherwise nothing. */
  function Sel(x: Related, k: nat): (r: seq<Related>)
    ensures |r| <= 1
  {
    if Key(x) == k then [x] else []
  }

  /** The elements with key `k`, in order. */
  function WithKey(s: seq<Related>, k: nat): seq<Related>
  {
    if |s| == 0 then [] else WithKey(s[..|s| - 1], k) + Sel(s[|s| - 1], k)
  }

  lemma WithKeySnoc(s: seq<Related>, x: Related, k: nat)
    ensures WithKey(s + [x], k) == WithKey(s, k) + Sel(x, k)
  {
    var t := s + [x];
    assert t[..|t| - 1] == s;
    assert t[|t| - 1] == x;
  }

  /** Every element of a sequence is in its multiset. */
  lemma {:induction false} InMultiset(r: seq<Related>, i: nat)
    requires i < |r|
    ensures r[i] in multiset(r)
  {
  }

  lemma {:induction false} InsertSorted(xs: seq<Related>, x: Related)
    requires SortedDesc(xs)
    ensures SortedDesc(InsertDesc(xs, x))
    decreases |xs|
  {
    if |xs| > 0 && Key(xs[|xs| - 1]) < Key(x) {
      var init := xs[..|xs| - 1];
      var last := xs[|xs| - 1];
      assert SortedDesc(init);
      InsertSorted(init, x);
      var r := InsertDesc(init, x);
      InsertPermutes(init, x);
      forall i | 0 <= i < |r| ensures Key(r[i]) >= Key(last) {
        InMultiset(r, i);
        if r[i] != x {
          assert r[i] in multiset(init);
          var j :| 0 <= j < |init| && init[j] == r[i];
          assert xs[j] == init[j];
        }
      }
      assert InsertDesc(xs, x) == r + [last];
    }
  }

  lemma {:induction false} InsertStable(xs: seq<Related>, x: Related, k: nat)
    ensures WithKey(InsertDesc(xs, x), k) == WithKey(xs, k) + Sel(x, k)
    decreases |xs|
  {
    if |xs| == 0 {
      WithKeySnoc([], x, k);
      assert [] + [x] == [x];
    } else if Key(xs[|xs| - 1]) >= Key(x) {
      WithKeySnoc(xs, x, k);
    } else {
      var init, last := xs[..|xs| - 1], xs[|xs| - 1];
      var r := InsertDesc(init, x);
      assert InsertDesc(xs, x) == r + [last];
      assert xs == init + [last];
      InsertStable(init, x, k);
      WithKeySnoc(r, last, k);
      WithKeySnoc(init, last, k);
      // `last` and `x` have different keys, so at most one of them is kept
      var w := WithKey(init, k);
      if Key(x) == k {
        assert Sel(last, k) == [];
        assert w + Sel(x, k) + [] == w + [] + Sel(x, k);
      } else {
        assert Sel(x, k) == [];
        assert w + [] + Sel(last, k) == w + Sel(last, k) + [];
      }
    }
  }

  /** The sort orders by key, largest first, and keeps the original order among
      elements with the same key. */
  lemma {:induction false} SortDescSortedStable(s: seq<Related>)
    ensures SortedDesc(SortDesc(s))
    ensures forall k :: WithKey(SortDesc(s), k) == WithKey(s, k)
  {
    if |s| > 0 {
      SortDescSortedStable(s[..|s| - 1]);
      InsertSorted(SortDesc(s[..|s| - 1]), s[|s| - 1]);
      var init, last := s[..|s| - 1], s[|s| - 1];
      assert s == init + [last];
      forall k ensures WithKey(SortDesc(s), k) == WithKey(s, k) {
        InsertStable(SortDesc(init), last, k);
        WithKeySnoc(init, last, k);
      }
    }
  }

  /** `[:3]` */
  function Take3(s: seq<Related>): (r: seq<Related>)
    ensures |r| == if |s| <= 3 then |s| else 3
    ensures r == s[..|r|]
  {
    if |s| <= 3 then s else s[..3]
  }

  // ---------------------------------------------------------------------
  // Related functions over the registry
  // ---------------------------------------------------------------------

  function TagSet(e: Entry): set<string>
  {
    set t | t in GetOr(e.tags, [])
  }

  /** A record is related when it shares a tag or has the same (possibly missing) type. */
  predicate IsRelated(e: Entry, tags: set<string>, ftype: Option<string>) {
    TagSet(e) * tags != {} || e.functionType == ftype
  }

  function RelatedOf(name: string, e: Entry, tags: set<string>): Related
  {
    Related(name, GetOr(e.description, ""), GetOr(e.functionType, DefaultFunctionType), TagSet(e) * tags)
  }

  /** The loop over the registry, in its order, before sorting. */
  function Candidates(fs: map<string, Entry>, order: seq<string>, self: string,
                      tags: set<string>, ftype: Option<string>): seq<Related>
    requires forall k :: k in order ==> k in fs
  {
    if |order| == 0 then []
    else
      var k := order[|order| - 1];
      Candidates(fs, order[..|order| - 1], self, tags, ftype) +
        (if k != self && IsRelated(fs[k], tags, ftype) then [RelatedOf(k, fs[k], tags)] else [])
  }

  /** Every candidate comes from a related other name of the order. */
  lemma {:induction false} CandidatesSound(fs: map<string, Entry>, order: seq<string>, self: string,
                                           tags: set<string>, ftype: Option<string>, x: Related)
    requires forall k :: k in order ==> k in fs
    requires x in Candidates(fs, order, self, tags, ftype)
    ensures exists k :: k in order && k != self && IsRelated(fs[k], tags, ftype) && x == RelatedOf(k, fs[k], tags)
  {
    var init := order[..|order| - 1];
    var k := order[|order| - 1];
    if x in Candidates(fs, init, self, tags, ftype) {
      CandidatesSound(fs, init, self, tags, ftype, x);
      var k' :| k' in init && k' != self && IsRelated(fs[k'], tags, ftype) && x == RelatedOf(k', fs[k'], tags);
      assert k' in order;
    } else {
      assert k in order;
    }
  }

  /** Every related other name of the order gives a candidate. */
  lemma {:induction false} CandidatesComplete(fs: map<string, Entry>, order: seq<string>, self: string,
                                              tags: set<string>, ftype: Option<string>, i: nat)
    requires forall k :: k in order ==> k in fs
    requires i < |order| && order[i] != self && IsRelated(fs[order[i]], tags, ftype)
    ensures RelatedOf(order[i], fs[order[i]], tags) in Candidates(fs, order, self, tags, ftype)
  {
    var init := order[..|order| - 1];
    if i < |order| - 1 {
      assert init[i] == order[i];
      CandidatesComplete(fs, init, self, tags, ftype, i);
    }
  }

  /** The candidates are exactly the related other names of the order. */
  lemma {:induction false} CandidatesExact(fs: map<string, Entry>, order: seq<string>, self: string,
                                           tags: set<string>, ftype: Option<string>)
    requires forall k :: k in order ==> k in fs
    ensures forall x :: x in Candidates(fs, order, self, tags, ftype) <==>
      exists k :: k in order && k != self && IsRelated(fs[k], tags, ftype) && x == RelatedOf(k, fs[k], tags)
  {
    forall x ensures x in Candidates(fs, order, self, tags, ftype) <==>
      exists k :: k in order && k != self && IsRelated(fs[k], tags, ftype) && x == RelatedOf(k, fs[k], tags)
    {
      if x in Candidates(fs, order, self, tags, ftype) {
        CandidatesSound(fs, order, self, tags, ftype, x);
      }
      if exists k :: k in order && k != self && IsRelated(fs[k], tags, ftype) && x == RelatedOf(k, fs[k], tags) {
        var k :| k in order && k != self && IsRelated(fs[k], tags, ftype) && x == RelatedOf(k, fs[k], tags);
        var i :| 0 <= i < |order| && order[i] == k;
        CandidatesComplete(fs, order, self, tags, ftype, i);
      }
    }
  }

  /** `get_related_functions(name)`: `[]` for a name with no record (or an empty one);
      otherwise the related others, sorted and cut to three. */
  function RelatedFunctions(fs: map<string, Entry>, order: seq<string>, self: string): seq<Related>
    requires forall k :: k in order ==> k in fs
  {
    var current := if self in fs then fs[self] else EmptyEntry;
    if current == EmptyEntry then []
    else Take3(SortDesc(Candidates(fs, order, self, TagSet(current), current.functionType)))
  }

  /** The first three of the sorted list: drawn from the input, in order, and nothing
      left out has a larger key than anything kept. */
  lemma {:induction false} TopThree(c: seq<Related>)
    ensures var r := Take3(SortDesc(c));
      && |r| <= 3 && SortedDesc(r)
      && (forall x :: x in r ==> x in c)
      && (forall x, y :: x in c && x !in r && y in r ==> Key(x) <= Key(y))
  {
    var sorted := SortDesc(c);
    SortDescSortedStable(c);
    SortPermutes(c);
    var r := Take3(sorted);
    forall x | x in r ensures x in c {
      assert x in multiset(sorted);
    }
    assert forall m :: 0 <= m < |r| ==> r[m] == sorted[m];
    forall x, y | x in c && x !in r && y in r ensures Key(x) <= Key(y) {
      assert x in multiset(sorted);
      var i :| 0 <= i < |sorted| && sorted[i] == x;
      var j :| 0 <= j < |r| && r[j] == y;
      assert sorted[j] == y;
    }
  }

  /** What the related list holds: at most three other registered functions, each related
      to the given one, with the tags they share with it, the most shared tags first; and
      nothing left out shares more tags than anything kept. */
  lemma {:induction false} RelatedFunctionsSpec(fs: map<string, Entry>, order: seq<string>, self: string)
    requires forall k :: k in order ==> k in fs
    requires self in fs && fs[self] != EmptyEntry
    ensures var r := RelatedFunctions(fs, order, self);
      var tags := TagSet(fs[self]);
      && |r| <= 3
      && SortedDesc(r)
      && (forall x :: x in r ==> x.name != self && x.name in fs && IsRelated(fs[x.name], tags, fs[self].functionType)
                                 && x == RelatedOf(x.name, fs[x.name], tags))
      && (forall x, y :: x in Candidates(fs, order, self, tags, fs[self].functionType) && x !in r && y in r ==> Key(x) <= Key(y))
  {
    var tags := TagSet(fs[self]);
    var c := Candidates(fs, order, self, tags, fs[self].functionType);
    CandidatesExact(fs, order, self, tags, fs[self].functionType);
    TopThree(c);
    var r := Take3(SortDesc(c));
    assert r == RelatedFunctions(fs, order, self);
    forall x | x in r
      ensures x.name != self && x.name in fs && IsRelated(fs[x.name], tags, fs[self].functionType)
              && x == RelatedOf(x.name, fs[x.name], tags)
    {
      assert x in c;
      var k :| k in order && k != self && IsRelated(fs[k], tags, fs[self].functionType) && x == RelatedOf(k, fs[k], tags);
    }
  }

  /** Unknown names have no related functions. */
  lemma {:induction false} RelatedOfUnknown(fs: map<string, Entry>, order: seq<string>, self: string)
    requires forall k :: k in order ==> k in fs
    requires self !in fs
    ensures RelatedFunctions(fs, order, self) == []
  {
  }

  /** The lines `format_execution_result` adds for the related functions. */
  function RelatedLines(related: seq<Related>): string
  {
    if |related| == 0 then ""
    else RelatedLines(related[..|related| - 1]) + RelatedLine(related[|related| - 1])
  }

  /** The line for one related function. */
  function RelatedLine(x: Related): string
  {
    "\n- " + x.name + ": " + x.description
  }

  lemma RelatedLinesSnoc(s: seq<Related>, x: Related)
    ensures RelatedLines(s + [x]) == RelatedLines(s) + RelatedLine(x)
  {
    var t := s + [x];
    assert t[..|t| - 1] == s;
    assert t[|t| - 1] == x;
  }

  const RelatedHeader := "\n\nFunciones relacionadas que podrían interesarte:"

  /** The loop of `format_execution_result`: the header, then one line per related
      function, in order. */
  method WithRelated(value: string, related: seq<Related>) returns (output: string)
    ensures output == value + RelatedHeader + RelatedLines(related)
  {
    output := value + RelatedHeader;
    var i := 0;
    while i < |related|
      invariant 0 <= i <= |related|
      invariant output == value + RelatedHeader + RelatedLines(related[..i])
    {
      assert related[..i + 1] == related[..i] + [related[i]];
      RelatedLinesSnoc(related[..i], related[i]);
      Regroup(value + RelatedHeader, RelatedLines(related[..i]), RelatedLine(related[i]));
      output := output + RelatedLine(related[i]);
      i := i + 1;
    }
    assert related[..i] == related;
  }

  /** What `format_execution_result` returns. `valueIsText` says whether the function
      returned a `str`: for any other value the first `+=` raises `TypeError`, and the
      handler answers the value's text alone, without the related functions. */
  function ResultText(result: ExecResult, name: string, related: seq<Related>, valueIsText: bool): string
  {
    match result
    case Succeeded(value, _, _) =>
      if |related| == 0 || !valueIsText then value else value + RelatedHeader + RelatedLines(related)
    case Failed(error, kind) =>
      var m := ErrorMessage("execution_error", map["name" := name, "error" := error, "type" := KindName(kind)], "");
      m.message + "\n" + m.action
  }

  /** A failed execution is always shown as the fallback text. */
  lemma {:induction false} FailedResultText(error: string, kind: FailureKind, name: string, related: seq<Related>, valueIsText: bool)
    ensures ResultText(Failed(error, kind), name, related, valueIsText) == "Error: " + error + "\n" + FallbackAction
  {
    ExecutionErrorFallsBack(map["name" := name, "error" := error, "type" := KindName(kind)], "");
  }

  /** A successful result is kept as the prefix of what is shown; the related functions
      follow it only when there are some and the value is text. */
  lemma {:induction false} SuccessTextKeepsResult(value: string, t: nat, m: nat, name: string, related: seq<Related>, valueIsText: bool)
    ensures StartsWith(ResultText(Succeeded(value, t, m), name, related, valueIsText), value)
    ensures related == [] || !valueIsText <==> ResultText(Succeeded(value, t, m), name, related, valueIsText) == value
  {
    var s := ResultText(Succeeded(value, t, m), name, related, valueIsText);
    assert s[..|value|] == value;
    if related != [] && valueIsText {
      assert |s| > |value| by { assert |RelatedHeader| > 0; }
    }
  }

  class FeedbackManager {
    const registry: FunctionRegistry

    constructor(registry: FunctionRegistry)
      ensures this.registry == registry
    {
      this.registry := registry;
    }

    /** `get_description` as an f-string sees it: `None` prints as "None". */
    function DescriptionText(name: string): string
      reads registry
    {
      match registry.GetDescription(name)
      case None => "None"
      case Some(d) => d
    }

    /** `_get_function_suggestions(query)`: one line per close match. */
    function Suggestions(query: string, closeMatches: (string, seq<string>) -> seq<string>): (r: string)
      reads registry
      ensures closeMatches(query, registry.order) == [] ==> r == ""
    {
      var matches := closeMatches(query, registry.order);
      if |matches| == 0 then ""
      else Join(seq(|matches|, i requires 0 <= i < |matches| reads registry => SuggestionLine(matches[i])), "\n")
    }

    /** The suggestion line for one close match. */
    function SuggestionLine(name: string): string
      reads registry
    {
      "- " + name + ": " + DescriptionText(name)
    }

    /** With at least one close match and no newline inside a line, the suggestions
        split back into one line per match, in the matcher's order. */
    lemma {:induction false} SuggestionsAreMatchLines(query: string, closeMatches: (string, seq<string>) -> seq<string>)
      requires forall k :: 0 <= k < |closeMatches(query, registry.order)| ==> '\n' !in SuggestionLine(closeMatches(query, registry.order)[k])
      ensures var matches := closeMatches(query, registry.order);
              matches != [] ==>
                var lines := Split(Suggestions(query, closeMatches), '\n');
                |lines| == |matches| && forall i :: 0 <= i < |matches| ==> lines[i] == SuggestionLine(matches[i])
    {
      var matches := closeMatches(query, registry.order);
      if matches != [] {
        var parts := seq(|matches|, i requires 0 <= i < |matches| reads registry => SuggestionLine(matches[i]));
        assert forall k :: 0 <= k < |parts| ==> parts[k] == SuggestionLine(matches[k]);
        SplitJoin(parts, '\n');
      }
    }

    /** `get_error_message` */
    function GetErrorMessage(errorType: string, kw: map<string, string>,
                             closeMatches: (string, seq<string>) -> seq<string>): (r: Message)
      reads registry
      ensures errorType != "function_not_found" ==> r == ErrorMessage(errorType, kw, "")
    {
      ErrorMessage(errorType, kw, Suggestions(if "name" in kw then kw["name"] else "", closeMatches))
    }

    /** `get_related_functions`: the loop over the registry, then the sort and the cut. */
    method GetRelatedFunctions(functionName: string) returns (r: seq<Related>)
      requires registry.Valid()
      ensures r == RelatedFunctions(registry.functions, registry.order, functionName)
    {
      var current := registry.GetFunctionInfo(functionName);
      if current == EmptyEntry {
        return [];
      }
      var currentTags := TagSet(current);
      var currentType := current.functionType;
      var related: seq<Related> := [];
      var names := registry.order;
      var i := 0;
      while i < |names|
        invariant 0 <= i <= |names|
        invariant related == Candidates(registry.functions, names[..i], functionName, currentTags, currentType)
      {
        assert names[..i + 1][..i] == names[..i];
        var name := names[i];
        var info := registry.functions[name];
        if name != functionName {
          var tags := TagSet(info);
          if tags * currentTags != {} || info.functionType == currentType {
            related := related + [Related(name, GetOr(info.description, ""), GetOr(info.functionType, DefaultFunctionType), tags * currentTags)];
          }
        }
        i := i + 1;
      }
      assert names[..i] == names;
      r := Take3(SortDesc(related));
    }

    /** `format_execution_result`: the result followed by one line per related function,
        or the execution-error message and action. `valueIsText` says whether the
        function's value is a `str`. */
    method FormatExecutionResult(result: ExecResult, functionName: string, valueIsText: bool) returns (s: string)
      requires registry.Valid()
      ensures s == ResultText(result, functionName, RelatedFunctions(registry.functions, registry.order, functionName), valueIsText)
    {
      match result {
        case Succeeded(value, _, _) =>
          var related := GetRelatedFunctions(functionName);
          if |related| > 0 && valueIsText {
            s := WithRelated(value, related);
          } else {
            // No related function, or the `TypeError` handler: the value's text.
            s := value;
          }
        case Failed(error, kind) =>
          var m := ErrorMessage("execution_error", map["name" := functionName, "error" := error, "type" := KindName(kind)], "");
          s := m.message + "\n" + m.action;
      }
    }
  }
}
