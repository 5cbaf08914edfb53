/**
 * The deterministic parts of `AIService`: the checks and the post-processing
 * it applies around its calls to the language model. What the model answers
 * is a parameter (`Reply`), so the model never sees a prompt here; the prompts
 * built from the registry or the task list are kept, to state what of those
 * the model is shown, and the fixed prompt texts are left out.
 */
module AiService {
  import opened Base
  import opened Registry

  /** The outcome of `self.models['gemini'].generate_content(prompt)` followed by
      `.text`: `Raised` when that raised (no model was loaded, since `None` has no
      `generate_content`; a network failure; a reply without text), otherwise the text. */
  datatype Reply = Raised | Answered(text: string)

  /** The keys of `self.models`. */
  const ModelNames: set<string> := {"gemini", "deepseek", "claude", "gpt4"}

  /** `is_model_available`: Gemini counts only when its model object was created;
      the other names only need to be keys. `geminiLoaded` is `models['gemini'] is not None`. */
  function IsModelAvailable(model: string, geminiLoaded: bool): (r: bool)
    ensures model == "gemini" ==> (r <==> geminiLoaded)
    ensures model != "gemini" ==> (r <==> model in ModelNames)
  {
    if model == "gemini" then geminiLoaded else model in ModelNames
  }

  /** Only the four configured names can ever be available, and the three routed
      through OpenRouter are available even when Gemini failed to load. */
  lemma AvailableModels(model: string, geminiLoaded: bool)
    ensures IsModelAvailable(model, geminiLoaded) ==> model in ModelNames
    ensures model in ModelNames - {"gemini"} ==> IsModelAvailable(model, false)
  {
  }

  // ---------------------------------------------------------------------
  // generate_code
  // ---------------------------------------------------------------------

  const Fence := "```python"
  const FenceEnd := "```"

  /** The post-processing `generate_code` applies to a non-empty reply: strip; after an
      opening fence drop the first 10 characters (the fence and one more); drop a closing
      fence; strip again. */
  function CleanCode(text: string): (r: string)
    ensures Strip(r) == r
  {
    var code := Strip(text);
    var afterFence := if StartsWith(code, Fence) then (if |code| >= 10 then code[10..] else "") else code;
    var closed := if EndsWith(afterFence, FenceEnd) then afterFence[..|afterFence| - 3] else afterFence;
    StripIdempotent(closed, Whitespace);
    Strip(closed)
  }

  /** `generate_code` once the model has answered: `None` for a failed call or an empty
      reply, otherwise the cleaned code. */
  method GenerateCode(reply: Reply) returns (code: Option<string>)
    ensures reply.Raised? || reply.text == "" ==> code == None
    ensures reply.Answered? && reply.text != "" ==> code == Some(CleanCode(reply.text))
  {
    if reply.Raised? || reply.text == "" {
      return None;
    }
    code := Some(CleanCode(reply.text));
  }

  /** A fenced block whose fence is followed by a line break comes back as its body. */
  lemma CleanFenced(body: string)
    requires |body| > 0 && body[0] !in Whitespace && body[|body| - 1] !in Whitespace
    ensures CleanCode(Fence + "\n" + body + "\n" + FenceEnd) == body
  {
    var t := Fence + "\n" + body + "\n" + FenceEnd;
    FencedShape(body);
    BacktickVisible();
    StripOfTrimmed(t);
    CleanCodeOfFenced(t, t, body + "\n" + FenceEnd);
    StripNewline(body);
  }

  lemma BacktickVisible()
    ensures '`' !in Whitespace
  {
  }

  /** `CleanCode` on a stripped, fenced text: what lies between the fences, stripped. */
  lemma CleanCodeOfFenced(text: string, t: string, inner: string)
    requires Strip(text) == t && StartsWith(t, Fence) && |t| >= 10 && t[10..] == inner
    requires EndsWith(inner, FenceEnd)
    ensures |inner| >= 3 && CleanCode(text) == Strip(inner[..|inner| - 3])
  {
  }

  /** The pieces `CleanCode` cuts a fenced block into. */
  lemma FencedShape(body: string)
    ensures var t := Fence + "\n" + body + "\n" + FenceEnd;
      && t[0] == '`' && t[|t| - 1] == '`'
      && StartsWith(t, Fence) && |t| >= 10 && t[10..] == body + "\n" + FenceEnd
      && EndsWith(body + "\n" + FenceEnd, FenceEnd)
      && (body + "\n" + FenceEnd)[..|body + "\n" + FenceEnd| - 3] == body + "\n"
  {
    var t := Fence + "\n" + body + "\n" + FenceEnd;
    assert t == (Fence + "\n") + (body + "\n" + FenceEnd);
    assert t[..9] == Fence;
  }

  /** A trailing line break is stripped away. */
  lemma StripNewline(body: string)
    requires |body| > 0 && body[0] !in Whitespace && body[|body| - 1] !in Whitespace
    ensures Strip(body + "\n") == body
  {
    assert StripLeft(body + "\n", Whitespace) == body + "\n";
    assert (body + "\n")[..|body + "\n"| - 1] == body;
    assert StripRight(body + "\n", Whitespace) == StripRight(body, Whitespace);
    StripOfTrimmed(body);
  }

  /** The tenth character is always dropped after an opening fence: when the reply has
      no line break after the fence, the first character of the code is lost. */
  lemma FenceDropsNextCharacter(c: char, rest: string)
    requires c !in Whitespace && |rest| > 0 && rest[0] !in Whitespace && rest[|rest| - 1] !in Whitespace
    requires !EndsWith(rest, FenceEnd)
    ensures CleanCode(Fence + [c] + rest) == rest
  {
    var t := Fence + [c] + rest;
    assert t[0] == '`' && t[|t| - 1] == rest[|rest| - 1];
    StripOfTrimmed(t);
    assert StartsWith(t, Fence);
    assert t[10..] == rest;
    StripOfTrimmed(rest);
  }

  /** A reply without fences is only stripped. */
  lemma CleanUnfenced(text: string)
    requires !StartsWith(Strip(text), Fence) && !EndsWith(Strip(text), FenceEnd)
    ensures CleanCode(text) == Strip(text)
  {
    StripIdempotent(text, Whitespace);
  }

  // ---------------------------------------------------------------------
  // validate_code
  // ---------------------------------------------------------------------

  const Prohibited: seq<string> := ["requests", "beautifulsoup", "selenium", "tensorflow", "torch"]

  /** A line the import scan rejects: stripped, it starts with `import `, and some
      prohibited name occurs anywhere in the (unstripped) line. */
  predicate FlaggedLine(line: string)
  {
    StartsWith(Strip(line), "import ") && ContainsAny(line, Prohibited)
  }

  /** Code `validate_code` accepts: it compiles and no line is flagged. */
  predicate Acceptable(code: string, compiles: bool)
  {
    compiles && forall k :: 0 <= k < |Split(code, '\n')| ==> !FlaggedLine(Split(code, '\n')[k])
  }

  /** `validate_code`. `compiles` is whether `compile(code, '<string>', 'exec')` succeeds. */
  method ValidateCode(code: string, compiles: bool) returns (ok: bool)
    ensures ok <==> Acceptable(code, compiles)
  {
    if !compiles {
      return false;
    }
    var lines := Split(code, '\n');
    var i := 0;
    while i < |lines|
      invariant 0 <= i <= |lines|
      invariant forall k :: 0 <= k < i ==> !FlaggedLine(lines[k])
    {
      var flagged := LineFlagged(lines[i]);
      if flagged {
        return false;
      }
      i := i + 1;
    }
    return true;
  }

  /** The check of one line: an import line that mentions a prohibited name. */
  method LineFlagged(line: string) returns (flagged: bool)
    ensures flagged == FlaggedLine(line)
  {
    flagged := false;
    if StartsWith(Strip(line), "import ") {
      flagged := MentionsAny(line, Prohibited);
    }
  }

  /** The scan of one import line: whether any of `names` occurs in it. */
  method MentionsAny(line: string, names: seq<string>) returns (found: bool)
    ensures found <==> ContainsAny(line, names)
  {
    var j := 0;
    while j < |names|
      invariant 0 <= j <= |names|
      invariant forall m :: 0 <= m < j ==> !Contains(line, names[m])
    {
      if Contains(line, names[j]) {
        return true;
      }
      j := j + 1;
    }
    return false;
  }

  /** A `from ... import ...` line is never flagged, whatever it imports. */
  lemma FromLinesPass(line: string)
    requires StartsWith(Strip(line), "from ")
    ensures !FlaggedLine(line)
  {
    StartsWithExclusive(Strip(line), "from ", "import ");
  }

  /** For one-line code the verdict is that line's. */
  lemma SingleLineVerdict(line: string, compiles: bool)
    requires '\n' !in line
    ensures Acceptable(line, compiles) <==> compiles && !FlaggedLine(line)
  {
    SplitWithout(line, '\n');
    assert Split(line, '\n')[0] == line;
  }

  lemma TorchLineParts(rest: string)
    ensures ("import torch" + rest)[..7] == "import "
    ensures ("import torch" + rest)[7..12] == Prohibited[4]
    ensures ("import torch" + rest)[0] == 'i'
    ensures '\n' !in rest ==> '\n' !in "import torch" + rest
  {
    var head := "import torch";
    assert (head + rest)[..7] == head[..7];
    assert (head + rest)[7..12] == head[7..12];
  }

  /** `import torch` with anything after it on the line is rejected. */
  lemma TorchImportRejected(rest: string)
    requires '\n' !in rest && (rest == [] || rest[|rest| - 1] !in Whitespace)
    ensures !Acceptable("import torch" + rest, true)
  {
    var line := "import torch" + rest;
    TorchLineParts(rest);
    assert line[|line| - 1] !in Whitespace by {
      if rest == [] {
        assert line[|line| - 1] == 'h';
      } else {
        assert line[|line| - 1] == rest[|rest| - 1];
      }
    }
    StripOfTrimmed(line);
    assert StartsWith(line, "import ");
    assert OccursAt(line, Prohibited[4], 7);
    ContainsIffOccurs(line, Prohibited[4]);
    assert Contains(line, Prohibited[4]);
    assert FlaggedLine(line);
    SingleLineVerdict(line, true);
  }

  // ---------------------------------------------------------------------
  // translate_result
  // ---------------------------------------------------------------------

  /** `translate_result` as written: building its prompt evaluates `{acción}`, a name
      that does not exist, so it raises before the model is asked and the handler
      returns the input. Whatever the model would have said, the result is the input. */
  function TranslateResult(result: string, context: string, reply: Reply): (r: string)
    ensures r == result
  {
    result
  }

  /** `translate_result` as its prompt and its handlers intend: the stripped reply when
      there is one, and the input when the call fails or the reply is empty. */
  function TranslateResultIntended(result: string, context: string, reply: Reply): (r: string)
    ensures reply.Raised? || reply.text == "" ==> r == result
    ensures reply.Answered? && reply.text != "" ==> r == Strip(reply.text)
  {
    if reply.Answered? && reply.text != "" then Strip(reply.text) else result
  }

  /** The written version never passes on a translation the intended one returns. */
  lemma TranslationIsLost(result: string, context: string, text: string)
    requires text != "" && Strip(text) != result
    ensures TranslateResult(result, context, Answered(text)) != TranslateResultIntended(result, context, Answered(text))
  {
  }

  // ---------------------------------------------------------------------
  // analyze_request
  // ---------------------------------------------------------------------

  /** One line of the function listing: `- name: description`. */
  function ListingLine(name: string, e: Entry): string
  {
    "- " + name + ": " + GetOr(e.description, DefaultDescription)
  }

  /** The function listing put into the prompt, in the registry's order. */
  function Listing(order: seq<string>, functions: map<string, Entry>): (r: seq<string>)
    requires forall k :: 0 <= k < |order| ==> order[k] in functions
    ensures |r| == |order|
    ensures forall k :: 0 <= k < |order| ==> r[k] == ListingLine(order[k], functions[order[k]])
  {
    seq(|order|, k requires 0 <= k < |order| => ListingLine(order[k], functions[order[k]]))
  }

  /** The listing text splits back into one line per function when no name or
      description holds a line break. */
  lemma ListingLines(order: seq<string>, functions: map<string, Entry>)
    requires |order| > 0
    requires forall k :: 0 <= k < |order| ==> order[k] in functions
    requires forall k :: 0 <= k < |order| ==> '\n' !in ListingLine(order[k], functions[order[k]])
    ensures Split(Join(Listing(order, functions), "\n"), '\n') == Listing(order, functions)
  {
    SplitJoin(Listing(order, functions), '\n');
  }

  /** `analyze_request`'s answer: the stripped reply, or `NO` when the call fails or the
      reply is empty. */
  function AnalyzeRequest(reply: Reply): (r: string)
    ensures reply.Raised? || reply.text == "" ==> r == "NO"
    ensures reply.Answered? && reply.text != "" ==> r == Strip(reply.text)
  {
    if reply.Answered? && reply.text != "" then Strip(reply.text) else "NO"
  }

  // ---------------------------------------------------------------------
  // generate_task_suggestions
  // ---------------------------------------------------------------------

  datatype Task = Task(title: string, category: string)

  /** `- title (category)` for each of the last five tasks. */
  function TaskHistory(tasks: seq<Task>): (r: seq<string>)
    ensures |r| == if |tasks| <= 5 then |tasks| else 5
    ensures forall k :: 0 <= k < |r| ==>
      r[k] == "- " + tasks[|tasks| - |r| + k].title + " (" + tasks[|tasks| - |r| + k].category + ")"
  {
    var recent := LastN(tasks, 5);
    seq(|recent|, k requires 0 <= k < |recent| => "- " + recent[k].title + " (" + recent[k].category + ")")
  }

  /** The characters `s.strip("- ")` removes. */
  const DashSpace: set<char> := {'-', ' '}

  /** What the filter keeps of one line: nothing when it is blank, else the line with
      its dashes and spaces trimmed. */
  function Kept(line: string): (r: seq<string>)
    ensures |r| <= 1
  {
    if Strip(line) != "" then [StripChars(line, DashSpace)] else []
  }

  /** `[s.strip("- ") for s in lines if s.strip()]` */
  function SuggestionLines(lines: seq<string>): (r: seq<string>)
    ensures |r| <= |lines|
  {
    if |lines| == 0 then []
    else SuggestionLines(lines[..|lines| - 1]) + Kept(lines[|lines| - 1])
  }

  lemma SuggestionLinesSnoc(s: seq<string>, x: string)
    ensures SuggestionLines(s + [x]) == SuggestionLines(s) + Kept(x)
  {
    var t := s + [x];
    assert t[..|t| - 1] == s;
    assert t[|t| - 1] == x;
  }

  /** The filter works line by line: suggestions of two blocks are the suggestions of
      each, in order. */
  lemma {:induction false} SuggestionLinesAppend(a: seq<string>, b: seq<string>)
    ensures SuggestionLines(a + b) == SuggestionLines(a) + SuggestionLines(b)
    decreases |b|
  {
    if |b| == 0 {
      assert a + b == a;
    } else {
      var init, last := b[..|b| - 1], b[|b| - 1];
      assert b == init + [last];
      Regroup(a, init, [last]);
      SuggestionLinesSnoc(a + init, last);
      SuggestionLinesSnoc(init, last);
      SuggestionLinesAppend(a, init);
      Regroup(SuggestionLines(a), SuggestionLines(init), Kept(last));
    }
  }

  /** Blank lines are dropped, every other line is kept with its dashes and spaces
      trimmed. */
  lemma SuggestionOfOneLine(line: string)
    ensures Strip(line) == "" ==> SuggestionLines([line]) == []
    ensures Strip(line) != "" ==> SuggestionLines([line]) == [StripChars(line, DashSpace)]
  {
    SuggestionLinesSnoc([], line);
    assert [] + [line] == [line];
  }

  /** A kept line has no dash or space left at either end. */
  lemma SuggestionTrimmed(line: string)
    ensures forall s :: s in SuggestionLines([line]) ==> s == [] || (s[0] !in DashSpace && s[|s| - 1] !in DashSpace)
  {
    SuggestionOfOneLine(line);
    if Strip(line) != "" {
      var r := StripChars(line, DashSpace);
      TrimmedEnds(line, DashSpace);
      assert SuggestionLines([line]) == [r];
      forall s | s in SuggestionLines([line])
        ensures s == [] || (s[0] !in DashSpace && s[|s| - 1] !in DashSpace)
      {
        assert s == r;
      }
    }
  }

  lemma TrimmedEnds(line: string, cs: set<char>)
    ensures var r := StripChars(line, cs); r == [] || (r[0] !in cs && r[|r| - 1] !in cs)
  {
    StripCharsShape(line, cs);
  }

  /** `generate_task_suggestions` once the model has answered; a failed call gives []. */
  function GenerateTaskSuggestions(tasks: seq<Task>, reply: Reply): (r: seq<string>)
    ensures reply.Raised? ==> r == []
    ensures reply.Answered? ==> r == SuggestionLines(Split(Strip(reply.text), '\n'))
  {
    match reply
    case Raised => []
    case Answered(text) => SuggestionLines(Split(Strip(text), '\n'))
  }

  /** An empty or blank reply gives no suggestion. */
  lemma BlankReplyNoSuggestions(tasks: seq<Task>, text: string)
    requires Strip(text) == ""
    ensures GenerateTaskSuggestions(tasks, Answered(text)) == []
  {
    assert Split("", '\n') == [""];
    assert Strip("") == "";
    assert [""][..0] == [];
  }
}
