/**
 * Prompt normalisation, tool filtering and tool making from
 * `metagpt/actions/write_analysis_code.py`: a mixed prompt becomes a list
 * of role/content entries led by the system text; recommended tools are
 * filtered against a catalog; `MakeTools` asks the model for a function
 * until one with a name comes back, and saves it under that name.
 */
module WriteAnalysisCode {
  import opened Base
  import opened Strings
  import opened Dicts
  import opened Schema

  /** The system text of the code-writing actions. */
  const BaseSystemMsg: string := "You are Code Interpreter, a world-class programmer that can complete any goal by executing code. Strictly follow the plan and generate code step by step. Each step of the code will be executed on the user's machine, and the user will provide the code execution results to you.**Notice: The code for the next step depends on the code for the previous step. Must reuse variables in the lastest other code directly, dont creat it again, it is very import for you. Use !pip install in a standalone block to install missing packages.Usually the libraries you need are already installed.Dont check if packages already imported.**"

  /** The system text of `MakeTools`. */
  const MakeToolsSystemMsg: string := "Convert any codes provied for you to a very General Function Code startswith `def`.\n\n    **Notice:\n    1. Your code must contain a general function start with `def`.\n    2. Refactor your code to get the most efficient implementation for large input data in the shortest amount of time.\n    3. Must use Google style for function docstring, and your docstring must be consistent with the code,without missing anything.\n    4. Write example code after `if __name__ == '__main__':`by using old varibales in old code,\n    and make sure it could be execute in the user's machine.\n    5. Only use the imported packages**\n    "

  // ---------------------------------------------------------------------
  // process_msg
  // ---------------------------------------------------------------------

  /** One element of a prompt: a string, a dict, a message, or anything else. */
  datatype PromptItem = TextItem(s: string) | DictItem(d: Dict<string>) | MessageItem(m: Message) | OtherItem

  /** A prompt is one item or a list of them. */
  datatype Prompt = Single(item: PromptItem) | Many(items: seq<PromptItem>)

  /** A prompt that is not a list is wrapped into a one-item list. */
  function Items(p: Prompt): (r: seq<PromptItem>)
    ensures p.Single? ==> r == [p.item]
    ensures p.Many? ==> r == p.items
  {
    match p
    case Single(item) => [item]
    case Many(items) => items
  }

  function UserEntry(content: string): Dict<string> {
    [("role", "user"), ("content", content)]
  }

  function SystemEntry(content: string): Dict<string> {
    [("role", "system"), ("content", content)]
  }

  /** The entry an item contributes: strings become user entries, dicts pass, messages give `to_dict()`. */
  function Converted(item: PromptItem): (r: Option<Dict<string>>)
    ensures r.None? <==> item.OtherItem?
    ensures item.TextItem? ==> r == Some(UserEntry(item.s))
    ensures item.DictItem? ==> r == Some(item.d)
    ensures item.MessageItem? ==> r == Some(ToDict(item.m))
  {
    match item
    case TextItem(s) => Some(UserEntry(s))
    case DictItem(d) => Some(d)
    case MessageItem(m) => Some(ToDict(m))
    case OtherItem => None
  }

  /** The entries of the items in order, the unconvertible ones dropped. */
  function Collected(items: seq<PromptItem>): (r: seq<Dict<string>>)
    ensures |r| <= |items|
    ensures forall d :: d in r ==> exists item :: item in items && Converted(item) == Some(d)
    decreases |items|
  {
    if items == [] then []
    else
      var init := items[..|items| - 1];
      var rest := Collected(init);
      assert forall item :: item in init ==> item in items;
      var last := items[|items| - 1];
      if last.OtherItem? then rest else rest + [Converted(last).value]
  }

  /** Collecting keeps item order: one more item adds its entry at the end, or nothing when it does not convert. */
  lemma {:induction false} CollectedAppend(items: seq<PromptItem>, item: PromptItem)
    ensures Collected(items + [item]) == Collected(items) + (if Converted(item).Some? then [Converted(item).value] else [])
  {
    assert (items + [item])[..|items|] == items;
  }

  /** When every item converts, each one gives exactly its entry, in order. */
  lemma {:induction false} CollectedKeepsConvertible(items: seq<PromptItem>)
    requires forall i :: 0 <= i < |items| ==> !items[i].OtherItem?
    ensures |Collected(items)| == |items|
    ensures forall i :: 0 <= i < |items| ==> Some(Collected(items)[i]) == Converted(items[i])
    decreases |items|
  {
    if items != [] {
      var init := items[..|items| - 1];
      CollectedKeepsConvertible(init);
      var r := Collected(items);
      assert r == Collected(init) + [Converted(items[|items| - 1]).value];
      forall i | 0 <= i < |items|
        ensures Some(r[i]) == Converted(items[i])
      {
        if i < |items| - 1 {
          assert items[i] == init[i];
        }
      }
    }
  }

  /** `system_msg or DEFAULT_SYSTEM_MSG`. */
  function SystemText(systemMsg: Option<string>, classDefault: string): string {
    if systemMsg.None? || systemMsg.value == "" then classDefault else systemMsg.value
  }

  /**
   * The system-text step: the first entry must contain `system`; when it
   * does not, a system entry is put in front, or, if the first entry is
   * itself a system entry, the text is appended to its content. Indexing an
   * empty list raises IndexError; a first entry without "content" (or,
   * when the text is missing, without "role") raises KeyError.
   */
  function WithSystem(msgs: seq<Dict<string>>, system: string): (r: Result<seq<Dict<string>>>)
    ensures r == Err(IndexError) <==> msgs == []
    ensures r.Err? && msgs != [] ==> r.error.KeyError?
    ensures r == Err(KeyError("content")) <==> msgs != [] && Get(msgs[0], "content").None?
    ensures r == Err(KeyError("role")) <==>
      msgs != [] && Get(msgs[0], "content").Some? && !Contains(Get(msgs[0], "content").value, system)
      && Get(msgs[0], "role").None?
    ensures msgs != [] && Get(msgs[0], "content").Some? && Contains(Get(msgs[0], "content").value, system) ==>
      r == Ok(msgs)
    ensures r.Ok? ==> r.value != [] && Get(r.value[0], "content").Some?
                      && Contains(Get(r.value[0], "content").value, system)
    ensures r.Ok? ==> |msgs| <= |r.value| <= |msgs| + 1
                      && r.value[|r.value| - |msgs| + 1..] == msgs[1..]
  {
    if msgs == [] then Err(IndexError)
    else match Get(msgs[0], "content")
      case None => Err(KeyError("content"))
      case Some(content) =>
        if Contains(content, system) then Ok(msgs)
        else match Get(msgs[0], "role")
          case None => Err(KeyError("role"))
          case Some(role) =>
            if role != "system" then
              ContainsInfix([], system, []);
              assert [] + system + [] == system;
              Ok([SystemEntry(system)] + msgs)
            else
              ContainsInfix(content, system, []);
              assert content + system + [] == content + system;
              Ok([SystemEntry(content + system)] + msgs[1..])
  }

  /** The insert and merge rules: a user-led list grows by one, a system-led one keeps its length. */
  lemma WithSystemChanges(msgs: seq<Dict<string>>, system: string, content: string, role: string)
    requires msgs != [] && Get(msgs[0], "content") == Some(content) && Get(msgs[0], "role") == Some(role)
    requires !Contains(content, system)
    ensures role != "system" ==> WithSystem(msgs, system) == Ok([SystemEntry(system)] + msgs)
    ensures role == "system" ==> WithSystem(msgs, system).Ok? && |WithSystem(msgs, system).value| == |msgs|
                                 && WithSystem(msgs, system).value[0] == SystemEntry(content + system)
  {
  }

  /** Normalising an already normalised list changes nothing. */
  lemma WithSystemIdempotent(msgs: seq<Dict<string>>, system: string)
    requires WithSystem(msgs, system).Ok?
    ensures WithSystem(WithSystem(msgs, system).value, system) == WithSystem(msgs, system)
  {
  }

  /** A single string prompt: its user entry, led by a system entry unless it holds the system text. */
  function TextPrompt(p: string, system: string): (msgs: seq<Dict<string>>)
    ensures WithSystem(Collected([TextItem(p)]), system) == Ok(msgs)
    ensures msgs != [] && msgs[|msgs| - 1] == UserEntry(p)
  {
    assert Collected([TextItem(p)]) == [UserEntry(p)] by {
      assert [TextItem(p)][..0] == [];
    }
    assert Get(UserEntry(p), "content") == Some(p);
    assert Get(UserEntry(p), "role") == Some("user");
    if Contains(p, system) then
      [UserEntry(p)]
    else
      assert WithSystem([UserEntry(p)], system) == Ok([SystemEntry(system)] + [UserEntry(p)]);
      [SystemEntry(system)] + [UserEntry(p)]
  }

  /** `process_msg`: collects the entries in a loop, then applies the system-text step. */
  method ProcessMsg(prompt: Prompt, systemMsg: Option<string>, classDefault: string)
    returns (r: Result<seq<Dict<string>>>)
    ensures r == WithSystem(Collected(Items(prompt)), SystemText(systemMsg, classDefault))
  {
    var system := if systemMsg.None? || systemMsg.value == "" then classDefault else systemMsg.value;
    var items := Items(prompt);
    var messages: seq<Dict<string>> := [];
    for i := 0 to |items|
      invariant messages == Collected(items[..i])
    {
      assert items[..i + 1][..i] == items[..i];
      match items[i]
      case TextItem(s) => messages := messages + [UserEntry(s)];
      case DictItem(d) => messages := messages + [d];
      case MessageItem(m) => messages := messages + [ToDict(m)];
      case OtherItem =>
    }
    assert items[..|items|] == items;
    r := InsertSystem(messages, system);
  }

  /** The system-text step of `process_msg`, on the collected entries. */
  method InsertSystem(messages: seq<Dict<string>>, system: string) returns (r: Result<seq<Dict<string>>>)
    ensures r == WithSystem(messages, system)
  {
    if messages == [] {
      return Err(IndexError);
    }
    var content := Get(messages[0], "content");
    if content.None? {
      return Err(KeyError("content"));
    }
    if Contains(content.value, system) {
      return Ok(messages);
    }
    var role := Get(messages[0], "role");
    if role.None? {
      return Err(KeyError("role"));
    }
    var result := messages;
    if role.value != "system" {
      result := [SystemEntry(system)] + result;
    } else {
      result := result[0 := SystemEntry(content.value + system)];
      assert result == [SystemEntry(content.value + system)] + messages[1..];
    }
    return Ok(result);
  }

  // ---------------------------------------------------------------------
  // _parse_recommend_tools
  // ---------------------------------------------------------------------

  /**
   * The catalog of the recommended tools that `moduleName` offers, each with
   * its schema; an unknown module raises KeyError.
   */
  method ParseRecommendTools<S>(available: Dict<Dict<S>>, moduleName: string, recommend: seq<string>)
    returns (r: Result<Dict<S>>)
    ensures r.Err? <==> moduleName !in Keys(available)
    ensures r.Err? ==> r.error == KeyError(moduleName)
    ensures r.Ok? ==>
      var catalog := Get(available, moduleName).value;
      UniqueKeys(r.value)
      && (forall k :: k in Keys(r.value) <==> k in recommend && k in Keys(catalog))
      && (forall k :: k in Keys(r.value) ==> Get(r.value, k) == Get(catalog, k))
  {
    var tools := Get(available, moduleName);
    if tools.None? {
      return Err(KeyError(moduleName));
    }
    var catalog := tools.value;
    var valid: seq<string> := [];
    for i := 0 to |recommend|
      invariant forall k :: k in valid <==> k in recommend[..i] && k in Keys(catalog)
    {
      assert recommend[..i + 1] == recommend[..i] + [recommend[i]];
      if recommend[i] in Keys(catalog) {
        valid := valid + [recommend[i]];
      }
    }
    assert recommend[..|recommend|] == recommend;
    var result: Dict<S> := [];
    for i := 0 to |valid|
      invariant UniqueKeys(result)
      invariant forall k :: k in Keys(result) <==> k in valid[..i]
      invariant forall k :: k in Keys(result) ==> Get(result, k) == Get(catalog, k)
    {
      assert valid[..i + 1] == valid[..i] + [valid[i]];
      result := Set(result, valid[i], Get(catalog, valid[i]).value);
    }
    assert valid[..|valid|] == valid;
    return Ok(result);
  }

  // ---------------------------------------------------------------------
  // parse_function_name: the expression \bdef\s+([a-zA-Z_]\w*)\s*\(
  // ---------------------------------------------------------------------

  /** A Python identifier as the expression captures it. */
  predicate IsIdentifier(name: string) {
    |name| > 0 && (IsAsciiLetter(name[0]) || name[0] == '_')
    && forall i :: 0 <= i < |name| ==> IsWordChar(name[i])
  }

  /** The end of the run of whitespace starting at `j`. */
  function SkipSpaces(s: string, j: nat): (k: nat)
    requires j <= |s|
    ensures j <= k <= |s| && (k == |s| || !IsSpace(s[k]))
    ensures forall t :: j <= t < k ==> IsSpace(s[t])
    decreases |s| - j
  {
    if j < |s| && IsSpace(s[j]) then SkipSpaces(s, j + 1) else j
  }

  /** The end of the run of word characters starting at `j`. */
  function SkipWord(s: string, j: nat): (k: nat)
    requires j <= |s|
    ensures j <= k <= |s| && (k == |s| || !IsWordChar(s[k]))
    ensures forall t :: j <= t < k ==> IsWordChar(s[t])
    decreases |s| - j
  {
    if j < |s| && IsWordChar(s[j]) then SkipWord(s, j + 1) else j
  }

  /**
   * The name the expression captures when its match starts at `i`: a word
   * boundary, "def", whitespace, an identifier, optional whitespace, "(".
   * Greedy matching leaves no choice, so the match at `i` is unique.
   */
  function MatchAt(s: string, i: nat): (r: Option<string>)
    requires i <= |s|
    ensures r.Some? ==> IsIdentifier(r.value)
  {
    if (i > 0 && IsWordChar(s[i - 1])) || !StartsWith(s[i..], "def") then None
    else
      var k := SkipSpaces(s, i + 3);
      if k == i + 3 || k == |s| || !(IsAsciiLetter(s[k]) || s[k] == '_') then None
      else
        var e := SkipWord(s, k);
        var m := SkipSpaces(s, e);
        if m < |s| && s[m] == '(' then Some(s[k..e]) else None
  }

  /** The leftmost match at or after `i`, as `re.search` finds it. */
  function SearchFrom(s: string, i: nat): (r: Option<string>)
    requires i <= |s|
    ensures r.Some? ==> IsIdentifier(r.value)
    decreases |s| - i
  {
    if MatchAt(s, i).Some? then MatchAt(s, i)
    else if i == |s| then None
    else SearchFrom(s, i + 1)
  }

  /** The search finds nothing only when no position matches, and otherwise the leftmost match. */
  lemma {:induction false} SearchFromIsLeftmost(s: string, i: nat)
    requires i <= |s|
    ensures SearchFrom(s, i).None? <==> forall j :: i <= j <= |s| ==> MatchAt(s, j).None?
    ensures SearchFrom(s, i).Some? ==>
      exists j :: i <= j <= |s| && MatchAt(s, j) == SearchFrom(s, i)
                  && forall t :: i <= t < j ==> MatchAt(s, t).None?
    decreases |s| - i
  {
    var here := MatchAt(s, i);
    if here.Some? {
      assert here == SearchFrom(s, i);
    } else if i == |s| {
      assert SearchFrom(s, i).None?;
    } else {
      assert SearchFrom(s, i) == SearchFrom(s, i + 1);
      SearchFromIsLeftmost(s, i + 1);
      if SearchFrom(s, i + 1).Some? {
        var j :| i + 1 <= j <= |s| && MatchAt(s, j) == SearchFrom(s, i + 1)
                 && forall t :: i + 1 <= t < j ==> MatchAt(s, t).None?;
        assert forall t :: i <= t < j ==> MatchAt(s, t).None?;
      }
    }
  }

  /** `parse_function_name`: the name of the first `def name(` in the code, if any. */
  function ParseFunctionName(code: string): (r: Option<string>)
    ensures r.Some? ==> IsIdentifier(r.value)
  {
    SearchFrom(code, 0)
  }

  /** The name found is the one captured by the leftmost match; none is found only when nothing matches. */
  lemma ParseFunctionNameIsLeftmost(code: string)
    ensures ParseFunctionName(code).None? <==> forall j :: 0 <= j <= |code| ==> MatchAt(code, j).None?
    ensures ParseFunctionName(code).Some? ==>
      exists j :: 0 <= j <= |code| && MatchAt(code, j) == ParseFunctionName(code)
                  && forall t :: 0 <= t < j ==> MatchAt(code, t).None?
  {
    SearchFromIsLeftmost(code, 0);
  }

  /** A definition at the start of the code is found under its own name. */
  lemma ParseFunctionNameOfDef(name: string, rest: string)
    requires IsIdentifier(name)
    ensures ParseFunctionName("def " + name + "(" + rest) == Some(name)
  {
    var s := "def " + name + "(" + rest;
    assert s[..3] == "def";
    assert IsSpace(s[3]) && !IsSpace(s[4]) && s[4] == name[0];
    var k := SkipSpaces(s, 3);
    assert k == 4;
    assert forall t :: 4 <= t < 4 + |name| ==> s[t] == name[t - 4];
    assert s[4 + |name|] == '(';
    var e := SkipWord(s, 4);
    assert e == 4 + |name|;
    assert SkipSpaces(s, e) == e;
    assert s[4..e] == name;
  }

  /** Without the letter 'd' no match can start at `j`. */
  lemma NoDefAt(code: string, j: nat)
    requires 'd' !in code && j <= |code|
    ensures MatchAt(code, j).None?
  {
    if j + 3 <= |code| {
      assert code[j] in code;
      assert code[j..][..3][0] == code[j];
    }
    assert !StartsWith(code[j..], "def");
  }

  /** Code without the letter 'd' has no definition to find. */
  lemma NoDefNoName(code: string)
    requires 'd' !in code
    ensures ParseFunctionName(code) == None
  {
    forall j | 0 <= j <= |code|
      ensures MatchAt(code, j).None?
    {
      NoDefAt(code, j);
    }
    ParseFunctionNameIsLeftmost(code);
  }

  // ---------------------------------------------------------------------
  // MakeTools
  // ---------------------------------------------------------------------

  /** The user entry added after an answer without a function name. */
  const NotFoundNote: Dict<string> := UserEntry("We need a general function in above code,but not found function.")

  const MaxTries: nat := 3

  /** `<workspace>/<name>.py`. */
  function SavedPath(workspace: string, name: string): (p: string)
    ensures StartsWith(p, workspace + "/") && |p| >= 3 && p[|p| - 3..] == ".py"
  {
    workspace + "/" + name + ".py"
  }

  /** The request for one tool; a missing description prints as "None". */
  function CodePrompt(code: string, codeDesc: Option<string>): (r: string)
    ensures StartsWith(r, "The following code is about ")
    ensures |code| <= |r| && r[|r| - |code|..] == code
    ensures codeDesc.Some? ==> Contains(r, codeDesc.value)
  {
    var desc := if codeDesc.None? then "None" else codeDesc.value;
    var head := "The following code is about ";
    var tail := ", convert it to be a General Function, " + code;
    ContainsInfix(head, desc, tail);
    assert (head + desc + tail)[..|head|] == head;
    head + desc + tail
  }

  /** `n` not-found notes. */
  function Notes(n: nat): (r: seq<Dict<string>>)
    ensures |r| == n && forall j :: 0 <= j < n ==> r[j] == NotFoundNote
  {
    seq(n, _ => NotFoundNote)
  }

  /** The outcome of the asking loop: the grown context, the last answer and the number of calls. */
  datatype Attempts = Attempts(context: seq<Dict<string>>, code: string, calls: nat)

  /**
   * Asking up to `left` times: an answer with a function name ends the
   * loop; each answer without one adds a not-found note to the context.
   */
  function MakeAttempts(llm: seq<Dict<string>> -> string, ctx: seq<Dict<string>>, left: nat): (a: Attempts)
    requires left >= 1
    ensures 1 <= a.calls <= left
    ensures ParseFunctionName(llm(ctx)).Some? ==> a == Attempts(ctx, llm(ctx), 1)
    ensures ParseFunctionName(a.code).Some? ==> |a.context| == |ctx| + a.calls - 1
    ensures ParseFunctionName(a.code).None? ==> a.calls == left && |a.context| == |ctx| + left
    ensures |ctx| <= |a.context| && a.context[..|ctx|] == ctx
    ensures forall j :: |ctx| <= j < |a.context| ==> a.context[j] == NotFoundNote
    decreases left
  {
    var code := llm(ctx);
    if ParseFunctionName(code).Some? then Attempts(ctx, code, 1)
    else if left == 1 then Attempts(ctx + [NotFoundNote], code, 1)
    else
      var a := MakeAttempts(llm, ctx + [NotFoundNote], left - 1);
      assert a.context[..|ctx|] == a.context[..|ctx| + 1][..|ctx|];
      Attempts(a.context, a.code, a.calls + 1)
  }

  /** One note followed by `j` more is `j + 1` notes. */
  lemma NotesShift(ctx: seq<Dict<string>>, j: nat)
    ensures ctx + [NotFoundNote] + Notes(j) == ctx + Notes(j + 1)
  {
    assert [NotFoundNote] + Notes(j) == Notes(j + 1);
  }

  /**
   * Call `j` of the loop is asked on the context grown by `j` notes; every
   * call before the last answered without a function name, and the answer
   * kept is the last one's.
   */
  lemma {:induction false} MakeAttemptsHistory(llm: seq<Dict<string>> -> string, ctx: seq<Dict<string>>, left: nat)
    requires left >= 1
    ensures var a := MakeAttempts(llm, ctx, left);
      a.code == llm(ctx + Notes(a.calls - 1))
      && (forall j :: 0 <= j < a.calls - 1 ==> ParseFunctionName(llm(ctx + Notes(j))).None?)
      && a.context == ctx + Notes(if ParseFunctionName(a.code).Some? then a.calls - 1 else a.calls)
    decreases left
  {
    MakeAttemptsContext(llm, ctx, left);
    assert ctx + Notes(0) == ctx;
    if ParseFunctionName(llm(ctx)).Some? || left == 1 {
      assert MakeAttempts(llm, ctx, left).calls == 1 && MakeAttempts(llm, ctx, left).code == llm(ctx);
    } else {
      var a := MakeAttempts(llm, ctx + [NotFoundNote], left - 1);
      assert MakeAttempts(llm, ctx, left) == Attempts(a.context, a.code, a.calls + 1);
      MakeAttemptsHistory(llm, ctx + [NotFoundNote], left - 1);
      NotesShift(ctx, a.calls - 1);
      assert a.code == llm(ctx + Notes(a.calls));
      forall j | 0 <= j < a.calls
        ensures ParseFunctionName(llm(ctx + Notes(j))).None?
      {
        if j > 0 {
          NotesShift(ctx, j - 1);
        }
      }
    }
  }

  /** The context the loop leaves is the start followed by one note per failed answer. */
  lemma MakeAttemptsContext(llm: seq<Dict<string>> -> string, ctx: seq<Dict<string>>, left: nat)
    requires left >= 1
    ensures var a := MakeAttempts(llm, ctx, left);
      a.context == ctx + Notes(if ParseFunctionName(a.code).Some? then a.calls - 1 else a.calls)
  {
    var a := MakeAttempts(llm, ctx, left);
    var n := |a.context| - |ctx|;
    assert a.context == a.context[..|ctx|] + a.context[|ctx|..];
    assert a.context[|ctx|..] == Notes(n);
  }

  /** When the first answer fails and the second succeeds, exactly one note is added. */
  lemma SecondAttemptSucceeds(llm: seq<Dict<string>> -> string, ctx: seq<Dict<string>>)
    requires ParseFunctionName(llm(ctx)).None?
    requires ParseFunctionName(llm(ctx + [NotFoundNote])).Some?
    ensures MakeAttempts(llm, ctx, MaxTries) == Attempts(ctx + [NotFoundNote], llm(ctx + [NotFoundNote]), 2)
  {
  }

  /** The context the request is added to: a fresh prompt when empty, else just its last entry. */
  function Seeded(ctx: seq<Dict<string>>, prompt: string, system: string): (r: seq<Dict<string>>)
    ensures |r| > 0 && r[|r| - 1] == UserEntry(prompt)
    ensures ctx != [] ==> r == ctx + [UserEntry(prompt)]
  {
    if ctx != [] then ctx + [UserEntry(prompt)]
    else if Contains(prompt, system) then [UserEntry(prompt)]
    else [SystemEntry(system), UserEntry(prompt)]
  }

  /** An empty context is seeded with the normalised request, as `process_msg` gives it. */
  lemma SeededFresh(prompt: string, system: string)
    ensures Seeded([], prompt, system) == TextPrompt(prompt, system)
  {
  }

  /** One call of `run`: the request joins the context, then the asking loop runs. */
  function Round(llm: seq<Dict<string>> -> string, ctx: seq<Dict<string>>, prompt: string, system: string): Attempts {
    MakeAttempts(llm, Seeded(ctx, prompt, system), MaxTries)
  }

  /** The outcome of `run` under its retry policy: the final context, and the saved code unless every call failed. */
  datatype Outcome = Outcome(context: seq<Dict<string>>, code: Option<string>)

  /**
   * Up to `left` calls of `run`: a call whose last answer names a function
   * ends the retries; any other call is repeated on the grown context.
   */
  function Retry(llm: seq<Dict<string>> -> string, ctx: seq<Dict<string>>, prompt: string, system: string, left: nat)
    : (o: Outcome)
    requires left >= 1
    ensures o.code.Some? ==> ParseFunctionName(o.code.value).Some?
    decreases left
  {
    var a := Round(llm, ctx, prompt, system);
    if ParseFunctionName(a.code).Some? then Outcome(a.context, Some(a.code))
    else if left == 1 then Outcome(a.context, None)
    else Retry(llm, a.context, prompt, system, left - 1)
  }

  /** Call `run` on `ctx` ends with an answer that names a function. */
  predicate RoundNamed(llm: seq<Dict<string>> -> string, ctx: seq<Dict<string>>, prompt: string, system: string) {
    ParseFunctionName(Round(llm, ctx, prompt, system).code).Some?
  }

  /**
   * Three calls of `run`, each on the context the previous one left: the
   * retries give up exactly when all three end without a function name,
   * and otherwise return the answer of the first call that has one.
   */
  lemma RetryOfThree(llm: seq<Dict<string>> -> string, ctx: seq<Dict<string>>, prompt: string, system: string)
    ensures
      var c1 := Round(llm, ctx, prompt, system).context;
      var c2 := Round(llm, c1, prompt, system).context;
      var o := Retry(llm, ctx, prompt, system, 3);
      (o.code.None? <==> !RoundNamed(llm, ctx, prompt, system) && !RoundNamed(llm, c1, prompt, system)
                         && !RoundNamed(llm, c2, prompt, system))
      && (RoundNamed(llm, ctx, prompt, system) ==> o.code == Some(Round(llm, ctx, prompt, system).code))
      && (!RoundNamed(llm, ctx, prompt, system) && RoundNamed(llm, c1, prompt, system) ==>
            o.code == Some(Round(llm, c1, prompt, system).code))
      && (!RoundNamed(llm, ctx, prompt, system) && !RoundNamed(llm, c1, prompt, system) ==>
            o.code == (if RoundNamed(llm, c2, prompt, system) then Some(Round(llm, c2, prompt, system).code) else None)
            && o.context == Round(llm, c2, prompt, system).context)
  {
  }

  class MakeTools {
    var context: seq<Dict<string>>
    const workspace: string
    /** The files written so far, by path. */
    var files: map<string, string>
    const systemMsg: string

    /** A missing or empty workspace falls back to the default tools directory. */
    constructor (workspace: Option<string>, defaultWorkspace: string)
      ensures this.workspace == (if workspace.None? || workspace.value == "" then defaultWorkspace else workspace.value)
      ensures context == [] && files == map[] && systemMsg == MakeToolsSystemMsg
    {
      this.workspace := if workspace.None? || workspace.value == "" then defaultWorkspace else workspace.value;
      context := [];
      files := map[];
      systemMsg := MakeToolsSystemMsg;
    }

    /** `save`: ValueError without a function name, else the code is written to `<name>.py`. */
    method Save(code: string) returns (r: Result<string>)
      modifies this`files
      ensures ParseFunctionName(code).None? ==>
        r == Err(ValueError("No function name found in " + code)) && files == old(files)
      ensures ParseFunctionName(code).Some? ==>
        var path := SavedPath(workspace, ParseFunctionName(code).value);
        r == Ok(path) && files == old(files)[path := code]
    {
      var name := ParseFunctionName(code);
      if name.None? {
        return Err(ValueError("No function name found in " + code));
      }
      var path := SavedPath(workspace, name.value);
      files := files[path := code];
      return Ok(path);
    }

    /** The request joins the context: as a fresh prompt when the context is empty, else its last entry. */
    method Seed(prompt: string)
      modifies this`context
      ensures context == Seeded(old(context), prompt, systemMsg)
    {
      var processed := ProcessMsg(Single(TextItem(prompt)), None, systemMsg);
      assert processed == Ok(TextPrompt(prompt, systemMsg));
      SeededFresh(prompt, systemMsg);
      if context == [] {
        context := processed.value;
      } else {
        context := context + [processed.value[|processed.value| - 1]];
      }
    }

    /** The asking loop: at most three calls, a note added after each answer without a name. */
    method AskUntilNamed(llm: seq<Dict<string>> -> string) returns (answer: string)
      modifies this`context
      ensures context == MakeAttempts(llm, old(context), MaxTries).context
      ensures answer == MakeAttempts(llm, old(context), MaxTries).code
    {
      ghost var goal := MakeAttempts(llm, context, MaxTries);
      var tries := 0;
      while true
        invariant 0 <= tries < MaxTries
        invariant MakeAttempts(llm, context, MaxTries - tries).context == goal.context
        invariant MakeAttempts(llm, context, MaxTries - tries).code == goal.code
        decreases MaxTries - tries
      {
        ghost var before := context;
        answer := llm(context);
        var name := ParseFunctionName(answer);
        tries := tries + 1;
        if name.None? {
          context := context + [NotFoundNote];
        }
        if name.Some? || tries >= MaxTries {
          assert MakeAttempts(llm, before, MaxTries - tries + 1) == Attempts(context, answer, 1);
          break;
        }
      }
    }

    /**
     * One call of `run` before retrying: the request joins the context,
     * the model is asked until it answers with a named function (at most
     * three times), and the last answer is saved.
     */
    method RunOnce(code: string, codeDesc: Option<string>, llm: seq<Dict<string>> -> string)
      returns (r: Result<string>)
      modifies this`context, this`files
      ensures
        var a := MakeAttempts(llm, Seeded(old(context), CodePrompt(code, codeDesc), systemMsg), MaxTries);
        context == a.context
        && (ParseFunctionName(a.code).Some? ==>
              r == Ok(a.code) && files == old(files)[SavedPath(workspace, ParseFunctionName(a.code).value) := a.code])
        && (ParseFunctionName(a.code).None? ==>
              r == Err(ValueError("No function name found in " + a.code)) && files == old(files))
      ensures r.Ok? ==> ParseFunctionName(r.value).Some?
    {
      Seed(CodePrompt(code, codeDesc));
      var answer := AskUntilNamed(llm);
      var saved := Save(answer);
      if saved.Err? {
        return Err(saved.error);
      }
      return Ok(answer);
    }

    /**
     * `run` under its retry policy: a call whose answer has no function
     * name raises ValueError and is retried on the grown context; after
     * three failed calls RetryError escapes.
     */
    method Run(code: string, codeDesc: Option<string>, llm: seq<Dict<string>> -> string)
      returns (r: Result<string>)
      modifies this`context, this`files
      ensures
        var o := Retry(llm, old(context), CodePrompt(code, codeDesc), systemMsg, 3);
        context == o.context
        && (o.code.Some? ==>
              r == Ok(o.code.value) && files == old(files)[SavedPath(workspace, ParseFunctionName(o.code.value).value) := o.code.value])
        && (o.code.None? ==> r == Err(RetryError) && files == old(files))
    {
      var attempt := 0;
      ghost var prompt := CodePrompt(code, codeDesc);
      ghost var goal := Retry(llm, context, prompt, systemMsg, 3);
      while attempt < 3
        invariant 0 <= attempt <= 3 && files == old(files)
        invariant attempt < 3 ==> Retry(llm, context, prompt, systemMsg, 3 - attempt) == goal
        invariant attempt == 3 ==> goal == Outcome(context, None)
      {
        ghost var a := Round(llm, context, prompt, systemMsg);
        assert Retry(llm, context, prompt, systemMsg, 3 - attempt)
               == if ParseFunctionName(a.code).Some? then Outcome(a.context, Some(a.code))
                  else if attempt == 2 then Outcome(a.context, None)
                  else Retry(llm, a.context, prompt, systemMsg, 2 - attempt);
        r := RunOnce(code, codeDesc, llm);
        assert context == a.context;
        if r.Ok? {
          assert ParseFunctionName(a.code).Some? && r.value == a.code;
          return;
        }
        assert ParseFunctionName(a.code).None?;
        assert attempt < 2 ==> Retry(llm, context, prompt, systemMsg, 2 - attempt) == goal;
        attempt := attempt + 1;
      }
      return Err(RetryError);
    }
  }
}
