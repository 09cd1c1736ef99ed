/**
 * Provider dispatch of `metagpt/provider/bedrock/bedrock_provider.py`: the
 * model id's family (the text before its first '.') selects one provider
 * from a fixed table, and each provider has its own request-body shape,
 * max-tokens field and place of the completion text in a response.
 */
module Bedrock {
  import opened Base
  import opened Strings
  import opened Dicts
  import opened Json

  datatype ProviderKind = Mistral | Meta | Ai21 | Cohere | Anthropic | Amazon

  /** `PROVIDERS`: one provider per model family. */
  const Providers: Dict<ProviderKind> :=
    [("mistral", Mistral), ("meta", Meta), ("ai21", Ai21), ("cohere", Cohere), ("anthropic", Anthropic), ("amazon", Amazon)]

  const AnthropicVersion: string := "bedrock-2023-05-31"

  /** `model_id.split(".")[0]`. */
  function ModelName(modelId: string): (name: string)
    ensures '.' !in name && StartsWith(modelId, name)
    ensures '.' !in modelId ==> name == modelId
  {
    BeforeFirst(modelId, '.')
  }

  /** The family is everything before the first '.'. */
  lemma ModelNameOfId(family: string, rest: string)
    requires '.' !in family
    ensures ModelName(family + "." + rest) == family
  {
    BeforeFirstOfHead(family, '.', rest);
  }

  /** `get_provider`: the provider of the id's family, or KeyError "<family> is not supported!". */
  function GetProvider(modelId: string): (r: Result<ProviderKind>)
    ensures r.Ok? <==> ModelName(modelId) in Keys(Providers)
    ensures r.Ok? ==> Get(Providers, ModelName(modelId)) == Some(r.value)
    ensures r.Err? ==> r.error == KeyError(ModelName(modelId) + " is not supported!")
  {
    var name := ModelName(modelId);
    match Get(Providers, name)
    case None => Err(KeyError(name + " is not supported!"))
    case Some(p) => Ok(p)
  }

  /** No provider serves two families. */
  lemma ProvidersValuesDistinct()
    ensures ValuesDistinct(Providers)
  {
  }

  /** The table has no "openai" family. */
  lemma OpenAiNotProvided()
    ensures "openai" !in Keys(Providers)
  {
    forall i | 0 <= i < |Providers|
      ensures Providers[i].0 != "openai"
    {
      assert Providers[i].0[0] != 'o';
    }
    GetAbsent(Providers, "openai");
  }

  /** Each family has its own provider. */
  lemma ProvidersDistinct(a: string, b: string)
    requires GetProvider(a).Ok? && GetProvider(b).Ok?
    ensures GetProvider(a) == GetProvider(b) <==> ModelName(a) == ModelName(b)
  {
    if GetProvider(a) == GetProvider(b) {
      ProvidersValuesDistinct();
      GetInjective(Providers, ModelName(a), ModelName(b));
    }
  }

  /** Every Anthropic model id selects the Anthropic provider. */
  lemma AnthropicIdSelectsAnthropic(rest: string)
    ensures GetProvider("anthropic." + rest) == Ok(Anthropic)
  {
    assert "anthropic." + rest == "anthropic" + "." + rest;
    ModelNameOfId("anthropic", rest);
    assert Get(Providers, "anthropic") == Some(Anthropic);
  }

  /** Any id whose family is missing from the table raises KeyError naming that family. */
  lemma MissingFamilyRaises(family: string, rest: string)
    requires '.' !in family && family !in Keys(Providers)
    ensures GetProvider(family + "." + rest) == Err(KeyError(family + " is not supported!"))
  {
    ModelNameOfId(family, rest);
  }

  /**
   * `max_tokens_field_name`: set by the Meta, Ai21 and Amazon providers;
   * the others inherit the base provider's field, outside this model.
   */
  function MaxTokensFieldName(p: ProviderKind): (r: Option<string>)
    ensures r.Some? <==> p in {Meta, Ai21, Amazon}
  {
    match p
    case Meta => Some("max_gen_len")
    case Ai21 => Some("maxTokens")
    case Amazon => Some("maxTokenCount")
    case _ => None
  }

  function MessagesJson(messages: seq<Dict<string>>): Json {
    JArr(seq(|messages|, i requires 0 <= i < |messages| =>
      JObj(seq(|messages[i]|, k requires 0 <= k < |messages[i]| => (messages[i][k].0, JStr(messages[i][k].1))))))
  }

  /**
   * `get_request_body` as the JSON value it dumps. Anthropic: the messages
   * and the API version, then the generation arguments, which win on a
   * shared key. Amazon: the prompt text and the arguments as the
   * generation config. The other providers use the base provider's body,
   * outside this model (None).
   */
  function GetRequestBody(p: ProviderKind, messages: seq<Dict<string>>, generateKwargs: Dict<Json>,
                          messagesToPrompt: seq<Dict<string>> -> string): (r: Option<Json>)
    ensures r.Some? <==> p in {Anthropic, Amazon}
    ensures r.Some? ==> r.value.JObj?
    ensures p == Anthropic && UniqueKeys(generateKwargs) ==>
      |Keys(r.value.fields)| >= 2 && Keys(r.value.fields)[..2] == ["messages", "anthropic_version"]
      && Get(r.value.fields, "anthropic_version") ==
           (if "anthropic_version" in Keys(generateKwargs) then Get(generateKwargs, "anthropic_version")
            else Some(JStr(AnthropicVersion)))
      && ("messages" !in Keys(generateKwargs) ==> Get(r.value.fields, "messages") == Some(MessagesJson(messages)))
      && (forall k :: k in Keys(generateKwargs) ==> Get(r.value.fields, k) == Get(generateKwargs, k))
      && (forall k :: k in Keys(r.value.fields) <==> k in ["messages", "anthropic_version"] || k in Keys(generateKwargs))
    ensures p == Amazon ==>
      r.value.fields == [("inputText", JStr(messagesToPrompt(messages))), ("textGenerationConfig", JObj(generateKwargs))]
  {
    match p
    case Anthropic =>
      var base := [("messages", MessagesJson(messages)), ("anthropic_version", JStr(AnthropicVersion))];
      assert Keys(base) == ["messages", "anthropic_version"];
      Some(JObj(Update(base, generateKwargs)))
    case Amazon =>
      Some(JObj([("inputText", JStr(messagesToPrompt(messages))), ("textGenerationConfig", JObj(generateKwargs))]))
    case _ => None
  }

  /** Without generation arguments the Anthropic body is exactly the messages and the API version. */
  lemma AnthropicBodyWithoutArguments(messages: seq<Dict<string>>, messagesToPrompt: seq<Dict<string>> -> string)
    ensures GetRequestBody(Anthropic, messages, [], messagesToPrompt)
            == Some(JObj([("messages", MessagesJson(messages)), ("anthropic_version", JStr(AnthropicVersion))]))
  {
  }

  /** A generation argument named like a base field replaces it in place: the keys keep their order. */
  lemma AnthropicArgumentOverrides(messages: seq<Dict<string>>, v: Json, messagesToPrompt: seq<Dict<string>> -> string)
    ensures GetRequestBody(Anthropic, messages, [("anthropic_version", v)], messagesToPrompt)
            == Some(JObj([("messages", MessagesJson(messages)), ("anthropic_version", v)]))
  {
    var base := [("messages", MessagesJson(messages)), ("anthropic_version", JStr(AnthropicVersion))];
    assert "messages"[0] != "anthropic_version"[0];
    assert base[1..] == [("anthropic_version", JStr(AnthropicVersion))];
    assert Set(base[1..], "anthropic_version", v) == [("anthropic_version", v)];
    assert Set(base, "anthropic_version", v) == [("messages", MessagesJson(messages)), ("anthropic_version", v)];
    var o := [("anthropic_version", v)];
    assert o[1..] == [];
    assert Update(base, o) == Update(Set(base, "anthropic_version", v), o[1..]);
  }

  // ---------------------------------------------------------------------
  // Completion text
  // ---------------------------------------------------------------------

  /** One subscript: a dict key, or a list position. */
  datatype Step = Key(k: string) | Pos(i: nat)

  /** `j[step]` with Python's errors: a missing key, a short list, or a value that cannot be subscripted. */
  function Subscript(j: Json, step: Step): (r: Result<Json>)
    ensures j.JObj? && step.Key? && step.k !in Keys(j.fields) ==> r == Err(KeyError(step.k))
    ensures j.JObj? && step.Key? && step.k in Keys(j.fields) ==> r == Ok(Get(j.fields, step.k).value)
    ensures j.JArr? && step.Pos? ==> r == (if step.i < |j.items| then Ok(j.items[step.i]) else Err(IndexError))
  {
    match step
    case Key(k) =>
      if j.JObj? then
        match Get(j.fields, k)
        case None => Err(KeyError(k))
        case Some(v) => Ok(v)
      else Err(TypeError("subscript by a string"))
    case Pos(i) =>
      if j.JArr? then (if i < |j.items| then Ok(j.items[i]) else Err(IndexError))
      else if j.JStr? then (if i < |j.s| then Ok(JStr([j.s[i]])) else Err(IndexError))
      else if j.JObj? then Err(KeyError(NatToDecimal(i)))
      else Err(TypeError("subscript by an integer"))
  }

  /** Subscripts applied left to right; the first error stops the walk. */
  function Walk(j: Json, path: seq<Step>): Result<Json>
    decreases |path|
  {
    if path == [] then Ok(j)
    else match Subscript(j, path[0])
      case Err(e) => Err(e)
      case Ok(v) => Walk(v, path[1..])
  }

  /** Where each provider's response keeps the completion text. */
  function CompletionPath(p: ProviderKind): (path: seq<Step>)
    ensures |path| > 0 && path[0].Key?
  {
    match p
    case Mistral => [Key("outputs"), Pos(0), Key("text")]
    case Anthropic => [Key("content"), Pos(0), Key("text")]
    case Cohere => [Key("generations"), Pos(0), Key("text")]
    case Meta => [Key("generation")]
    case Ai21 => [Key("completions"), Pos(0), Key("data"), Key("text")]
    case Amazon => [Key("results"), Pos(0), Key("outputText")]
  }

  /**
   * `_get_completion_from_dict`: the value at the provider's path; Amazon
   * strips surrounding whitespace from it (a non-string has no `strip`).
   */
  function GetCompletion(p: ProviderKind, rsp: Json): (r: Result<Json>)
    ensures p != Amazon ==> r == Walk(rsp, CompletionPath(p))
    ensures p == Amazon && Walk(rsp, CompletionPath(p)).Ok? && Walk(rsp, CompletionPath(p)).value.JStr? ==>
      r == Ok(JStr(Strip(Walk(rsp, CompletionPath(p)).value.s)))
    ensures p == Amazon && Walk(rsp, CompletionPath(p)).Err? ==> r == Walk(rsp, CompletionPath(p))
  {
    var v := Walk(rsp, CompletionPath(p));
    if p != Amazon || v.Err? then v
    else if v.value.JStr? then Ok(JStr(Strip(v.value.s)))
    else Err(AttributeError("strip"))
  }

  /** The smallest response holding `leaf` at `path`: one-key objects and one-element lists. */
  function Canonical(path: seq<Step>, leaf: Json): Json
    decreases |path|
  {
    if path == [] then leaf
    else
      var inner := Canonical(path[1..], leaf);
      match path[0]
      case Key(k) => JObj([(k, inner)])
      case Pos(i) => JArr(seq(i + 1, _ => inner))
  }

  /** Walking a path through the response built along it reaches the leaf. */
  lemma {:induction false} WalkCanonical(path: seq<Step>, leaf: Json)
    ensures Walk(Canonical(path, leaf), path) == Ok(leaf)
    decreases |path|
  {
    if path != [] {
      WalkCanonical(path[1..], leaf);
      var inner := Canonical(path[1..], leaf);
      match path[0]
      case Key(k) =>
        assert Get([(k, inner)], k) == Some(inner);
      case Pos(i) =>
    }
  }

  /** A response of the documented shape yields its text, stripped for Amazon. */
  lemma CompletionOfCanonical(p: ProviderKind, text: string)
    ensures GetCompletion(p, Canonical(CompletionPath(p), JStr(text))) ==
            Ok(JStr(if p == Amazon then Strip(text) else text))
  {
    WalkCanonical(CompletionPath(p), JStr(text));
  }

  /** An empty response object lacks the first key of every provider's path. */
  lemma EmptyResponseRaisesKeyError(p: ProviderKind)
    ensures GetCompletion(p, JObj([])) == Err(KeyError(CompletionPath(p)[0].k))
  {
  }
}
