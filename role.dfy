/**
 * The role state machine of `metagpt/roles/role.py`: an ordered list of
 * actions whose index is the role's state, a private append-only memory,
 * and one observe -> think -> act -> publish turn per `run`.
 *
 * The language model, the actions and the memory's `remember` are oracles
 * passed in as functions; the environment is reduced to the shared message
 * list the role reads and appends to.
 */
module Roles {
  import opened Base
  import opened Strings
  import opened Dicts
  import opened Schema

  // ---------------------------------------------------------------------
  // Actions and settings
  // ---------------------------------------------------------------------

  /** An action instance; `kind` is its class as `cause_by` records it. */
  datatype Action = Action(kind: string, name: string, prefix: string, profile: string)

  /** An entry given to `_init_actions`: an instance with its `str()` text, or a class. */
  datatype ActionRef = Instance(action: Action, text: string) | ActionClass(kind: string)

  /** `str(action)`. */
  function RefText(r: ActionRef): string {
    match r
    case Instance(_, text) => text
    case ActionClass(kind) => "<class '" + kind + "'>"
  }

  function RefKind(r: ActionRef): string {
    match r
    case Instance(a, _) => a.kind
    case ActionClass(kind) => kind
  }

  /** A class is instantiated with an empty name; either way the prefix and profile are set. */
  function Bind(r: ActionRef, prefix: string, profile: string): (a: Action)
    ensures a.kind == RefKind(r) && a.prefix == prefix && a.profile == profile
    ensures r.ActionClass? ==> a.name == ""
    ensures r.Instance? ==> a.name == r.action.name
  {
    match r
    case Instance(a, _) => a.(prefix := prefix, profile := profile)
    case ActionClass(kind) => Action(kind, "", prefix, profile)
  }

  /** The state name listed for the action at position `i`: "<i>. <action>". */
  function StateLabel(i: nat, r: ActionRef): string {
    NatToDecimal(i) + ". " + RefText(r)
  }

  /** A state name opens with its index, which reads back as that index. */
  lemma StateLabelNumbers(i: nat, r: ActionRef)
    ensures StartsWith(StateLabel(i, r), NatToDecimal(i) + ". ")
    ensures ParseDecimal(NatToDecimal(i)) == i
  {
    ParseDecimalOfNatToDecimal(i);
    var s := StateLabel(i, r);
    assert s[..|NatToDecimal(i) + ". "|] == NatToDecimal(i) + ". ";
  }

  /** Every entry bound in order, as `_init_actions` appends them. */
  function BoundAll(refs: seq<ActionRef>, prefix: string, profile: string): (r: seq<Action>)
    ensures |r| == |refs|
    decreases |refs|
  {
    if refs == [] then []
    else BoundAll(refs[..|refs| - 1], prefix, profile) + [Bind(refs[|refs| - 1], prefix, profile)]
  }

  /** The state names of the entries in order. */
  function Labels(refs: seq<ActionRef>): (r: seq<string>)
    ensures |r| == |refs|
    decreases |refs|
  {
    if refs == [] then [] else Labels(refs[..|refs| - 1]) + [StateLabel(|refs| - 1, refs[|refs| - 1])]
  }

  /** Action `i` is entry `i` bound to the role. */
  lemma {:induction false} BoundAt(refs: seq<ActionRef>, prefix: string, profile: string, i: nat)
    requires i < |refs|
    ensures BoundAll(refs, prefix, profile)[i] == Bind(refs[i], prefix, profile)
    decreases |refs|
  {
    var init := refs[..|refs| - 1];
    if i < |init| {
      BoundAt(init, prefix, profile, i);
      assert BoundAll(refs, prefix, profile)[i] == BoundAll(init, prefix, profile)[i];
    }
  }

  /** State `i` is named "<i>. <entry i>". */
  lemma {:induction false} LabelAt(refs: seq<ActionRef>, i: nat)
    requires i < |refs|
    ensures Labels(refs)[i] == StateLabel(i, refs[i])
    decreases |refs|
  {
    var init := refs[..|refs| - 1];
    if i < |init| {
      LabelAt(init, i);
      assert Labels(refs)[i] == Labels(init)[i];
    }
  }

  datatype RoleSetting = RoleSetting(name: string, profile: string, goal: string, constraints: string, desc: string)

  /** `str(setting)`, which is also the role id. */
  function SettingText(s: RoleSetting): string {
    s.name + "(" + s.profile + ")"
  }

  /** `_get_prefix`: the description when there is one, else the filled prefix template. */
  function GetPrefix(s: RoleSetting): (p: string)
    ensures s.desc != "" ==> p == s.desc
    ensures s.desc == "" ==> StartsWith(p, "You are a " + s.profile + ", named " + s.name)
  {
    if s.desc != "" then s.desc
    else "You are a " + s.profile + ", named " + s.name + ", your goal is " + s.goal
         + ", and the constraint is " + s.constraints + ". "
  }

  // ---------------------------------------------------------------------
  // Options
  // ---------------------------------------------------------------------

  const DefaultOptions: Dict<string> := [("teaching_language", "English"), ("language", "Chinese")]

  /**
   * `supply_options`: a copy of the defaults updated with `options`.
   * Defaults keep their positions; a supplied key overrides its default.
   */
  function SupplyOptions(options: Dict<string>): (r: Dict<string>)
    ensures |Keys(r)| >= 2 && Keys(r)[..2] == ["teaching_language", "language"]
    ensures forall k :: k in Keys(r) <==> k in Keys(DefaultOptions) || k in Keys(options)
    ensures UniqueKeys(options) ==> UniqueKeys(r)
    ensures UniqueKeys(options) ==> forall k ::
      Get(r, k) == if k in Keys(options) then Get(options, k) else Get(DefaultOptions, k)
  {
    if options == [] then DefaultOptions else Update(DefaultOptions, options)
  }

  /** A value given to `format_value`: a string, or any other value (kept as its text). */
  datatype Value = Str(s: string) | NonStr(text: string)

  /** The value as a setting field holds it. */
  function ValueText(v: Value): string {
    match v
    case Str(s) => s
    case NonStr(text) => text
  }

  /** `value.replace("{k}", v)` for every option in order. */
  function ReplacePlaceholders(s: string, options: Dict<string>): string
    decreases |options|
  {
    if options == [] then s
    else
      var (k, v) := options[|options| - 1];
      Replace(ReplacePlaceholders(s, options[..|options| - 1]), "{" + k + "}", v)
  }

  /** Text without '{' has no placeholder to fill. */
  lemma {:induction false} ReplacePlaceholdersNoBrace(s: string, options: Dict<string>)
    requires '{' !in s
    ensures ReplacePlaceholders(s, options) == s
    decreases |options|
  {
    if options != [] {
      var (k, v) := options[|options| - 1];
      ReplacePlaceholdersNoBrace(s, options[..|options| - 1]);
      MissingCharNotContained(s, "{" + k + "}", 0);
      ReplaceAbsent(s, "{" + k + "}", v);
    }
  }

  /** What `format_value` makes of a string setting. */
  function Formatted(s: string, options: Dict<string>, format: (string, Dict<string>) -> Result<string>): Result<string> {
    if '{' !in s then Ok(s)
    else
      var opts := SupplyOptions(options);
      match format(s, opts)
      case Ok(t) => Ok(t)
      case Err(KeyError(_)) => Ok(ReplacePlaceholders(s, opts))
      case Err(e) => Err(e)
  }

  /** The settings' formatting results taken in order; the first error stops the formatting. */
  function Gather(rs: seq<Result<string>>): Result<seq<string>>
    decreases |rs|
  {
    if rs == [] then Ok([])
    else
      match Gather(rs[..|rs| - 1])
      case Err(e) => Err(e)
      case Ok(ts) =>
        match rs[|rs| - 1]
        case Err(e) => Err(e)
        case Ok(t) => Ok(ts + [t])
  }

  /** The results gather exactly when each is Ok, and then result `i` is the `i`th text. */
  lemma {:induction false} GatherOk(rs: seq<Result<string>>)
    ensures Gather(rs).Ok? <==> forall i :: 0 <= i < |rs| ==> rs[i].Ok?
    ensures Gather(rs).Ok? ==>
      |Gather(rs).value| == |rs| && forall i :: 0 <= i < |rs| ==> Gather(rs).value[i] == rs[i].value
    decreases |rs|
  {
    if rs != [] {
      var init := rs[..|rs| - 1];
      GatherOk(init);
      if Gather(rs).Ok? {
        forall i | 0 <= i < |rs|
          ensures Gather(rs).value[i] == rs[i].value
        {
          if i < |init| {
            assert init[i] == rs[i];
          }
        }
      } else if Gather(init).Err? {
        var j :| 0 <= j < |init| && init[j].Err?;
        assert init[j] == rs[j];
      }
    }
  }

  /** Once a prefix of the results fails, gathering the rest keeps that error. */
  lemma {:induction false} GatherPrefixErr(rs: seq<Result<string>>, n: nat)
    requires n <= |rs| && Gather(rs[..n]).Err?
    ensures Gather(rs) == Gather(rs[..n])
    decreases |rs| - n
  {
    if n < |rs| {
      assert rs[..n + 1][..n] == rs[..n];
      GatherPrefixErr(rs, n + 1);
    } else {
      assert rs[..n] == rs;
    }
  }

  /** A failed gathering reports the error of the first result that fails. */
  lemma {:induction false} GatherFirstError(rs: seq<Result<string>>)
    requires Gather(rs).Err?
    ensures exists k :: (0 <= k < |rs| && rs[k].Err? && Gather(rs).error == rs[k].error
                         && forall i :: 0 <= i < k ==> rs[i].Ok?)
    decreases |rs|
  {
    var init := rs[..|rs| - 1];
    var k := |rs| - 1;
    if Gather(init).Err? {
      GatherFirstError(init);
      var j :| 0 <= j < |init| && init[j].Err? && Gather(init).error == init[j].error
        && forall i :: 0 <= i < j ==> init[i].Ok?;
      assert init[j] == rs[j];
      assert forall i :: 0 <= i < j ==> init[i] == rs[i];
    } else {
      GatherOk(init);
      assert forall i :: 0 <= i < k ==> init[i] == rs[i];
    }
  }

  /**
   * `format_value`: non-strings and strings without '{' come back unchanged;
   * otherwise `format` (Python's `str.format` with the supplied options)
   * fills the placeholders, and when it raises KeyError every option's
   * placeholder is replaced in turn instead.
   */
  method FormatValue(value: Value, options: Dict<string>, format: (string, Dict<string>) -> Result<string>)
    returns (r: Result<Value>)
    ensures value.NonStr? ==> r == Ok(value)
    ensures value.Str? ==> (r.Ok? <==> Formatted(value.s, options, format).Ok?)
    ensures value.Str? && r.Ok? ==> r.value == Str(Formatted(value.s, options, format).value)
    ensures value.Str? && r.Err? ==> r.error == Formatted(value.s, options, format).error
    ensures value.Str? && '{' !in value.s ==> r == Ok(value)
    ensures value.Str? && '{' in value.s ==>
      var opts := SupplyOptions(options);
      match format(value.s, opts)
      case Ok(t) => r == Ok(Str(t))
      case Err(KeyError(_)) => r == Ok(Str(ReplacePlaceholders(value.s, opts)))
      case Err(e) => r == Err(e)
  {
    if value.NonStr? || '{' !in value.s {
      return Ok(value);
    }
    var opts := SupplyOptions(options);
    var formatted := format(value.s, opts);
    if formatted.Ok? {
      return Ok(Str(formatted.value));
    }
    if !formatted.error.KeyError? {
      return Err(formatted.error);
    }
    var s := value.s;
    var i := 0;
    while i < |opts|
      invariant 0 <= i <= |opts|
      invariant s == ReplacePlaceholders(value.s, opts[..i])
    {
      assert opts[..i + 1][..i] == opts[..i];
      s := Replace(s, "{" + opts[i].0 + "}", opts[i].1);
      i := i + 1;
    }
    assert opts[..i] == opts;
    return Ok(Str(s));
  }

  // ---------------------------------------------------------------------
  // Decisions of `_think`
  // ---------------------------------------------------------------------

  /** How the model's answer is read: a valid state index, or invalid. */
  datatype Decision = ValidIndex(index: nat) | Invalid

  /** The answer is valid when it is all digits and names one of the `n` states. */
  function ParseDecision(answer: string, n: nat): (d: Decision)
    ensures d.ValidIndex? <==> IsDigits(answer) && ParseDecimal(answer) < n
    ensures d.ValidIndex? ==> d.index == ParseDecimal(answer) && d.index < n
  {
    if IsDigits(answer) && ParseDecimal(answer) < n then ValidIndex(ParseDecimal(answer)) else Invalid
  }

  /** An invalid decision falls back to state 0. */
  function NextState(d: Decision): nat {
    if d.ValidIndex? then d.index else 0
  }

  /** The state `_think` selects among `n` actions for the model's `answer`. */
  function ChosenState(n: nat, answer: string): (s: nat)
    ensures n == 1 ==> s == 0
    ensures n > 0 ==> s < n
    ensures n != 1 && IsDigits(answer) && ParseDecimal(answer) < n ==> s == ParseDecimal(answer)
    ensures n != 1 && !(IsDigits(answer) && ParseDecimal(answer) < n) ==> s == 0
  {
    if n == 1 then 0 else NextState(ParseDecision(answer, n))
  }

  /** Writing a state number as the model is asked to selects exactly that state. */
  lemma DecisionRoundTrip(k: nat, n: nat)
    requires k < n
    ensures ParseDecision(NatToDecimal(k), n) == ValidIndex(k)
  {
    ParseDecimalOfNatToDecimal(k);
  }

  /** An answer past the last state is read as state 0. */
  lemma OutOfRangeFallsBack()
    ensures ChosenState(3, "7") == 0
  {
    assert ParseDecimal("7") == 7;
  }

  // ---------------------------------------------------------------------
  // Memory
  // ---------------------------------------------------------------------

  /** `memory.get_by_actions(kinds)`: the messages caused by one of `kinds`, in order. */
  function ByActions(msgs: seq<Message>, kinds: set<string>): (r: seq<Message>)
    ensures |r| <= |msgs|
    ensures forall m :: m in r <==> m in msgs && m.causeBy in kinds
  {
    if msgs == [] then []
    else
      var rest := ByActions(msgs[1..], kinds);
      assert forall m :: m in msgs <==> m == msgs[0] || m in msgs[1..];
      if msgs[0].causeBy in kinds then [msgs[0]] + rest else rest
  }

  /** Filtering keeps memory order: a message added last is kept last exactly when its cause is watched. */
  lemma {:induction false} ByActionsAppend(msgs: seq<Message>, m: Message, kinds: set<string>)
    ensures ByActions(msgs + [m], kinds) == ByActions(msgs, kinds) + (if m.causeBy in kinds then [m] else [])
    decreases |msgs|
  {
    if msgs != [] {
      assert (msgs + [m])[1..] == msgs[1..] + [m];
      ByActionsAppend(msgs[1..], m, kinds);
    }
  }

  /** The memory after `recv(m)`: unchanged if `m` is already there, else `m` appended. */
  function Received(mem: seq<Message>, m: Message): (r: seq<Message>)
    ensures m in r
    ensures m in mem ==> r == mem
    ensures m !in mem ==> r == mem + [m]
  {
    if m in mem then mem else mem + [m]
  }

  /** The memory after `recv` of each of `ms` in order. */
  function ReceivedAll(mem: seq<Message>, ms: seq<Message>): seq<Message>
    decreases |ms|
  {
    if ms == [] then mem else Received(ReceivedAll(mem, ms[..|ms| - 1]), ms[|ms| - 1])
  }

  predicate NoDuplicates(s: seq<Message>) {
    forall i, j :: 0 <= i < j < |s| ==> s[i] != s[j]
  }

  /** Receiving a message twice is the same as receiving it once. */
  lemma ReceivedIdempotent(mem: seq<Message>, m: Message)
    ensures Received(Received(mem, m), m) == Received(mem, m)
  {
  }

  /**
   * Receiving a batch only appends: the old memory is a prefix, every
   * received message is present, and nothing else is added.
   */
  lemma {:induction false} ReceivedAllAppends(mem: seq<Message>, ms: seq<Message>)
    ensures |mem| <= |ReceivedAll(mem, ms)| <= |mem| + |ms|
    ensures ReceivedAll(mem, ms)[..|mem|] == mem
    ensures forall m :: m in ms ==> m in ReceivedAll(mem, ms)
    ensures forall m :: m in ReceivedAll(mem, ms) ==> m in mem || m in ms
    decreases |ms|
  {
    if ms != [] {
      var init := ms[..|ms| - 1];
      ReceivedAllAppends(mem, init);
      assert forall m :: m in ms <==> m in init || m == ms[|ms| - 1];
    }
  }

  /** A memory without duplicates stays without duplicates. */
  lemma {:induction false} ReceivedAllNoDuplicates(mem: seq<Message>, ms: seq<Message>)
    requires NoDuplicates(mem)
    ensures NoDuplicates(ReceivedAll(mem, ms))
    decreases |ms|
  {
    if ms != [] {
      ReceivedAllNoDuplicates(mem, ms[..|ms| - 1]);
    }
  }

  /** Receiving messages that are all present already changes nothing. */
  lemma {:induction false} ReceivedAllPresent(mem: seq<Message>, ms: seq<Message>)
    requires forall m :: m in ms ==> m in mem
    ensures ReceivedAll(mem, ms) == mem
    decreases |ms|
  {
    if ms != [] {
      ReceivedAllPresent(mem, ms[..|ms| - 1]);
    }
  }

  /** Observing the same environment history twice adds nothing the second time. */
  lemma ReceivedAllIdempotent(mem: seq<Message>, ms: seq<Message>)
    ensures ReceivedAll(ReceivedAll(mem, ms), ms) == ReceivedAll(mem, ms)
  {
    ReceivedAllAppends(mem, ms);
    ReceivedAllPresent(ReceivedAll(mem, ms), ms);
  }

  // ---------------------------------------------------------------------
  // Environment and role context
  // ---------------------------------------------------------------------

  /** The shared environment, reduced to its global message history. */
  class Environment {
    var memory: seq<Message>

    constructor ()
      ensures memory == []
    {
      memory := [];
    }

    /** `publish_message`: the message joins the shared history. */
    method PublishMessage(m: Message)
      modifies this
      ensures memory == old(memory) + [m]
    {
      memory := memory + [m];
    }
  }

  /** The runtime context of a role. */
  class RoleContext {
    var env: Environment?
    var memory: seq<Message>
    var state: int
    var todo: Option<Action>
    var watch: set<string>
    var news: seq<Message>

    constructor ()
      ensures env == null && memory == [] && state == 0 && todo == None
      ensures watch == {} && news == []
    {
      env := null;
      memory := [];
      state := 0;
      todo := None;
      watch := {};
      news := [];
    }

    /** `important_memory`: the remembered messages caused by a watched action. */
    function ImportantMemory(): (r: seq<Message>)
      reads this
      ensures forall m :: m in r <==> m in memory && m.causeBy in watch
    {
      ByActions(memory, watch)
    }

    /** `history`: everything remembered, in order. */
    function History(): (r: seq<Message>)
      reads this
      ensures r == memory
    {
      memory
    }
  }

  /** What an action's `run` returns: plain text, or an output with structured content. */
  datatype ActionResponse = TextResponse(text: string) | OutputResponse(content: string, instructContent: string)

  /** The message `_act` builds from a response: role = profile, cause = the action's kind. */
  function ResponseMessage(rsp: ActionResponse, profile: string, kind: string, freshId: string): (m: Message)
    requires freshId != ""
    ensures Normalised(m) && m.role == profile && m.causeBy == CheckCauseBy(kind)
    ensures m.sentFrom == "" && m.sendTo == {RouteToAll}
    ensures rsp.TextResponse? ==> m.content == rsp.text && m.instructContent == None
    ensures rsp.OutputResponse? ==> m.content == rsp.content && m.instructContent == Some(rsp.instructContent)
  {
    match rsp
    case TextResponse(text) => NewMessage(text, "", None, profile, kind, "", {}, freshId)
    case OutputResponse(content, ic) => NewMessage(content, "", Some(ic), profile, kind, "", {}, freshId)
  }

  /** The argument of `run`: nothing, a string, a message, or a list of strings. */
  datatype RunInput = NoInput | Text(s: string) | Msg(m: Message) | Lines(lines: seq<string>)

  /**
   * The message `run` receives for its argument: a non-empty string is
   * wrapped into a message, a non-empty list joined with "\n" first; a
   * missing, empty string or empty list argument is falsy and gives none.
   */
  function InputMessage(input: RunInput, freshId: string): (r: Option<Message>)
    requires freshId != ""
    ensures r.None? <==> input.NoInput? || input == Text("") || input == Lines([])
    ensures input.Msg? ==> r == Some(input.m)
    ensures input.Text? && input.s != "" ==> r == Some(MessageOf(input.s, freshId))
    ensures input.Lines? && input.lines != [] ==> r == Some(MessageOf(Join(input.lines, "\n"), freshId))
  {
    match input
    case NoInput => None
    case Text(s) => if s == "" then None else Some(MessageOf(s, freshId))
    case Msg(m) => Some(m)
    case Lines(lines) => if lines == [] then None else Some(MessageOf(Join(lines, "\n"), freshId))
  }

  datatype RunResult = Idle | Replied(msg: Message) | Raised(error: PyError)

  // ---------------------------------------------------------------------
  // Role
  // ---------------------------------------------------------------------

  class Role {
    var setting: RoleSetting
    var states: seq<string>
    var actions: seq<Action>
    var roleId: string
    var options: Dict<string>
    const rc: RoleContext

    /** The state names and the actions are parallel lists. */
    ghost predicate Valid()
      reads this
    {
      |states| == |actions|
    }

    /** `Role(...)` once its settings are formatted: no actions, an empty context. */
    constructor (setting: RoleSetting, kwargs: Dict<string>)
      ensures Valid() && this.setting == setting && states == [] && actions == []
      ensures roleId == SettingText(setting) && options == SupplyOptions(kwargs)
      ensures fresh(rc) && rc.env == null && rc.memory == [] && rc.state == 0
      ensures rc.todo == None && rc.watch == {} && rc.news == []
    {
      this.setting := setting;
      states := [];
      actions := [];
      roleId := SettingText(setting);
      rc := new RoleContext();
      options := SupplyOptions(kwargs);
    }

    /**
     * `_init_actions`: both lists are cleared, then each entry is bound to
     * this role and listed with its state name "<i>. <action>".
     */
    method InitActions(refs: seq<ActionRef>)
      modifies this`states, this`actions
      ensures Valid() && |actions| == |refs|
      ensures forall i :: 0 <= i < |refs| ==>
        actions[i] == Bind(refs[i], GetPrefix(setting), setting.profile)
        && states[i] == StateLabel(i, refs[i])
    {
      var prefix, profile := GetPrefix(setting), setting.profile;
      var acts: seq<Action>, labels: seq<string> := [], [];
      var idx := 0;
      while idx < |refs|
        invariant 0 <= idx <= |refs|
        invariant acts == BoundAll(refs[..idx], prefix, profile) && labels == Labels(refs[..idx])
      {
        assert refs[..idx + 1][..idx] == refs[..idx];
        acts := acts + [Bind(refs[idx], prefix, profile)];
        labels := labels + [StateLabel(idx, refs[idx])];
        idx := idx + 1;
      }
      assert refs[..idx] == refs;
      forall i | 0 <= i < |refs|
        ensures acts[i] == Bind(refs[i], prefix, profile) && labels[i] == StateLabel(i, refs[i])
      {
        BoundAt(refs, prefix, profile, i);
        LabelAt(refs, i);
      }
      actions, states := acts, labels;
    }

    /** `_watch`: the given action kinds join the watched set. */
    method Watch(kinds: set<string>)
      modifies rc`watch
      ensures rc.watch == old(rc.watch) + kinds
    {
      rc.watch := rc.watch + kinds;
    }

    method SetEnv(env: Environment?)
      modifies rc`env
      ensures rc.env == env
    {
      rc.env := env;
    }

    /**
     * `_set_state`: the state is stored first; then `todo` becomes the
     * action at that (Python) index, or IndexError is raised (`ok` false).
     */
    method SetState(s: int) returns (ok: bool)
      modifies rc`state, rc`todo
      ensures rc.state == s
      ensures ok <==> -|actions| <= s < |actions|
      ensures ok ==> rc.todo == Some(actions[if s < 0 then s + |actions| else s])
      ensures !ok ==> rc.todo == old(rc.todo)
    {
      rc.state := s;
      ok := -|actions| <= s < |actions|;
      if ok {
        rc.todo := Some(actions[if s < 0 then s + |actions| else s]);
      }
    }

    /**
     * `_think`: with one action the state is 0 and the model is not asked;
     * otherwise the model's answer to the history and the state names picks
     * the state, falling back to 0. With no actions it raises IndexError.
     */
    method Think(decide: (seq<Message>, seq<string>) -> string) returns (ok: bool)
      requires Valid()
      modifies rc`state, rc`todo
      ensures ok <==> |actions| > 0
      ensures rc.state == ChosenState(|actions|, decide(rc.History(), states))
      ensures ok ==> 0 <= rc.state < |actions| && rc.todo == Some(actions[rc.state])
      ensures !ok ==> rc.todo == old(rc.todo)
    {
      if |actions| == 1 {
        ok := SetState(0);
        return;
      }
      var answer := decide(rc.History(), states);
      var next := NextState(ParseDecision(answer, |states|));
      ok := SetState(next);
    }

    /**
     * `_act`: runs `todo` on the important memory with the role's options,
     * wraps the response into a message and adds it to memory.
     */
    method Act(run: (Action, seq<Message>, Dict<string>) -> ActionResponse, freshId: string)
      returns (msg: Message)
      requires rc.todo.Some? && freshId != ""
      modifies rc`memory
      ensures msg == ResponseMessage(run(rc.todo.value, old(rc.ImportantMemory()), options),
                                     setting.profile, rc.todo.value.kind, freshId)
      ensures rc.memory == old(rc.memory) + [msg]
    {
      var requirement := rc.ImportantMemory();
      var response := run(rc.todo.value, requirement, options);
      msg := ResponseMessage(response, setting.profile, rc.todo.value.kind, freshId);
      rc.memory := rc.memory + [msg];
    }

    /** `recv`: a message already in memory is ignored, any other appended. */
    method Recv(m: Message)
      modifies rc`memory
      ensures rc.memory == Received(old(rc.memory), m)
    {
      if m in rc.memory {
        return;
      }
      rc.memory := rc.memory + [m];
    }

    /**
     * `_observe`: without an environment nothing happens and 0 is returned.
     * Otherwise the news is what `remember` makes of the watched messages
     * of the environment, every environment message is received, and the
     * number of news items is returned.
     */
    method Observe(remember: (seq<Message>, seq<Message>) -> seq<Message>) returns (n: nat)
      modifies rc`news, rc`memory
      ensures rc.env == null ==> n == 0 && rc.news == old(rc.news) && rc.memory == old(rc.memory)
      ensures rc.env != null ==>
        rc.news == remember(old(rc.memory), ByActions(rc.env.memory, rc.watch))
        && rc.memory == ReceivedAll(old(rc.memory), rc.env.memory)
        && n == |rc.news|
    {
      if rc.env == null {
        return 0;
      }
      var envMsgs := rc.env.memory;
      var observed := ByActions(rc.env.memory, rc.watch);
      rc.news := remember(rc.memory, observed);
      var i := 0;
      while i < |envMsgs|
        invariant 0 <= i <= |envMsgs|
        invariant rc.memory == ReceivedAll(old(rc.memory), envMsgs[..i])
        invariant rc.news == remember(old(rc.memory), observed)
      {
        assert envMsgs[..i + 1][..i] == envMsgs[..i];
        Recv(envMsgs[i]);
        i := i + 1;
      }
      assert envMsgs[..i] == envMsgs;
      n := |rc.news|;
    }

    /** `_publish_message`: only a role inside an environment publishes. */
    method PublishMessage(m: Message)
      modifies rc.env
      ensures rc.env != null ==> rc.env.memory == old(rc.env.memory) + [m]
    {
      if rc.env == null {
        return;
      }
      rc.env.PublishMessage(m);
    }

    /** `_react`: think, then act; `None` when thinking raised IndexError. */
    method React(decide: (seq<Message>, seq<string>) -> string,
                 run: (Action, seq<Message>, Dict<string>) -> ActionResponse, freshId: string)
      returns (r: Option<Message>)
      requires Valid() && freshId != ""
      modifies rc`state, rc`todo, rc`memory
      ensures r.None? <==> actions == []
      ensures r.None? ==> rc.memory == old(rc.memory) && rc.state == 0 && rc.todo == old(rc.todo)
      ensures r.Some? ==>
        rc.state == ChosenState(|actions|, decide(old(rc.memory), states))
        && rc.todo == Some(actions[rc.state])
        && r.value == ResponseMessage(run(actions[rc.state], ByActions(old(rc.memory), rc.watch), options),
                                      setting.profile, actions[rc.state].kind, freshId)
        && rc.memory == old(rc.memory) + [r.value]
    {
      var ok := Think(decide);
      if !ok {
        return None;
      }
      var msg := Act(run, freshId);
      return Some(msg);
    }

    /** `handle`: receive the message, then react to it. */
    method Handle(m: Message, decide: (seq<Message>, seq<string>) -> string,
                  run: (Action, seq<Message>, Dict<string>) -> ActionResponse, freshId: string)
      returns (r: Option<Message>)
      requires Valid() && freshId != ""
      modifies rc`state, rc`todo, rc`memory
      ensures r.None? <==> actions == []
      ensures r.None? ==> rc.memory == Received(old(rc.memory), m) && rc.state == 0 && rc.todo == old(rc.todo)
      ensures r.Some? ==>
        var mem := Received(old(rc.memory), m);
        rc.state == ChosenState(|actions|, decide(mem, states))
        && rc.todo == Some(actions[rc.state])
        && r.value == ResponseMessage(run(actions[rc.state], ByActions(mem, rc.watch), options),
                                      setting.profile, actions[rc.state].kind, freshId)
        && rc.memory == mem + [r.value]
    {
      Recv(m);
      r := React(decide, run, freshId);
    }

    /**
     * `run`: an explicit message is received; otherwise the role observes
     * and, with no news, goes idle without reacting or publishing. After
     * that it reacts and publishes the reply when it has an environment.
     */
    method Run(input: RunInput,
               remember: (seq<Message>, seq<Message>) -> seq<Message>,
               decide: (seq<Message>, seq<string>) -> string,
               run: (Action, seq<Message>, Dict<string>) -> ActionResponse,
               inputId: string, replyId: string)
      returns (r: RunResult)
      requires Valid() && inputId != "" && replyId != ""
      modifies rc`news, rc`memory, rc`state, rc`todo, rc.env
      ensures r.Idle? <==>
        InputMessage(input, inputId).None?
        && (rc.env == null || |remember(old(rc.memory), ByActions(old(rc.env.memory), rc.watch))| == 0)
      ensures r.Idle? ==> rc.state == old(rc.state) && rc.todo == old(rc.todo)
      ensures r.Idle? && rc.env != null ==>
        rc.env.memory == old(rc.env.memory) && rc.memory == ReceivedAll(old(rc.memory), rc.env.memory)
      ensures r.Idle? && rc.env == null ==> rc.memory == old(rc.memory)
      ensures r.Raised? ==> r.error == IndexError && actions == []
      ensures r.Raised? ==> rc.state == 0 && rc.todo == old(rc.todo)
      ensures actions == [] && !r.Idle? ==> r.Raised?
      ensures !r.Idle? ==>
        var mem := if InputMessage(input, inputId).Some? then Received(old(rc.memory), InputMessage(input, inputId).value)
                   else ReceivedAll(old(rc.memory), old(rc.env.memory));
        (r.Raised? ==> rc.memory == mem)
        && (r.Replied? ==>
              rc.state == ChosenState(|actions|, decide(mem, states))
              && rc.todo == Some(actions[rc.state])
              && r.msg == ResponseMessage(run(actions[rc.state], ByActions(mem, rc.watch), options),
                                          setting.profile, actions[rc.state].kind, replyId)
              && rc.memory == mem + [r.msg])
      ensures r.Replied? ==> r.msg.role == setting.profile && r.msg.id == replyId
      ensures r.Replied? && rc.env != null ==> rc.env.memory == old(rc.env.memory) + [r.msg]
      ensures !r.Replied? && rc.env != null ==> rc.env.memory == old(rc.env.memory)
      ensures InputMessage(input, inputId).Some? || rc.env == null ==> rc.news == old(rc.news)
      ensures InputMessage(input, inputId).None? && rc.env != null ==>
        rc.news == remember(old(rc.memory), ByActions(old(rc.env.memory), rc.watch))
    {
      var msg := InputMessage(input, inputId);
      if msg.Some? {
        Recv(msg.value);
      } else {
        var n := Observe(remember);
        if n == 0 {
          return Idle;
        }
      }
      r := ReactAndPublish(decide, run, replyId);
    }

    /** The second half of `run`: react, then publish the reply to an attached environment. */
    method ReactAndPublish(decide: (seq<Message>, seq<string>) -> string,
                           run: (Action, seq<Message>, Dict<string>) -> ActionResponse, replyId: string)
      returns (r: RunResult)
      requires Valid() && replyId != ""
      modifies rc`memory, rc`state, rc`todo, rc.env
      ensures !r.Idle?
      ensures r.Raised? <==> actions == []
      ensures r.Raised? ==> r.error == IndexError && rc.memory == old(rc.memory)
      ensures r.Raised? ==> rc.state == 0 && rc.todo == old(rc.todo)
      ensures r.Replied? ==>
        r.msg.role == setting.profile && r.msg.id == replyId && rc.memory == old(rc.memory) + [r.msg]
      ensures r.Replied? ==>
        rc.state == ChosenState(|actions|, decide(old(rc.memory), states))
        && rc.todo == Some(actions[rc.state])
        && r.msg == ResponseMessage(run(actions[rc.state], ByActions(old(rc.memory), rc.watch), options),
                                    setting.profile, actions[rc.state].kind, replyId)
      ensures r.Replied? && rc.env != null ==> rc.env.memory == old(rc.env.memory) + [r.msg]
      ensures r.Raised? && rc.env != null ==> rc.env.memory == old(rc.env.memory)
      ensures rc.news == old(rc.news)
    {
      var rsp := React(decide, run, replyId);
      if rsp.None? {
        return Raised(IndexError);
      }
      PublishMessage(rsp.value);
      return Replied(rsp.value);
    }

    /**
     * `Role(name, profile, goal, constraints, desc, **kwargs)`: each setting
     * is formatted with the options first; an error raised while formatting
     * escapes the constructor.
     */
    static method Create(name: string, profile: string, goal: string, constraints: string, desc: string,
                         kwargs: Dict<string>, format: (string, Dict<string>) -> Result<string>)
      returns (r: Result<Role>)
      ensures r.Ok? <==>
        Formatted(name, kwargs, format).Ok? && Formatted(profile, kwargs, format).Ok?
        && Formatted(goal, kwargs, format).Ok? && Formatted(constraints, kwargs, format).Ok?
        && Formatted(desc, kwargs, format).Ok?
      ensures r.Ok? ==>
        r.value.setting == RoleSetting(Formatted(name, kwargs, format).value, Formatted(profile, kwargs, format).value,
                                       Formatted(goal, kwargs, format).value, Formatted(constraints, kwargs, format).value,
                                       Formatted(desc, kwargs, format).value)
      ensures r.Err? ==>
        var all := Gather([Formatted(name, kwargs, format), Formatted(profile, kwargs, format),
                           Formatted(goal, kwargs, format), Formatted(constraints, kwargs, format),
                           Formatted(desc, kwargs, format)]);
        all.Err? && r.error == all.error
      ensures r.Ok? ==> fresh(r.value) && r.value.Valid() && r.value.actions == []
      ensures r.Ok? ==> r.value.options == SupplyOptions(kwargs)
    {
      var fields := [name, profile, goal, constraints, desc];
      ghost var rs := [Formatted(name, kwargs, format), Formatted(profile, kwargs, format),
                       Formatted(goal, kwargs, format), Formatted(constraints, kwargs, format),
                       Formatted(desc, kwargs, format)];
      var formatted: seq<string> := [];
      var i := 0;
      while i < 5
        invariant 0 <= i <= 5
        invariant Gather(rs[..i]) == Ok(formatted)
      {
        assert rs[..i + 1][..i] == rs[..i];
        assert rs[i] == Formatted(fields[i], kwargs, format);
        var f := FormatValue(Str(fields[i]), kwargs, format);
        if f.Err? {
          assert Gather(rs[..i + 1]) == Err(f.error);
          GatherPrefixErr(rs, i + 1);
          GatherOk(rs);
          return Err(f.error);
        }
        formatted := formatted + [ValueText(f.value)];
        i := i + 1;
      }
      assert rs[..5] == rs;
      GatherOk(rs);
      var setting := RoleSetting(formatted[0], formatted[1], formatted[2], formatted[3], formatted[4]);
      var role := new Role(setting, kwargs);
      return Ok(role);
    }
  }
}
