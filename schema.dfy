/**
 * The message entity and the small data helpers of `metagpt/schema.py`:
 * construction-time normalisation of a message, the FIFO message queue,
 * document collections, the code-summary context and the mermaid text of
 * a class attribute.
 */
module Schema {
  import opened Base
  import opened Strings
  import opened Dicts
  import Json

  /** The wildcard recipient: every current and future role. */
  const RouteToAll: string := "<all>"
  /** The action kind of a message nobody caused (a user requirement). */
  const UserRequirement: string := "metagpt.actions.add_requirement.UserRequirement"
  const SystemDesignFileRepo: string := "docs/system_design"
  const TaskFileRepo: string := "docs/tasks"

  // ---------------------------------------------------------------------
  // Message
  // ---------------------------------------------------------------------

  /**
   * A message. `instructContent` stands for the optional structured payload;
   * `causeBy` is the action kind that produced it; `sendTo` its recipients.
   */
  datatype Message = Message(
    id: string,
    content: string,
    instructContent: Option<string>,
    role: string,
    causeBy: string,
    sentFrom: string,
    sendTo: set<string>)

  /** What every constructed message satisfies. */
  predicate Normalised(m: Message) {
    m.id != "" && m.causeBy != "" && m.sendTo != {}
  }

  /** The `id` validator: an empty id is replaced by a freshly generated one. */
  function CheckId(id: string, freshId: string): (r: string)
    requires freshId != ""
    ensures r != ""
    ensures id != "" ==> r == id
    ensures id == "" ==> r == freshId
  {
    if id != "" then id else freshId
  }

  /** The `cause_by` validator: an empty cause becomes the user-requirement kind. */
  function CheckCauseBy(causeBy: string): (r: string)
    ensures r != ""
    ensures causeBy != "" ==> r == causeBy
    ensures causeBy == "" ==> r == UserRequirement
  {
    if causeBy != "" then causeBy else UserRequirement
  }

  /** The `send_to` validator: an empty recipient set becomes the wildcard. */
  function CheckSendTo(sendTo: set<string>): (r: set<string>)
    ensures r != {}
    ensures sendTo != {} ==> r == sendTo
    ensures sendTo == {} ==> r == {RouteToAll}
  {
    if sendTo != {} then sendTo else {RouteToAll}
  }

  /**
   * `Message(content, id=..., ...)`: every field validator applied once.
   * `freshId` is the value `uuid4().hex` would produce.
   */
  function NewMessage(
    content: string, id: string, instructContent: Option<string>, role: string,
    causeBy: string, sentFrom: string, sendTo: set<string>, freshId: string): (m: Message)
    requires freshId != ""
    ensures Normalised(m)
    ensures m.content == content && m.role == role && m.sentFrom == sentFrom
    ensures m.instructContent == instructContent
    ensures m.id == CheckId(id, freshId)
    ensures m.causeBy == CheckCauseBy(causeBy) && m.sendTo == CheckSendTo(sendTo)
  {
    Message(CheckId(id, freshId), content, instructContent, role,
            CheckCauseBy(causeBy), sentFrom, CheckSendTo(sendTo))
  }

  /** `Message(content)`: every other field left at its default. */
  function MessageOf(content: string, freshId: string): (m: Message)
    requires freshId != ""
    ensures Normalised(m) && m.content == content && m.role == "user"
    ensures m.id == freshId && m.causeBy == UserRequirement
    ensures m.sendTo == {RouteToAll} && m.sentFrom == "" && m.instructContent == None
  {
    NewMessage(content, "", None, "user", "", "", {}, freshId)
  }

  function UserMessage(content: string, freshId: string): (m: Message)
    requires freshId != ""
    ensures Normalised(m) && m.role == "user" && m.content == content
  {
    NewMessage(content, "", None, "user", "", "", {}, freshId)
  }

  function SystemMessage(content: string, freshId: string): (m: Message)
    requires freshId != ""
    ensures Normalised(m) && m.role == "system" && m.content == content
  {
    NewMessage(content, "", None, "system", "", "", {}, freshId)
  }

  function AIMessage(content: string, freshId: string): (m: Message)
    requires freshId != ""
    ensures Normalised(m) && m.role == "assistant" && m.content == content
  {
    NewMessage(content, "", None, "assistant", "", "", {}, freshId)
  }

  /**
   * `msg.send_to = v` after construction: the value is converted but no
   * default is applied, so an empty set stays empty.
   */
  function WithSendTo(m: Message, sendTo: set<string>): (r: Message)
    ensures r.sendTo == sendTo
    ensures r.(sendTo := m.sendTo) == m
  {
    m.(sendTo := sendTo)
  }

  /** `msg.cause_by = v` after construction: stored as given, no default. */
  function WithCauseBy(m: Message, causeBy: string): (r: Message)
    ensures r.causeBy == causeBy
    ensures r.(causeBy := m.causeBy) == m
  {
    m.(causeBy := causeBy)
  }

  /** `msg.to_dict()`: the role and content, for a model call. */
  function ToDict(m: Message): (d: Dict<string>)
    ensures Keys(d) == ["role", "content"]
    ensures Get(d, "role") == Some(m.role) && Get(d, "content") == Some(m.content)
  {
    [("role", m.role), ("content", m.content)]
  }

  // ---------------------------------------------------------------------
  // Documents
  // ---------------------------------------------------------------------

  datatype Document = Document(rootPath: string, filename: string, content: string)

  /** `doc.get_meta()`: the same location, without the content. */
  function GetMeta(d: Document): (r: Document)
    ensures r.rootPath == d.rootPath && r.filename == d.filename && r.content == ""
  {
    Document(d.rootPath, d.filename, "")
  }

  /** Position `i` holds the last document of `docs` whose file name is `name`. */
  predicate LastNamed(docs: seq<Document>, name: string, i: int) {
    0 <= i < |docs| && docs[i].filename == name
    && forall j :: i < j < |docs| ==> docs[j].filename != name
  }

  /**
   * `Documents.from_iterable(docs).docs`: documents keyed by file name;
   * a later document with the same name replaces an earlier one.
   */
  function FromIterable(docs: seq<Document>): (r: map<string, Document>)
    ensures r.Keys == set i | 0 <= i < |docs| :: docs[i].filename
    ensures forall name :: name in r ==> exists i :: LastNamed(docs, name, i) && r[name] == docs[i]
  {
    if docs == [] then map[]
    else
      var init := docs[..|docs| - 1];
      var last := docs[|docs| - 1];
      var r := FromIterable(init)[last.filename := last];
      assert forall i :: 0 <= i < |init| ==> init[i] == docs[i];
      assert LastNamed(docs, last.filename, |docs| - 1);
      assert forall name, i :: name != last.filename && LastNamed(init, name, i) ==> LastNamed(docs, name, i);
      r
  }

  // ---------------------------------------------------------------------
  // MessageQueue
  // ---------------------------------------------------------------------

  /** `items[i]` written with `serialize`, for every `i`. */
  function SerializeAll(items: seq<Message>, serialize: Message -> string): (r: seq<string>)
    ensures |r| == |items| && forall i :: 0 <= i < |items| ==> r[i] == serialize(items[i])
  {
    seq(|items|, i requires 0 <= i < |items| => serialize(items[i]))
  }

  /** A first-in first-out queue of messages. */
  class MessageQueue {
    var items: seq<Message>

    constructor ()
      ensures items == []
    {
      items := [];
    }

    method Push(m: Message)
      modifies this
      ensures items == old(items) + [m]
    {
      items := items + [m];
    }

    /** The oldest message, or `None` when the queue is empty. */
    method Pop() returns (r: Option<Message>)
      modifies this
      ensures old(items) == [] ==> r == None && items == []
      ensures old(items) != [] ==> r == Some(old(items)[0]) && items == old(items)[1..]
    {
      if items == [] {
        r := None;
      } else {
        r := Some(items[0]);
        items := items[1..];
      }
    }

    method Empty() returns (b: bool)
      ensures b <==> items == []
    {
      b := items == [];
    }

    /** Every message, oldest first; the queue is left empty. */
    method PopAll() returns (r: seq<Message>)
      modifies this
      ensures r == old(items) && items == []
    {
      r := [];
      while true
        invariant r + items == old(items)
        decreases |items|
      {
        var m := Pop();
        if m.None? {
          break;
        }
        r := r + [m.value];
      }
    }

    /**
     * `dump()`: drains the queue, writes each message with `serialize`
     * (`Message.dump`), puts every drained message back in its original
     * order and returns the JSON list of the written messages.
     */
    method Dump(serialize: Message -> string) returns (text: string)
      modifies this
      ensures items == old(items)
      ensures text == Json.DumpStrings(SerializeAll(old(items), serialize))
    {
      var isEmpty := Empty();
      if isEmpty {
        return "[]";
      }
      var lst: seq<string> := [];
      var msgs: seq<Message> := [];
      while true
        invariant msgs + items == old(items)
        invariant lst == SerializeAll(msgs, serialize)
        decreases |items|
      {
        // `get` times out once the queue is empty
        var item := Pop();
        if item.None? {
          break;
        }
        msgs := msgs + [item.value];
        lst := lst + [serialize(item.value)];
      }
      assert msgs == old(items);
      var k := 0;
      while k < |msgs|
        invariant 0 <= k <= |msgs| && items == msgs[..k]
      {
        Push(msgs[k]);
        k := k + 1;
      }
      assert lst == SerializeAll(old(items), serialize);
      text := Json.DumpStrings(lst);
    }
  }

  // ---------------------------------------------------------------------
  // CodeSummarizeContext
  // ---------------------------------------------------------------------

  /** `Path(path).is_relative_to(base)` on normalised relative paths. */
  predicate IsRelativeTo(path: string, base: string) {
    path == base || StartsWith(path, base + "/")
  }

  /** No path lies under both the design repository and the task repository. */
  lemma RepositoriesDisjoint(path: string)
    ensures !(IsRelativeTo(path, SystemDesignFileRepo) && IsRelativeTo(path, TaskFileRepo))
  {
    if IsRelativeTo(path, SystemDesignFileRepo) {
      assert path[5] == 's';
    }
    if IsRelativeTo(path, TaskFileRepo) {
      assert path[5] == 't';
    }
  }

  datatype CodeSummarizeContext = CodeSummarizeContext(
    designFilename: string,
    taskFilename: string,
    codesFilenames: seq<string>,
    reason: string)

  /** Position `j` holds the last path of `fs` under `repo`. */
  predicate LastUnderAt(fs: seq<string>, repo: string, j: int) {
    0 <= j < |fs| && IsRelativeTo(fs[j], repo)
    && forall l :: j < l < |fs| ==> !IsRelativeTo(fs[l], repo)
  }

  /** The last path of `fs` under `repo`, or "" when there is none. */
  function LastUnder(fs: seq<string>, repo: string): (r: string)
    ensures forall j :: LastUnderAt(fs, repo, j) ==> r == fs[j]
    ensures (forall i :: 0 <= i < |fs| ==> !IsRelativeTo(fs[i], repo)) ==> r == ""
  {
    if fs == [] then ""
    else if IsRelativeTo(fs[|fs| - 1], repo) then fs[|fs| - 1]
    else
      var init := fs[..|fs| - 1];
      assert forall j :: LastUnderAt(fs, repo, j) ==> LastUnderAt(init, repo, j);
      LastUnder(init, repo)
  }

  /**
   * `CodeSummarizeContext.loads(filenames)`: the design file name is the
   * last path under the design repository and the task file name the last
   * path under the task repository; every other path is ignored.
   */
  method Loads(filenames: seq<string>) returns (ctx: CodeSummarizeContext)
    ensures ctx.designFilename == LastUnder(filenames, SystemDesignFileRepo)
    ensures ctx.taskFilename == LastUnder(filenames, TaskFileRepo)
    ensures ctx.codesFilenames == [] && ctx.reason == ""
  {
    ctx := CodeSummarizeContext("", "", [], "");
    var k := 0;
    while k < |filenames|
      invariant 0 <= k <= |filenames|
      invariant ctx.designFilename == LastUnder(filenames[..k], SystemDesignFileRepo)
      invariant ctx.taskFilename == LastUnder(filenames[..k], TaskFileRepo)
      invariant ctx.codesFilenames == [] && ctx.reason == ""
    {
      var filename := filenames[k];
      assert filenames[..k + 1][..k] == filenames[..k];
      if IsRelativeTo(filename, SystemDesignFileRepo) {
        RepositoriesDisjoint(filename);
        ctx := ctx.(designFilename := filename);
      } else if IsRelativeTo(filename, TaskFileRepo) {
        ctx := ctx.(taskFilename := filename);
      }
      k := k + 1;
    }
    assert filenames[..k] == filenames;
  }

  // ---------------------------------------------------------------------
  // Mermaid class view
  // ---------------------------------------------------------------------

  /**
   * `UMLClassMeta.name_to_visibility`: `__init__` is public, other dunder
   * names private, single-underscore names protected, the rest public.
   */
  function NameToVisibility(name: string): (v: string)
    ensures v == "+" || v == "-" || v == "#"
    ensures v == "-" <==> name != "__init__" && StartsWith(name, "__")
    ensures v == "#" <==> StartsWith(name, "_") && !StartsWith(name, "__")
  {
    if name == "__init__" then "+"
    else if StartsWith(name, "__") then "-"
    else if StartsWith(name, "_") then "#"
    else "+"
  }

  datatype UMLClassAttribute = UMLClassAttribute(
    name: string,
    visibility: string,
    valueType: string,
    defaultValue: string)

  /** `align` tab characters (none for a non-positive `align`). */
  function Tabs(align: int): (r: string)
    ensures |r| == (if align > 0 then align else 0)
    ensures forall i :: 0 <= i < |r| ==> r[i] == '\t'
    decreases align
  {
    if align <= 0 then "" else Tabs(align - 1) + "\t"
  }

  /** The type written before the name: spaces removed, then one space; nothing without a type. */
  function TypeSegment(valueType: string): (r: string)
    ensures valueType == "" ==> r == ""
    ensures valueType != "" ==> |r| > 0 && r[|r| - 1] == ' ' && ' ' !in r[..|r| - 1]
    ensures valueType != "" ==> r[..|r| - 1] == RemoveChar(valueType, ' ')
  {
    if valueType == "" then ""
    else
      var inner := RemoveChar(valueType, ' ');
      assert (inner + " ")[..|inner|] == inner;
      inner + " "
  }

  /** The name with everything up to and including its first ':' dropped. */
  function ShortName(name: string): (r: string)
    ensures ':' in name ==> name == BeforeFirst(name, ':') + ":" + r
    ensures ':' !in name ==> r == name
  {
    if ':' in name then
      var b := BeforeFirst(name, ':');
      assert name == b + ":" + name[|b| + 1..];
      name[|b| + 1..]
    else name
  }

  predicate IsStringType(valueType: string) {
    valueType == "str" || valueType == "string" || valueType == "String"
  }

  /**
   * The default written after the name: nothing without a default, else
   * '=' and the default, which for a string type is put in double quotes
   * after removing the double quotes it contains.
   */
  function DefaultSegment(valueType: string, defaultValue: string): (r: string)
    ensures defaultValue == "" ==> r == ""
    ensures defaultValue != "" && !IsStringType(valueType) ==> r == "=" + defaultValue
    ensures defaultValue != "" && IsStringType(valueType) ==>
      |r| >= 3 && r[..2] == "=\"" && r[|r| - 1] == '"' && '"' !in r[2..|r| - 1]
    ensures defaultValue != "" && IsStringType(valueType) ==> r[2..|r| - 1] == RemoveChar(defaultValue, '"')
  {
    if defaultValue == "" then ""
    else if !IsStringType(valueType) then "=" + defaultValue
    else
      var inner := RemoveChar(defaultValue, '"');
      assert ("=\"" + inner + "\"")[2..|inner| + 2] == inner;
      "=\"" + inner + "\""
  }

  /**
   * `UMLClassAttribute.get_mermaid(align)`: the tabs and visibility, the
   * type segment, the short name, then the default segment.
   */
  function AttributeMermaid(a: UMLClassAttribute, align: int): (r: string)
    ensures StartsWith(r, Tabs(align) + a.visibility + TypeSegment(a.valueType) + ShortName(a.name))
    ensures |DefaultSegment(a.valueType, a.defaultValue)| <= |r|
    ensures r[|r| - |DefaultSegment(a.valueType, a.defaultValue)|..] == DefaultSegment(a.valueType, a.defaultValue)
    ensures |r| == |Tabs(align) + a.visibility + TypeSegment(a.valueType) + ShortName(a.name)|
                   + |DefaultSegment(a.valueType, a.defaultValue)|
  {
    var head := Tabs(align) + a.visibility + TypeSegment(a.valueType) + ShortName(a.name);
    var r := head + DefaultSegment(a.valueType, a.defaultValue);
    assert r[..|head|] == head;
    r
  }
}
