/**
 * The conversation memory of `metagpt/memory/brain_memory.py`: a history
 * of tagged messages, a rolling summary that replaces the history, the
 * text views built from them, and the key the memory is stored under.
 */
module BrainMemories {
  import opened Base
  import opened Strings
  import opened Schema

  const TalkTag: string := "TALK"
  const SolutionTag: string := "SOLUTION"
  const ProblemTag: string := "PROBLEM"
  const SkillTag: string := "SKILL"
  const AnswerTag: string := "ANSWER"

  /** A stored message with its tags. */
  datatype Entry = Entry(msg: Message, tags: set<string>)

  function Contents(entries: seq<Entry>): (r: seq<string>)
    ensures |r| == |entries| && forall i :: 0 <= i < |entries| ==> r[i] == entries[i].msg.content
  {
    seq(|entries|, i requires 0 <= i < |entries| => entries[i].msg.content)
  }

  /**
   * `history_text`: empty for an empty history; otherwise the summary (if
   * any) and the contents of every entry but the last, one per line.
   */
  function HistoryTextOf(summary: string, history: seq<Entry>): (t: string)
    ensures history == [] ==> t == ""
    ensures history != [] && summary == "" && |history| == 1 ==> t == ""
    ensures history != [] && summary != "" ==> StartsWith(t, summary)
  {
    if history == [] then ""
    else
      var texts := (if summary != "" then [summary] else []) + Contents(history[..|history| - 1]);
      if summary != "" then
        assert texts[0] == summary;
        JoinStartsWithFirst(texts, "\n");
        Join(texts, "\n")
      else Join(texts, "\n")
  }

  /** Every entry but the last is quoted in the history text, and so is the summary. */
  lemma HistoryTextQuotes(summary: string, history: seq<Entry>, i: nat)
    requires i + 1 < |history|
    ensures Contains(HistoryTextOf(summary, history), history[i].msg.content)
  {
    var prefix := if summary != "" then [summary] else [];
    var texts := prefix + Contents(history[..|history| - 1]);
    assert texts[|prefix| + i] == history[i].msg.content;
    JoinContainsPart(texts, "\n", |prefix| + i);
  }

  /** Adding an entry brings the previous last entry into the history text. */
  lemma HistoryTextAfterAppend(summary: string, history: seq<Entry>, e: Entry)
    requires history != []
    ensures Contains(HistoryTextOf(summary, history + [e]), history[|history| - 1].msg.content)
  {
    HistoryTextQuotes(summary, history + [e], |history| - 1);
  }

  /**
   * The history text grows line by line: one more entry brings in the
   * previously last entry, after a "\n" unless the text had no line yet.
   */
  lemma HistoryTextAppend(summary: string, history: seq<Entry>, e: Entry)
    ensures history == [] ==> HistoryTextOf(summary, [e]) == summary
    ensures history != [] && summary == "" && |history| == 1 ==>
      HistoryTextOf(summary, history + [e]) == history[0].msg.content
    ensures history != [] && !(summary == "" && |history| == 1) ==>
      HistoryTextOf(summary, history + [e]) == HistoryTextOf(summary, history) + "\n" + history[|history| - 1].msg.content
  {
    var prefix := if summary != "" then [summary] else [];
    var h := history + [e];
    assert h[..|h| - 1] == history;
    if history != [] {
      var init := history[..|history| - 1];
      var last := history[|history| - 1].msg.content;
      assert Contents(history) == Contents(init) + [last];
      assert prefix + Contents(history) == (prefix + Contents(init)) + [last];
      if !(summary == "" && |history| == 1) {
        JoinAppend(prefix + Contents(init), last, "\n");
      } else {
        assert prefix + Contents(history) == [last];
      }
    } else {
      assert prefix + Contents(history) == prefix;
    }
  }

  /** `get_knowledge`: the knowledge contents, one per line. */
  function KnowledgeTextOf(knowledge: seq<Entry>): (t: string)
    ensures knowledge == [] ==> t == ""
    ensures |knowledge| == 1 ==> t == knowledge[0].msg.content
    ensures forall i :: 0 <= i < |knowledge| ==> Contains(t, knowledge[i].msg.content)
  {
    var texts := Contents(knowledge);
    forall i | 0 <= i < |knowledge|
      ensures Contains(Join(texts, "\n"), knowledge[i].msg.content)
    {
      JoinContainsPart(texts, "\n", i);
    }
    Join(texts, "\n")
  }

  /** The knowledge text grows line by line, in the order the knowledge is kept. */
  lemma KnowledgeTextAppend(knowledge: seq<Entry>, e: Entry)
    requires knowledge != []
    ensures KnowledgeTextOf(knowledge + [e]) == KnowledgeTextOf(knowledge) + "\n" + e.msg.content
  {
    assert Contents(knowledge + [e]) == Contents(knowledge) + [e.msg.content];
    JoinAppend(Contents(knowledge), e.msg.content, "\n");
  }

  /** `last_talk`: the content of the last entry when it is tagged TALK. */
  function LastTalkOf(history: seq<Entry>): (r: Option<string>)
    ensures r.Some? <==> history != [] && TalkTag in history[|history| - 1].tags
    ensures r.Some? ==> r.value == history[|history| - 1].msg.content
  {
    if history == [] || TalkTag !in history[|history| - 1].tags then None
    else Some(history[|history| - 1].msg.content)
  }

  /** `to_redis_key`: prefix, chat id, then user id, separated by ':'. */
  function ToRedisKey(prefix: string, userId: string, chatId: string): (k: string)
    ensures |k| == |prefix| + |chatId| + |userId| + 2
    ensures k[..|prefix| + 1] == prefix + ":" && k[|prefix| + 1..|prefix| + |chatId| + 2] == chatId + ":"
    ensures k[|k| - |userId|..] == userId
  {
    prefix + ":" + chatId + ":" + userId
  }

  /** A colon-free head before the first ':' is fixed by the text. */
  lemma SplitAtColon(a1: string, t1: string, a2: string, t2: string)
    requires ':' !in a1 && ':' !in a2
    requires a1 + ":" + t1 == a2 + ":" + t2
    ensures a1 == a2 && t1 == t2
  {
    BeforeFirstOfHead(a1, ':', t1);
    BeforeFirstOfHead(a2, ':', t2);
    var k := a1 + ":" + t1;
    assert k[|a1| + 1..] == t1;
    assert k[|a2| + 1..] == t2;
  }

  /** With colon-free parts the key determines prefix, user and chat. */
  lemma RedisKeyInjective(p1: string, u1: string, c1: string, p2: string, u2: string, c2: string)
    requires ':' !in p1 && ':' !in c1 && ':' !in p2 && ':' !in c2
    requires ToRedisKey(p1, u1, c1) == ToRedisKey(p2, u2, c2)
    ensures p1 == p2 && u1 == u2 && c1 == c2
  {
    assert ToRedisKey(p1, u1, c1) == p1 + ":" + (c1 + ":" + u1);
    assert ToRedisKey(p2, u2, c2) == p2 + ":" + (c2 + ":" + u2);
    SplitAtColon(p1, c1 + ":" + u1, p2, c2 + ":" + u2);
    SplitAtColon(c1, u1, c2, u2);
  }

  /** Python `int(s)` for an optional sign followed by ASCII digits. */
  function ParseInt(s: string): (r: Option<int>)
    ensures IsDigits(s) ==> r == Some(ParseDecimal(s))
    ensures |s| > 0 && s[0] == '-' && IsDigits(s[1..]) ==> r == Some(-(ParseDecimal(s[1..]) as int))
    ensures |s| > 0 && s[0] == '+' && IsDigits(s[1..]) ==> r == Some(ParseDecimal(s[1..]))
    ensures r.None? <==> !(IsDigits(s) || (|s| > 0 && (s[0] == '-' || s[0] == '+') && IsDigits(s[1..])))
    ensures s == "" ==> r == None
  {
    if |s| > 0 && (s[0] == '-' || s[0] == '+') && IsDigits(s[1..]) then
      Some(if s[0] == '-' then -(ParseDecimal(s[1..]) as int) else ParseDecimal(s[1..]))
    else if IsDigits(s) then Some(ParseDecimal(s))
    else None
  }

  lemma ParseIntOfDecimal(n: nat)
    ensures ParseInt(NatToDecimal(n)) == Some(n)
    ensures ParseInt("-" + NatToDecimal(n)) == Some(-(n as int))
  {
    ParseDecimalOfNatToDecimal(n);
    assert ("-" + NatToDecimal(n))[1..] == NatToDecimal(n);
  }

  class BrainMemory {
    var history: seq<Entry>
    var knowledge: seq<Entry>
    var historicalSummary: string
    var lastHistoryId: string
    var isDirty: bool

    constructor ()
      ensures history == [] && knowledge == [] && historicalSummary == ""
      ensures lastHistoryId == "" && !isDirty
    {
      history := [];
      knowledge := [];
      historicalSummary := "";
      lastHistoryId := "";
      isDirty := false;
    }

    function HistoryText(): string
      reads this
    {
      HistoryTextOf(historicalSummary, history)
    }

    function LastTalk(): Option<string>
      reads this
    {
      LastTalkOf(history)
    }

    function GetKnowledge(): string
      reads this
    {
      KnowledgeTextOf(knowledge)
    }

    /** `add_talk`: the message, tagged TALK, joins the history, which becomes dirty. */
    method AddTalk(e: Entry)
      modifies this`history, this`isDirty
      ensures history == old(history) + [Entry(e.msg, e.tags + {TalkTag})] && isDirty
      ensures LastTalk() == Some(e.msg.content)
    {
      history := history + [Entry(e.msg, e.tags + {TalkTag})];
      isDirty := true;
    }

    /** `add_answer`: the message, tagged ANSWER, joins the history, which becomes dirty. */
    method AddAnswer(e: Entry)
      modifies this`history, this`isDirty
      ensures history == old(history) + [Entry(e.msg, e.tags + {AnswerTag})] && isDirty
      ensures LastTalk().Some? <==> TalkTag in e.tags
    {
      history := history + [Entry(e.msg, e.tags + {AnswerTag})];
      isDirty := true;
    }

    /**
     * `add_history`: a message with an id older than the last history id
     * is skipped; any other joins the history. A non-empty id that is not
     * an integer, or a last history id that is not one (it starts as ""),
     * raises ValueError. The last history id itself is never advanced.
     */
    method AddHistory(e: Entry) returns (r: Result<bool>)
      modifies this`history, this`isDirty
      ensures r.Err? <==> e.msg.id != "" && (ParseInt(e.msg.id).None? || ParseInt(lastHistoryId).None?)
      ensures r.Err? ==> r.error.ValueError?
      ensures lastHistoryId == "" && e.msg.id != "" ==> r.Err?
      ensures r == Ok(false) <==>
        e.msg.id != "" && ParseInt(e.msg.id).Some? && ParseInt(lastHistoryId).Some?
        && ParseInt(e.msg.id).value < ParseInt(lastHistoryId).value
      ensures r == Ok(true) ==> history == old(history) + [e] && isDirty
      ensures r != Ok(true) ==> history == old(history) && isDirty == old(isDirty)
    {
      if e.msg.id != "" {
        var id := ParseInt(e.msg.id);
        if id.None? {
          return Err(ValueError("invalid literal for int() with base 10: '" + e.msg.id + "'"));
        }
        var last := ParseInt(lastHistoryId);
        if last.None? {
          return Err(ValueError("invalid literal for int() with base 10: '" + lastHistoryId + "'"));
        }
        if id.value < last.value {
          return Ok(false);
        }
      }
      history := history + [e];
      isDirty := true;
      return Ok(true);
    }

    /**
     * `set_history_summary`: the current summary changes nothing; a new
     * one replaces it and empties the history, which is then clean.
     */
    method SetHistorySummary(summary: string)
      modifies this`historicalSummary, this`history, this`isDirty
      ensures summary == old(historicalSummary) ==>
        historicalSummary == old(historicalSummary) && history == old(history) && isDirty == old(isDirty)
      ensures summary != old(historicalSummary) ==>
        historicalSummary == summary && history == [] && !isDirty
      ensures HistoryText() == (if summary == old(historicalSummary) then old(HistoryText()) else "")
    {
      if historicalSummary == summary {
        return;
      }
      historicalSummary := summary;
      history := [];
      isDirty := false;
    }
  }
}
