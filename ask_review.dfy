/**
 * The human review step of `metagpt/actions/ask_review.py`: a prompt naming
 * the latest action and the review kind, and the reading of the reply as
 * "exit", "confirmed" or "change requested".
 */
module AskReview {
  import opened Strings
  import opened Schema

  const TaskReviewTrigger: string := "task"
  const CodeReviewTrigger: string := "code"
  const ContinueWords: seq<string> := ["confirm", "continue", "c", "yes", "y"]
  const ChangeWords: seq<string> := ["change"]
  const ExitWords: seq<string> := ["exit"]

  const TaskReviewInstruction: string :=
    "If you want to change, add, delete a task or merge tasks in the plan, say '" + ChangeWords[0]
    + " task task_id or current task, ... (things to change)' "
    + "If you confirm the output from the current task and wish to continue, type: " + ContinueWords[0]
  const CodeReviewInstruction: string :=
    "If you want the codes to be rewritten, say '" + ChangeWords[0] + " ... (your change advice)' "
    + "If you want to leave it as is, type: " + ContinueWords[0] + " or " + ContinueWords[1]
  const ExitInstruction: string := "If you want to terminate the process, type: " + ExitWords[0]

  /** The outcome of a review: the process exits, or the reply with its confirmation flag. */
  datatype Review = Exit | Reviewed(reply: string, confirmed: bool)

  /** The `cause_by` of the last context message, or "" when there is none. */
  function LatestAction(context: seq<Message>): (a: string)
    ensures context == [] ==> a == ""
    ensures context != [] ==> a == context[|context| - 1].causeBy
  {
    if context != [] && context[|context| - 1].causeBy != "" then context[|context| - 1].causeBy else ""
  }

  /** The task instruction for the "task" trigger, the code instruction for any other. */
  function ReviewInstruction(trigger: string): (s: string)
    ensures trigger == TaskReviewTrigger ==> s == TaskReviewInstruction
    ensures trigger != TaskReviewTrigger ==> s == CodeReviewInstruction
  {
    if trigger == TaskReviewTrigger then TaskReviewInstruction else CodeReviewInstruction
  }

  /** The prompt shown to the reviewer. */
  function Prompt(context: seq<Message>, trigger: string): (p: string)
    ensures StartsWith(p, "This is a <" + trigger + "> review. Please review output from " + LatestAction(context) + "\n")
    ensures Contains(p, ReviewInstruction(trigger)) && Contains(p, ExitInstruction)
  {
    var head := "This is a <" + trigger + "> review. Please review output from " + LatestAction(context) + "\n";
    var instruction := ReviewInstruction(trigger);
    var tail := "\nPlease type your review below:\n";
    ContainsSecondAndFourth(head, instruction, "\n", ExitInstruction, tail);
    head + instruction + "\n" + ExitInstruction + tail
  }

  /**
   * How a reply is read: exactly "exit" in any case ends the process; a
   * reply is confirmed when, lower-cased, it is one of the continue words
   * or contains "confirm".
   */
  function Classify(reply: string): (r: Review)
    ensures r.Exit? <==> Lower(reply) in ExitWords
    ensures r.Reviewed? ==> r.reply == reply
    ensures r.Reviewed? ==> (r.confirmed <==> Lower(reply) in ContinueWords || Contains(Lower(reply), ContinueWords[0]))
  {
    var l := Lower(reply);
    if l in ExitWords then Exit
    else Reviewed(reply, l in ContinueWords || Contains(l, ContinueWords[0]))
  }

  /** `run`: the reviewer's reply to the prompt (from `input`), classified. */
  function Run(context: seq<Message>, trigger: string, input: string -> string): (r: Review)
    ensures var reply := input(Prompt(context, trigger));
      (r.Exit? <==> Lower(reply) == ExitWords[0])
      && (r.Reviewed? ==> r.reply == reply
                          && (r.confirmed <==> Lower(reply) in ContinueWords || Contains(Lower(reply), ContinueWords[0])))
  {
    Classify(input(Prompt(context, trigger)))
  }

  /** The classification depends only on the lower-cased reply. */
  lemma ClassifyIgnoresCase(a: string, b: string)
    requires Lower(a) == Lower(b)
    ensures Classify(a).Exit? == Classify(b).Exit?
    ensures Classify(a).Reviewed? ==> Classify(a).confirmed == Classify(b).confirmed
  {
  }

  /** Each continue word confirms, whatever its case. */
  lemma ContinueWordsConfirm(reply: string)
    requires Lower(reply) in ContinueWords
    ensures Classify(reply) == Reviewed(reply, true)
  {
  }

  /** Any sentence mentioning "confirm" confirms, and never exits. */
  lemma ConfirmSentenceConfirms(reply: string, i: int)
    requires OccursAt(Lower(reply), "confirm", i)
    ensures Classify(reply) == Reviewed(reply, true)
  {
    OccursContained(Lower(reply), "confirm", i);
  }

  lemma ExitInAnyCase()
    ensures Classify("EXIT") == Exit
  {
    assert Lower("EXIT") == "exit";
  }

  lemma YesConfirms()
    ensures Classify("Yes") == Reviewed("Yes", true)
  {
    assert Lower("Yes") == "yes";
  }

  lemma ConfirmWithChangeConfirms()
    ensures Classify("Confirm, then change task 3") == Reviewed("Confirm, then change task 3", true)
  {
    ConfirmSentenceConfirms("Confirm, then change task 3", 0);
  }

  lemma ChangeRequestNotConfirmed()
    ensures Classify("change task 2") == Reviewed("change task 2", false)
  {
    MissingCharNotContained(Lower("change task 2"), "confirm", 3);
  }

  /** Only the exact word exits: a sentence starting with "exit" is an ordinary reply. */
  lemma ExitSentenceDoesNotExit()
    ensures Classify("exit now") == Reviewed("exit now", false)
  {
    MissingCharNotContained(Lower("exit now"), "confirm", 0);
  }

  /** Continue words other than "confirm" must be the whole reply: "yes please" is not a confirmation. */
  lemma YesPleaseNotConfirmed()
    ensures Classify("yes please") == Reviewed("yes please", false)
  {
    MissingCharNotContained(Lower("yes please"), "confirm", 0);
  }
}
