/**
 * The riddle form of the NeuroMatrix gateway page: submitting an answer
 * bumps the attempt counter optimistically, asks the server to increment
 * the global counter, adopts the server's count and latest task from the
 * reply, and grants access when the answer is "red" in any letter case.
 * The HTTP exchange is a parameter: the reply the page receives.
 */
module Gateway {
  import opened Wrappers

  /**
   * The parts of the counter endpoint's JSON reply the page reads:
   * `counter.attempts` and `latestTask.content`, each absent when the reply
   * lacks that object (the error reply has neither).
   */
  datatype CounterReply = CounterReply(counterAttempts: Option<nat>, taskContent: Option<string>)

  /** The riddle's answer, compared after lower-casing. */
  const RiddleAnswer := "red"

  /** Lower-cases one character (ASCII letters only). */
  function LowerChar(c: char): (l: char)
    ensures 'A' <= c <= 'Z' ==> l as int == c as int + 32
    ensures !('A' <= c <= 'Z') ==> l == c
  {
    if 'A' <= c <= 'Z' then (c as int + 32) as char else c
  }

  /** `toLowerCase`: the string with each character lower-cased. */
  function ToLower(s: string): (r: string)
    ensures |r| == |s|
    ensures forall i :: 0 <= i < |s| ==> r[i] == LowerChar(s[i])
  {
    if s == [] then [] else [LowerChar(s[0])] + ToLower(s[1..])
  }

  predicate IsRiddleAnswer(answer: string)
  {
    ToLower(answer) == RiddleAnswer
  }

  /** The accepted answers are exactly the eight capitalisations of "red". */
  lemma RiddleAnswerCases(answer: string)
    ensures IsRiddleAnswer(answer) <==>
              && |answer| == 3
              && (answer[0] == 'r' || answer[0] == 'R')
              && (answer[1] == 'e' || answer[1] == 'E')
              && (answer[2] == 'd' || answer[2] == 'D')
  {
  }

  /**
   * The attempt count once the reply is in. `seen` is the count the submit
   * handler captured when it started and `local` the count now shown. When
   * the shown count is the optimistic `seen + 1`, the result is the server's
   * count whenever the reply carries one: the `!==` test only skips an
   * update that would change nothing.
   */
  function Reconciled(seen: nat, local: nat, reply: Option<CounterReply>): (n: nat)
    ensures reply.Some? && reply.value.counterAttempts.Some? ==>
              var server := reply.value.counterAttempts.value;
              && (local == seen + 1 ==> n == server)
              && (server != seen + 1 ==> n == server)
              && (server == seen + 1 ==> n == local)
    ensures !(reply.Some? && reply.value.counterAttempts.Some?) ==> n == local
  {
    match reply
    case Some(CounterReply(Some(server), _)) => if server != seen + 1 then server else local
    case _ => local
  }

  /** The latest task shown once the reply is in. */
  function TaskAfter(shown: Option<string>, reply: Option<CounterReply>): (t: Option<string>)
    ensures reply.Some? && reply.value.taskContent.Some? ==> t == reply.value.taskContent
    ensures !(reply.Some? && reply.value.taskContent.Some?) ==> t == shown
  {
    match reply
    case Some(CounterReply(_, Some(content))) => Some(content)
    case _ => shown
  }

  /** A request that threw leaves the page as an error reply with neither object does. */
  lemma FailedRequestIsEmptyReply(seen: nat, local: nat, shown: Option<string>)
    ensures Reconciled(seen, local, None) == Reconciled(seen, local, Some(CounterReply(None, None))) == local
    ensures TaskAfter(shown, None) == TaskAfter(shown, Some(CounterReply(None, None))) == shown
  {
  }

  class RiddleForm {
    var answer: string
    var isCorrect: bool
    var attempts: nat
    var latestTask: Option<string>
    var isSubmitting: bool

    constructor ()
      ensures answer == "" && !isCorrect && attempts == 0 && latestTask == None && !isSubmitting
    {
      answer, isCorrect, attempts, latestTask, isSubmitting := "", false, 0, None, false;
    }

    /** Typing into the answer field, which is disabled during a submission. */
    method EditAnswer(text: string)
      requires !isSubmitting
      modifies this
      ensures answer == text
      ensures isCorrect == old(isCorrect) && attempts == old(attempts)
      ensures latestTask == old(latestTask) && isSubmitting == old(isSubmitting)
    {
      answer := text;
    }

    /**
     * `handleSubmit` up to the request: the form is locked and the shown
     * count goes up by one before any reply is seen. Returns the count the
     * handler captured.
     */
    method BeginSubmit() returns (seen: nat)
      requires !isSubmitting
      modifies this
      ensures seen == old(attempts)
      ensures isSubmitting && attempts == old(attempts) + 1
      ensures answer == old(answer) && isCorrect == old(isCorrect) && latestTask == old(latestTask)
    {
      isSubmitting := true;
      seen := attempts;
      attempts := attempts + 1;
    }

    /**
     * `handleSubmit` after the request, given its reply (None when the
     * request or the JSON decoding threw): reconcile the count, take the
     * latest task, unlock the form, then check the riddle whatever the
     * request's fate. A right answer grants access; a wrong one never
     * revokes it.
     */
    method CompleteSubmit(seen: nat, reply: Option<CounterReply>)
      requires isSubmitting
      modifies this
      ensures attempts == Reconciled(seen, old(attempts), reply)
      ensures latestTask == TaskAfter(old(latestTask), reply)
      ensures !isSubmitting
      ensures isCorrect == (old(isCorrect) || IsRiddleAnswer(answer))
      ensures answer == old(answer)
    {
      if reply.Some? {
        var data := reply.value;
        if data.counterAttempts.Some? {
          if data.counterAttempts.value != seen + 1 {
            attempts := data.counterAttempts.value;
          }
        }
        if data.taskContent.Some? {
          latestTask := data.taskContent;
        }
      }
      isSubmitting := false;
      if ToLower(answer) == RiddleAnswer {
        isCorrect := true;
      }
    }

    /** One whole submission, from the click to the end of the handler. */
    method HandleSubmit(reply: Option<CounterReply>)
      requires !isSubmitting
      modifies this
      ensures attempts == if reply.Some? && reply.value.counterAttempts.Some?
                          then reply.value.counterAttempts.value
                          else old(attempts) + 1
      ensures latestTask == TaskAfter(old(latestTask), reply)
      ensures !isSubmitting
      ensures isCorrect == (old(isCorrect) || IsRiddleAnswer(answer))
      ensures old(isCorrect) ==> isCorrect
      ensures answer == old(answer)
    {
      var seen := BeginSubmit();
      CompleteSubmit(seen, reply);
    }
  }

  /** Any capitalisation of "red" opens the gateway, whatever the server says. */
  method SolveWithUppercase(reply: Option<CounterReply>) returns (granted: bool)
    ensures granted
  {
    var form := new RiddleForm();
    form.EditAnswer("RED");
    form.HandleSubmit(reply);
    granted := form.isCorrect;
  }
}
