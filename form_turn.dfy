/**
 * The text a form turn sends: feedback gathered over the iterations of the
 * turn loop, joined by blank lines, and put in front of the prompt that the
 * turn ends on.
 */
module FormTurn {
  import opened Wrappers

  /** The blank line that separates pieces of feedback, and feedback from the prompt. */
  const Separator: string := "\n\n"

  /** C#'s `a + b` on strings, where a null operand reads as the empty string. */
  function Concat(a: string, b: Option<string>): string
  {
    match b
    case Some(t) => a + t
    case None => a
  }

  /** All pieces of feedback, in order, each pair separated by a blank line. */
  function Joined(pieces: seq<string>): (r: string)
    requires |pieces| > 0
    decreases |pieces|
  {
    if |pieces| == 1 then pieces[0]
    else Joined(pieces[..|pieces| - 1]) + Separator + pieces[|pieces| - 1]
  }

  /** The message of a turn: null until some iteration produced feedback. */
  function JoinAll(pieces: seq<string>): (r: Option<string>)
    ensures r.None? <==> |pieces| == 0
  {
    if |pieces| == 0 then None else Some(Joined(pieces))
  }

  /** A pass's feedback added to the message: the feedback alone at first, then after a blank line. */
  function AddFeedback(message: Option<string>, feedback: string): (r: string)
  {
    match message
    case None => feedback
    case Some(m) => m + Separator + feedback
  }

  /** Adding one more piece of feedback keeps the message equal to all pieces joined. */
  lemma AddFeedbackJoins(pieces: seq<string>, feedback: string)
    ensures AddFeedback(JoinAll(pieces), feedback) == Joined(pieces + [feedback])
  {
    var all := pieces + [feedback];
    if |pieces| > 0 {
      assert all[..|all| - 1] == pieces;
    }
  }

  /** The first piece of feedback opens the message and the last one closes it. */
  lemma {:induction false} JoinedBounds(pieces: seq<string>)
    requires |pieces| > 0
    ensures |Joined(pieces)| >= |pieces[0]| && Joined(pieces)[..|pieces[0]|] == pieces[0]
    ensures |Joined(pieces)| >= |pieces[|pieces| - 1]|
    ensures Joined(pieces)[|Joined(pieces)| - |pieces[|pieces| - 1]|..] == pieces[|pieces| - 1]
    ensures |Joined(pieces)| == SumOfLengths(pieces) + |Separator| * (|pieces| - 1)
    decreases |pieces|
  {
    if |pieces| > 1 {
      var init := pieces[..|pieces| - 1];
      JoinedBounds(init);
      assert init[0] == pieces[0];
      SumOfLengthsSnoc(init, pieces[|pieces| - 1]);
      assert init + [pieces[|pieces| - 1]] == pieces;
    }
  }

  /** The total length of the pieces. */
  function SumOfLengths(pieces: seq<string>): nat
  {
    if |pieces| == 0 then 0 else |pieces[0]| + SumOfLengths(pieces[1..])
  }

  lemma {:induction false} SumOfLengthsSnoc(pieces: seq<string>, last: string)
    ensures SumOfLengths(pieces + [last]) == SumOfLengths(pieces) + |last|
    decreases |pieces|
  {
    if |pieces| > 0 {
      assert (pieces + [last])[1..] == pieces[1..] + [last];
      SumOfLengthsSnoc(pieces[1..], last);
    }
  }

  /** The outgoing text of a turn that ends waiting for input, and the LastPrompt it leaves. */
  datatype Reply = Reply(text: Option<string>, lastPrompt: Option<string>)

  /**
   * The end of a turn that neither completed nor quit. With feedback, a
   * fresh prompt is required after it, the last prompt is repeated after it,
   * or it stands alone; without feedback the prompt is sent. LastPrompt only
   * ever holds a raw prompt, never feedback.
   */
  function ComposeReply(message: Option<string>, prompt: Option<string>, requirePrompt: bool,
                        useLastPrompt: bool, lastPrompt: Option<string>): (r: Reply)
    ensures r.text.Some? <==> message.Some? || prompt.Some?
    ensures message.Some? ==> |r.text.value| >= |message.value| && r.text.value[..|message.value|] == message.value
    ensures message.Some? && requirePrompt ==> r == Reply(Some(Concat(message.value + Separator, prompt)), prompt)
    ensures message.Some? && !requirePrompt && useLastPrompt ==>
              r == Reply(Some(Concat(message.value + Separator, lastPrompt)), lastPrompt)
    ensures message.Some? && !requirePrompt && !useLastPrompt ==> r == Reply(message, lastPrompt)
    ensures message.None? ==> r == Reply(prompt, prompt)
    ensures r.lastPrompt == lastPrompt || r.lastPrompt == prompt
  {
    match message
    case Some(m) =>
      if requirePrompt then Reply(Some(Concat(m + Separator, prompt)), prompt)
      else if useLastPrompt then Reply(Some(Concat(m + Separator, lastPrompt)), lastPrompt)
      else Reply(message, lastPrompt)
    case None => Reply(prompt, prompt)
  }

  /** How one iteration of the turn loop uses the matches it found. */
  datatype Resolution = ProcessStep | RunCommand | NotUnderstood

  /**
   * The choice between the step's own grammar and the global commands: a
   * full step match wins, then a full command match; with nothing matched
   * at all the input is not understood; otherwise the better of the two
   * candidate sets is taken, the step's on a score of 0.
   */
  function Resolve(stepFull: bool, commandFull: bool, stepCount: nat, commandCount: nat, best: int): (r: Resolution)
    ensures r == NotUnderstood <==> !stepFull && !commandFull && stepCount == 0 && commandCount == 0
    ensures stepFull ==> r == ProcessStep
    ensures r == RunCommand <==> !stepFull && (commandFull || ((stepCount > 0 || commandCount > 0) && best != 0))
  {
    if stepFull then ProcessStep
    else if commandFull then RunCommand
    else if stepCount == 0 && commandCount == 0 then NotUnderstood
    else if best == 0 then ProcessStep
    else RunCommand
  }
}
