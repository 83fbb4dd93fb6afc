/**
 * The Node prompt dialog: the recogniser that turns a reply into a prompt
 * result, the retry state machine of the Prompts dialog, and the numbered
 * list a choice prompt appends to its question.
 */
module Prompts {
  import opened Wrappers
  import opened PromptText

  datatype PromptType = Text | Number | Confirm | Choice | Time

  /** `none` is 0 in the source's enum, which makes it falsy. */
  datatype ListStyle = NoList | Inline | List

  /** How a dialog resumes its parent. */
  datatype ResumeReason = Completed | NotCompleted | Canceled

  /** A date-time entity found in the reply; `resolution` stands for the resolved instant. */
  datatype TimeEntity = TimeEntity(entity: string, resolution: real)

  /** The best choice: its index (the 1-based number for a numbered answer), the value picked, and a score. */
  datatype FoundChoice = FoundChoice(index: real, entity: Option<string>, score: real)

  datatype Response =
    | TextResponse(text: string)
    | NumberResponse(number: real)
    | BooleanResponse(answer: bool)
    | TimeResponse(time: TimeEntity)
    | ChoiceResponse(choice: FoundChoice)

  /**
   * The entity recognisers, whose code is not part of this model. A parsed
   * number is None where the source gets NaN. The number and time scores
   * are the source's length ratios, computed by floating point.
   */
  datatype EntityRecognizers = EntityRecognizers(
    parseNumber: string -> Option<real>,
    numberScore: (real, string) -> real,
    parseBoolean: string -> Option<bool>,
    recognizeTime: (string, Option<real>) -> Option<TimeEntity>,
    timeScore: (TimeEntity, string) -> real,
    findBestMatch: (Option<seq<string>>, string) -> Option<FoundChoice>,
    raises: (PromptType, string) -> Option<string>)

  /** What the recogniser is asked; compareConfidence is passed separately. */
  datatype RecognizerArgs = RecognizerArgs(
    promptType: PromptType,
    language: string,
    utterance: string,
    enumValues: Option<seq<string>>,
    refDate: Option<real>)

  /** A prompt result; the recogniser sets `handled` only on a result that is not completed. */
  datatype PromptResult = PromptResult(
    resumed: ResumeReason,
    promptType: PromptType,
    response: Option<Response>,
    handled: Option<bool>,
    error: Option<string>)

  /** The words that cancel a prompt when a reply begins with one of them. */
  const CancelWords: seq<string> := ["cancel", "nevermind", "never mind", "back", "stop", "forget it"]

  /** The test of the recogniser's cancel expression against an already trimmed reply. */
  predicate IsCanceled(text: string)
    ensures IsCanceled(text) ==> 4 <= |text|
  {
    exists k :: 0 <= k < |CancelWords| && StartsWithIgnoringCase(text, CancelWords[k])
  }

  /** checkCanceled: a canceled result when the trimmed reply begins with a cancel word, otherwise None to go on. */
  function CheckCanceled(args: RecognizerArgs): (r: Option<PromptResult>)
    ensures r.Some? <==> IsCanceled(Trim(args.utterance))
    ensures r.Some? ==> r.value == PromptResult(Canceled, args.promptType, None, None, None)
  {
    if IsCanceled(Trim(args.utterance)) then Some(PromptResult(Canceled, args.promptType, None, None, None))
    else None
  }

  /** The cancel test only looks at the start of the reply: whatever follows a reply that cancels, it still cancels. */
  lemma CancelIgnoresWhatFollows(text: string, rest: string)
    ensures IsCanceled(text) ==> IsCanceled(text + rest)
  {
  }

  /**
   * The cancel test is a prefix test that ignores case: "Back" followed by
   * anything cancels, "Backup" included.
   */
  lemma BackPrefixCancels(rest: string)
    ensures IsCanceled("Back" + rest)
  {
    var text := "Back" + rest;
    assert StartsWithIgnoringCase(text, "back") by {
      assert text[..4] == "Back";
      assert LowerAscii('B') == 'b';
    }
    assert CancelWords[3] == "back";
  }

  /** A cancel word later in the reply does not cancel: "go " followed by anything, "go back" included. */
  lemma GoPrefixDoesNotCancel(rest: string)
    ensures !IsCanceled("go " + rest)
  {
    var text := "go " + rest;
    assert text[0] == 'g' && LowerAscii('g') == 'g';
    forall k | 0 <= k < |CancelWords|
      ensures !StartsWithIgnoringCase(text, CancelWords[k])
    {
      assert CancelWords[k][0] in "cnbsf";
    }
  }

  /** A score and a response; a score of 0 means nothing was recognised. */
  datatype Scored = Scored(score: real, response: Option<Response>)

  /** The 1-based element a numbered answer names, or None where the source reads `enumValues[n - 1]` as undefined. */
  function ElementAt(values: seq<string>, n: real): (r: Option<string>)
    requires 0.0 < n <= |values| as real
    ensures r.Some? <==> n == n.Floor as real
    ensures r.Some? ==> 1 <= n.Floor <= |values| && r.value == values[n.Floor - 1]
  {
    if n == n.Floor as real then Some(values[n.Floor - 1]) else None
  }

  /**
   * The choice case: the recogniser's best match, else a number within
   * 1..|enumValues| naming a value with score 1.0. Reading the length of
   * missing enum values is the TypeError the source would throw.
   */
  function PickChoice(rec: EntityRecognizers, enumValues: Option<seq<string>>, text: string): (r: Result<Option<FoundChoice>>)
    ensures rec.findBestMatch(enumValues, text).Some? ==> r == Ok(rec.findBestMatch(enumValues, text))
    ensures rec.findBestMatch(enumValues, text).None? && enumValues.Some? ==>
      r.Ok? && (r.value.Some? <==> (rec.parseNumber(text).Some?
                                    && 0.0 < rec.parseNumber(text).value <= |enumValues.value| as real))
    ensures r.Ok? && r.value.Some? && rec.findBestMatch(enumValues, text).None? ==>
      && enumValues.Some?
      && var n := rec.parseNumber(text).value;
         r.value.value == FoundChoice(n, ElementAt(enumValues.value, n), 1.0)
    ensures r.Err? <==> rec.findBestMatch(enumValues, text).None? && enumValues.None?
                        && rec.parseNumber(text).Some? && rec.parseNumber(text).value > 0.0
  {
    match rec.findBestMatch(enumValues, text)
    case Some(best) => Ok(Some(best))
    case None =>
      match rec.parseNumber(text)
      case None => Ok(None)
      case Some(n) =>
        if !(n > 0.0) then Ok(None)
        else match enumValues
          case None => Err("TypeError: Cannot read property 'length' of undefined")
          case Some(values) =>
            if n <= |values| as real then Ok(Some(FoundChoice(n, ElementAt(values, n), 1.0))) else Ok(None)
  }

  /** The reference date handed to the time recogniser: none when the source's `refDate` is missing or 0. */
  function ReferenceDate(refDate: Option<real>): (r: Option<real>)
    ensures r.Some? <==> refDate.Some? && refDate.value != 0.0
    ensures r.Some? ==> r == refDate
  {
    match refDate
    case Some(d) => if d != 0.0 then Some(d) else None
    case None => None
  }

  /** The score and response for the trimmed reply, per prompt type; an error is an exception inside the try block. */
  function Score(args: RecognizerArgs, rec: EntityRecognizers, text: string): (r: Result<Scored>)
    ensures rec.raises(args.promptType, text).Some? ==> r == Err(rec.raises(args.promptType, text).value)
    ensures r.Ok? && args.promptType == Text ==> r.value == Scored(0.1, Some(TextResponse(text)))
    ensures r.Ok? && args.promptType == Confirm ==>
      (r.value.score > 0.0 <==> rec.parseBoolean(text).Some?)
      && (rec.parseBoolean(text).Some? ==> r.value == Scored(1.0, Some(BooleanResponse(rec.parseBoolean(text).value))))
    ensures r.Ok? && args.promptType == Number && rec.parseNumber(text).None? ==> r.value.score == 0.0
    ensures r.Ok? && args.promptType == Time && rec.recognizeTime(text, ReferenceDate(args.refDate)).None? ==>
      r.value.score == 0.0
    ensures r.Ok? && args.promptType == Choice ==>
      match PickChoice(rec, args.enumValues, text)
      case Ok(Some(best)) => r.value == Scored(best.score, Some(ChoiceResponse(best)))
      case Ok(None) => r.value.score == 0.0
      case Err(_) => false
  {
    match rec.raises(args.promptType, text)
    case Some(e) => Err(e)
    case None =>
      match args.promptType
      case Text => Ok(Scored(0.1, Some(TextResponse(text))))
      case Number =>
        (match rec.parseNumber(text)
         case Some(n) => Ok(Scored(rec.numberScore(n, text), Some(NumberResponse(n))))
         case None => Ok(Scored(0.0, None)))
      case Confirm =>
        (match rec.parseBoolean(text)
         case Some(b) => Ok(Scored(1.0, Some(BooleanResponse(b))))
         case None => Ok(Scored(0.0, None)))
      case Time =>
        (match rec.recognizeTime(text, ReferenceDate(args.refDate))
         case Some(entity) => Ok(Scored(rec.timeScore(entity, text), Some(TimeResponse(entity))))
         case None => Ok(Scored(0.0, None)))
      case Choice =>
        match PickChoice(rec, args.enumValues, text)
        case Err(e) => Err(e)
        case Ok(None) => Ok(Scored(0.0, None))
        case Ok(Some(best)) => Ok(Scored(best.score, Some(ChoiceResponse(best))))
  }

  /**
   * SimplePromptRecognizer.recognize: cancel on a cancel word; otherwise
   * score the trimmed reply and complete only when compareConfidence leaves
   * the reply unhandled and the score is positive.
   */
  function Recognize(args: RecognizerArgs, rec: EntityRecognizers, compareConfidence: (string, string, real) -> bool): (r: PromptResult)
    ensures r.promptType == args.promptType
    ensures r.resumed == Canceled <==> IsCanceled(Trim(args.utterance))
    ensures r.resumed == Canceled ==> r.response.None? && r.handled.None? && r.error.None?
    ensures r.error.Some? <==> !IsCanceled(Trim(args.utterance)) && Score(args, rec, Trim(args.utterance)).Err?
    ensures r.error.Some? ==> r.resumed == NotCompleted && r.error == Some(Score(args, rec, Trim(args.utterance)).error)
    ensures var text := Trim(args.utterance);
      !IsCanceled(text) && Score(args, rec, text).Ok? ==>
        var scored := Score(args, rec, text).value;
        var handled := compareConfidence(args.language, text, scored.score);
        (r.resumed == Completed <==> !handled && scored.score > 0.0)
        && (r.resumed == Completed ==> r.response == scored.response && r.handled.None?)
        && (r.resumed == NotCompleted ==> r.handled == Some(handled) && r.response.None?)
  {
    match CheckCanceled(args)
    case Some(canceled) => canceled
    case None =>
      var text := Trim(args.utterance);
      match Score(args, rec, text)
      case Err(e) => PromptResult(NotCompleted, args.promptType, None, None, Some(e))
      case Ok(scored) =>
        var handled := compareConfidence(args.language, text, scored.score);
        if !handled && scored.score > 0.0 then PromptResult(Completed, args.promptType, scored.response, None, None)
        else PromptResult(NotCompleted, args.promptType, None, Some(handled), None)
  }

  /** A text prompt that is not canceled completes with the trimmed reply unless compareConfidence claims it. */
  lemma TextPromptTakesTrimmedReply(args: RecognizerArgs, rec: EntityRecognizers, compareConfidence: (string, string, real) -> bool)
    requires args.promptType == Text && rec.raises(Text, Trim(args.utterance)).None?
    requires !IsCanceled(Trim(args.utterance))
    ensures var r := Recognize(args, rec, compareConfidence);
      r.resumed == Completed <==> !compareConfidence(args.language, Trim(args.utterance), 0.1)
    ensures var r := Recognize(args, rec, compareConfidence);
      r.resumed == Completed ==> r.response == Some(TextResponse(Trim(args.utterance)))
  {
  }

  /** A confirm prompt whose reply is no boolean never completes. */
  lemma ConfirmNeedsBoolean(args: RecognizerArgs, rec: EntityRecognizers, compareConfidence: (string, string, real) -> bool)
    requires args.promptType == Confirm && rec.parseBoolean(Trim(args.utterance)).None?
    ensures Recognize(args, rec, compareConfidence).resumed != Completed
  {
  }

  /** A numbered answer out of range selects nothing, so the choice prompt does not complete. */
  lemma ChoiceNumberOutOfRange(args: RecognizerArgs, rec: EntityRecognizers, compareConfidence: (string, string, real) -> bool)
    requires args.promptType == Choice && args.enumValues.Some?
    requires var text := Trim(args.utterance);
      && rec.findBestMatch(args.enumValues, text).None?
      && rec.parseNumber(text).Some?
      && !(0.0 < rec.parseNumber(text).value <= |args.enumValues.value| as real)
    ensures Recognize(args, rec, compareConfidence).resumed != Completed
  {
  }

  /** The options every prompt takes. */
  datatype PromptOptions = PromptOptions(
    retryPrompt: Option<string>,
    maxRetries: Option<int>,
    refDate: Option<real>,
    listStyle: Option<ListStyle>)

  /** The arguments of a prompt, as `begin` stores them in the dialog data. */
  datatype PromptArgs = PromptArgs(
    promptType: PromptType,
    prompt: string,
    enumValues: Option<seq<string>>,
    retryPrompt: Option<string>,
    maxRetries: Option<int>,
    refDate: Option<real>,
    listStyle: Option<ListStyle>)

  /** `maxRetries || 1`: a missing or zero count becomes 1; any other count, negative ones included, is kept. */
  function DefaultRetries(maxRetries: Option<int>): (r: int)
    ensures r != 0
    ensures maxRetries.None? || maxRetries == Some(0) ==> r == 1
    ensures maxRetries.Some? && maxRetries.value != 0 ==> r == maxRetries.value
  {
    match maxRetries
    case Some(m) => if m != 0 then m else 1
    case None => 1
  }

  /** `retryPrompt || "I didn't understand. " + prompt`: an empty retry prompt counts as missing. */
  function RetryText(args: PromptArgs): (r: string)
    ensures args.retryPrompt.Some? && args.retryPrompt.value != "" ==> r == args.retryPrompt.value
    ensures args.retryPrompt.None? || args.retryPrompt == Some("") ==>
      r == "I didn't understand. " + args.prompt && r[|r| - |args.prompt|..] == args.prompt
    ensures r != ""
  {
    match args.retryPrompt
    case Some(t) => if t != "" then t else "I didn't understand. " + args.prompt
    case None => "I didn't understand. " + args.prompt
  }

  /** What one reply does to a running prompt. */
  datatype ReplyAction = Ignore | End(result: PromptResult) | Retry(text: string)

  /**
   * replyReceived's decision: a handled result is left alone; an error, a
   * completion, a cancel or an exhausted count ends the prompt with the
   * prompt's type; anything else spends one retry and re-prompts.
   */
  function ReplyStep(args: PromptArgs, result: PromptResult): (a: ReplyAction)
    requires args.maxRetries.Some?
    ensures a.Ignore? <==> result.handled == Some(true)
    ensures a.End? <==>
      && result.handled != Some(true)
      && (result.error.Some? || result.resumed == Completed || result.resumed == Canceled || args.maxRetries.value == 0)
    ensures a.End? ==> a.result == result.(promptType := args.promptType)
    ensures a.Retry? ==> a.text == RetryText(args) && args.maxRetries.value != 0
  {
    if result.handled == Some(true) then Ignore
    else if result.error.Some? || result.resumed == Completed || result.resumed == Canceled || args.maxRetries.value == 0 then
      End(result.(promptType := args.promptType))
    else Retry(RetryText(args))
  }

  /** A prompt after a run of replies: the re-prompts it sent and the result it ended with, if any. */
  datatype Replayed = Replayed(reprompts: seq<string>, ended: Option<PromptResult>)

  /** Feeds recogniser results to a prompt one after another, stopping when it ends. */
  function Replay(args: PromptArgs, results: seq<PromptResult>): (r: Replayed)
    requires args.maxRetries.Some?
    ensures |r.reprompts| <= |results|
    ensures forall k :: 0 <= k < |r.reprompts| ==> r.reprompts[k] == RetryText(args)
    ensures r.ended.Some? ==> r.ended.value.promptType == args.promptType && |r.reprompts| < |results|
    decreases |results|
  {
    if |results| == 0 then Replayed([], None)
    else match ReplyStep(args, results[0])
      case Ignore => Replay(args, results[1..])
      case End(r) => Replayed([], Some(r))
      case Retry(t) =>
        var rest := Replay(args.(maxRetries := Some(args.maxRetries.value - 1)), results[1..]);
        rest.(reprompts := [t] + rest.reprompts)
  }

  /** A prompt never re-prompts more often than the retry count it started with. */
  lemma {:induction false} RetriesBounded(args: PromptArgs, results: seq<PromptResult>)
    requires args.maxRetries.Some? && args.maxRetries.value >= 0
    ensures |Replay(args, results).reprompts| <= args.maxRetries.value
    decreases |results|
  {
    if |results| > 0 {
      match ReplyStep(args, results[0])
      case Ignore => RetriesBounded(args, results[1..]);
      case End(_) =>
      case Retry(_) => RetriesBounded(args.(maxRetries := Some(args.maxRetries.value - 1)), results[1..]);
    }
  }

  /** More unhandled replies than the retry count end the prompt. */
  lemma {:induction false} UnhandledRepliesEnd(args: PromptArgs, results: seq<PromptResult>)
    requires args.maxRetries.Some? && args.maxRetries.value >= 0
    requires |results| > args.maxRetries.value
    requires forall k :: 0 <= k < |results| ==> results[k].handled != Some(true)
    ensures Replay(args, results).ended.Some?
    decreases |results|
  {
    match ReplyStep(args, results[0])
    case Ignore =>
    case End(_) =>
    case Retry(_) => UnhandledRepliesEnd(args.(maxRetries := Some(args.maxRetries.value - 1)), results[1..]);
  }

  /** The effective list style of a choice prompt: `listStyle || ListStyle.list`. */
  function EffectiveStyle(style: Option<ListStyle>): (r: ListStyle)
    ensures r != NoList
    ensures style == Some(Inline) <==> r == Inline
  {
    match style
    case Some(Inline) => Inline
    case _ => List
  }

  /** The text of the `i`-th (0-based) choice: its 1-based number, a dot, a space and the value. */
  function Item(i: nat, value: string): string
  {
    NatToString(i + 1) + ". " + value
  }

  /** The inline connector written after item `i` of `n`, before the next item. */
  function InlineConnector(i: nat, n: nat): (r: string)
    ensures i + 2 == n && i == 0 ==> r == " or "
    ensures i + 2 == n && i > 0 ==> r == ", or "
    ensures i + 2 != n ==> r == ", "
  {
    if i + 2 == n then (if i == 0 then " or " else ", or ") else ", "
  }

  /** The list style after the first `k` values: "\n   " then the items, one per line. */
  function ListedUpTo(values: seq<string>, k: nat): (r: string)
    requires k <= |values|
    ensures 4 <= |r| && r[..4] == "\n   "
    ensures k > 0 ==> var last := Item(k - 1, values[k - 1]); |last| <= |r| && r[|r| - |last|..] == last
  {
    if k == 0 then "\n   "
    else ListedUpTo(values, k - 1) + (if k == 1 then "" else "\n   ") + Item(k - 1, values[k - 1])
  }

  /** The inline style after the first `k` values: " " then the items and the connectors between them. */
  function InlineUpTo(values: seq<string>, k: nat): (r: string)
    requires k <= |values|
    ensures 1 <= |r| && r[0] == ' '
  {
    if k == 0 then " "
    else InlineUpTo(values, k - 1) + (if k == 1 then "" else InlineConnector(k - 2, |values|)) + Item(k - 1, values[k - 1])
  }

  /** The text a choice prompt appends to its question. */
  function ChoiceList(style: ListStyle, values: seq<string>): string
  {
    match style
    case Inline => InlineUpTo(values, |values|)
    case _ => ListedUpTo(values, |values|)
  }

  /** Every value on a line of its own, each line opened by "\n   ". */
  function Lines(values: seq<string>, k: nat): string
    requires k <= |values|
  {
    if k == 0 then "" else Lines(values, k - 1) + "\n   " + Item(k - 1, values[k - 1])
  }

  /** `pieces` joined by `sep`. */
  function JoinWith(pieces: seq<string>, sep: string): string
  {
    if |pieces| == 0 then ""
    else if |pieces| == 1 then pieces[0]
    else JoinWith(pieces[..|pieces| - 1], sep) + sep + pieces[|pieces| - 1]
  }

  /** The items of the first `k` values. */
  function Items(values: seq<string>, k: nat): (r: seq<string>)
    requires k <= |values|
    ensures |r| == k && forall i :: 0 <= i < k ==> r[i] == Item(i, values[i])
  {
    if k == 0 then [] else Items(values, k - 1) + [Item(k - 1, values[k - 1])]
  }

  /** With at least one value, the list style is exactly one line per value. */
  lemma {:induction false} ListedIsOneLinePerValue(values: seq<string>, k: nat)
    requires 0 < k <= |values|
    ensures ListedUpTo(values, k) == Lines(values, k)
    decreases k
  {
    if k > 1 {
      ListedIsOneLinePerValue(values, k - 1);
    }
  }

  /** Before the last value, inline items are separated by ", ". */
  lemma {:induction false} InlinePrefixIsCommaSeparated(values: seq<string>, k: nat)
    requires k < |values|
    ensures InlineUpTo(values, k) == " " + JoinWith(Items(values, k), ", ")
    decreases k
  {
    if k > 1 {
      InlinePrefixIsCommaSeparated(values, k - 1);
      var items := Items(values, k);
      assert items[..k - 1] == Items(values, k - 1);
      assert InlineConnector(k - 2, |values|) == ", ";
      calc {
        InlineUpTo(values, k);
        InlineUpTo(values, k - 1) + ", " + Item(k - 1, values[k - 1]);
        " " + JoinWith(Items(values, k - 1), ", ") + ", " + items[k - 1];
        " " + (JoinWith(items[..k - 1], ", ") + ", " + items[k - 1]);
      }
    } else if k == 1 {
      assert Items(values, 1) == [Item(0, values[0])];
    }
  }

  /**
   * The inline style: one value alone; two joined by " or "; three or
   * more separated by ", " with ", or " before the last.
   */
  lemma InlineShape(values: seq<string>)
    requires |values| > 0
    ensures var n := |values|;
      InlineUpTo(values, n) ==
        if n == 1 then " " + Item(0, values[0])
        else " " + JoinWith(Items(values, n - 1), ", ") + (if n == 2 then " or " else ", or ") + Item(n - 1, values[n - 1])
  {
    InlinePrefixIsCommaSeparated(values, |values| - 1);
  }

  /** The two-value inline list of the source's own example. */
  lemma InlineOfTwo(a: string, b: string)
    ensures InlineUpTo([a, b], 2) == " 1. " + a + " or 2. " + b
  {
    assert NatToString(1) == "1" && NatToString(2) == "2";
    assert InlineUpTo([a, b], 1) == " " + "1. " + a;
    assert InlineConnector(0, 2) == " or ";
  }

  /** A three-value inline list. */
  lemma InlineOfThree(a: string, b: string, c: string)
    ensures InlineUpTo([a, b, c], 3) == " 1. " + a + ", 2. " + b + ", or 3. " + c
  {
    assert NatToString(1) == "1" && NatToString(2) == "2" && NatToString(3) == "3";
    assert InlineUpTo([a, b, c], 1) == " " + "1. " + a;
    assert InlineConnector(0, 3) == ", ";
    assert InlineUpTo([a, b, c], 2) == " 1. " + a + ", " + "2. " + b;
    assert InlineConnector(1, 3) == ", or ";
  }

  /** The forEach of the list style: a connector of "\n   " before every item but the first. */
  method FormatListed(values: seq<string>) returns (list: string)
    ensures list == ListedUpTo(values, |values|)
    ensures |values| > 0 ==> list == Lines(values, |values|)
  {
    var connector := "";
    list := "\n   ";
    var index := 0;
    while index < |values|
      invariant 0 <= index <= |values|
      invariant list == ListedUpTo(values, index)
      invariant connector == if index == 0 then "" else "\n   "
    {
      var item := NatToString(index + 1) + ". " + values[index];
      list := list + connector + item;
      connector := "\n   ";
      index := index + 1;
    }
    if |values| > 0 {
      ListedIsOneLinePerValue(values, |values|);
    }
  }

  /** The forEach of the inline style: ", " between items, " or " or ", or " before the last. */
  method FormatInline(values: seq<string>) returns (list: string)
    ensures list == InlineUpTo(values, |values|)
  {
    var connector := "";
    list := " ";
    var index := 0;
    while index < |values|
      invariant 0 <= index <= |values|
      invariant list == InlineUpTo(values, index)
      invariant connector == if index == 0 then "" else InlineConnector(index - 1, |values|)
    {
      var item := NatToString(index + 1) + ". " + values[index];
      list := list + connector + item;
      if index == |values| - 2 {
        connector := if index == 0 then " or " else ", or ";
      } else {
        connector := ", ";
      }
      index := index + 1;
    }
  }

  /**
   * Prompts.choice: the choice prompt's arguments, its question followed by
   * the numbered list of values in the effective list style.
   */
  method ChoiceArgs(prompt: string, enumValues: seq<string>, options: PromptOptions) returns (args: PromptArgs)
    ensures args.promptType == Choice && args.enumValues == Some(enumValues)
    ensures args.listStyle == Some(EffectiveStyle(options.listStyle))
    ensures args.prompt == prompt + ChoiceList(EffectiveStyle(options.listStyle), enumValues)
    ensures args.retryPrompt == options.retryPrompt && args.maxRetries == options.maxRetries
    ensures args.refDate == options.refDate
  {
    var style := EffectiveStyle(options.listStyle);
    var list: string;
    if style == List {
      list := FormatListed(enumValues);
    } else {
      list := FormatInline(enumValues);
    }
    args := PromptArgs(Choice, prompt + list, Some(enumValues), options.retryPrompt, options.maxRetries,
                       options.refDate, Some(style));
  }

  /** A prompt dialog in one conversation: its dialog data, what it has sent, and how it ended. */
  class PromptDialog {
    var dialogData: PromptArgs
    var sent: seq<string>
    var ended: Option<PromptResult>

    /** A prompt dialog that has not begun. */
    constructor ()
      ensures dialogData.maxRetries.None? && sent == [] && ended.None?
    {
      dialogData := PromptArgs(Text, "", None, None, None, None, None);
      sent := [];
      ended := None;
    }

    /** begin: store the arguments with the defaulted retry count and send the prompt. */
    method Begin(args: PromptArgs)
      modifies this
      ensures dialogData == args.(maxRetries := Some(DefaultRetries(args.maxRetries)))
      ensures sent == old(sent) + [args.prompt] && ended == old(ended)
    {
      dialogData := args.(maxRetries := Some(DefaultRetries(args.maxRetries)));
      sent := sent + [args.prompt];
    }

    /** replyReceived: recognise the reply, then ignore it, end the prompt, or spend a retry and re-prompt. */
    method ReplyReceived(utterance: string, language: string, rec: EntityRecognizers,
                         compareConfidence: (string, string, real) -> bool)
      requires dialogData.maxRetries.Some? && ended.None?
      modifies this
      ensures var result := Recognize(RecognizerArgs(old(dialogData).promptType, language, utterance,
                                                     old(dialogData).enumValues, old(dialogData).refDate),
                                      rec, compareConfidence);
        match ReplyStep(old(dialogData), result)
        case Ignore => dialogData == old(dialogData) && sent == old(sent) && ended.None?
        case End(r) => dialogData == old(dialogData) && sent == old(sent) && ended == Some(r)
        case Retry(t) =>
          && dialogData == old(dialogData).(maxRetries := Some(old(dialogData).maxRetries.value - 1))
          && sent == old(sent) + [t] && ended.None?
    {
      var args := dialogData;
      var result := Recognize(RecognizerArgs(args.promptType, language, utterance, args.enumValues, args.refDate),
                              rec, compareConfidence);
      match ReplyStep(args, result) {
        case Ignore =>
        case End(r) =>
          ended := Some(r);
        case Retry(t) =>
          dialogData := dialogData.(maxRetries := Some(dialogData.maxRetries.value - 1));
          sent := sent + [t];
      }
    }
  }
}
