# Form dialog and prompt engine of the Bot Builder SDK, in Dafny

This project models two conversation engines of the Bot Builder SDK:

- **The C# form dialog** (`FormDialog<T>`). It walks a user through the steps of a form one message at a time:
  - `MoveToNext` navigates by intent: Named, Next, Previous, Complete, Quit and Reset.
  - `ActiveSteps` narrows a named intent to the steps still active.
  - `DoCommand` turns the global commands Backup, Help, Quit, Reset and Status (the `FormCommand` enum) and field names into intents.
  - `MessageReceived` is the per-turn loop. It starts, matches or processes steps. It chooses between the step's grammar and the commands. It gathers feedback and composes the reply from feedback and prompt, and it keeps `LastPrompt`.
  - `StartAsync` pre-fills steps from the entities of the first utterance.
- **The Node prompt dialog** (`Prompts`):
  - `SimplePromptRecognizer` cancels on a cancel word and otherwise scores the trimmed reply per prompt type.
  - The `begin` / `replyReceived` pair is the retry state machine.
  - `Prompts.choice` formats a numbered list of choices.

Files:

- `form_types.dfy`: the form's entities.
  - Steps, phases, directions and intents (`NextStep`).
  - The `FormCommand` enum.
  - A value snapshot of `FormState`.
  - The collaborators the engine calls but whose code is not part of this model, as function-valued fields. These are the steps' `Start`/`Match`/`ProcessAsync`/`NotUnderstood`/`Back`/`Help`, the status text, and `MatchAnalyzer`.
- `form_navigation.dfy`: navigation as pure functions of the form state.
  - `Transition` is MoveToNext. `ScanNext` and `PopHistory` are its Next and Previous directions.
  - `ActiveSteps`, the command filter `ActiveCommands`, and `DoCommand`.
  - Lemmas about each of these.
- `form_turn.dfy`: feedback joining, reply composition, and the choice between grammar and commands.
- `form_dialog.dfy`: the mutable state and the turn loops.
  - `FormState` is a class whose `Phases` is an array.
  - The turn loop as functions: `Loop`, `Iterations`, `LoopBody` and `Advance` run it for a bounded number of iterations, and `Turn` adds the reply. `PrefillGroups` is the pre-fill of `StartAsync`.
  - `FormDialog` holds the imperative `MoveToNext`, `MessageReceived` and `StartAsync`. `MoveToNext` is proved equal to `Transition`. `MessageReceived` is proved equal to `Turn`. `StartAsync` is proved equal to `PrefillGroups` followed by `Turn`.
- `prompt_text.dfy`: JavaScript's `trim`, the ASCII case folding of a non-Unicode `/i` regular expression, and the decimal rendering of list numbers.
- `prompts.dfy`: the recogniser, the retry state machine as the class `PromptDialog`, and choice-list formatting.

## Model

| member | source | states |
|---|---|---|
| FormTypes.IndexOf | CSharp/Library/Form/FormDialog.cs:430-439 | the step found for a name is the first step carrying that name; None means no step carries it |
| FormNavigation.Transition | CSharp/Library/Form/FormDialog.cs:415-543 | every direction leaves the form state consistent: step and history entries index real steps |
| FormNavigation.FirstEligible | CSharp/Library/Form/FormDialog.cs:468-478 | the scan's hit is the first offset, in wrap-around order from the current step, whose step is Ready or Responding and active; no hit means no offset qualifies |
| FormNavigation.FirstPending | CSharp/Library/Form/FormDialog.cs:483-492 | the dependency chosen is the first one that is active and not Completed; None means every dependency is answered or inactive |
| FormNavigation.Redirect | CSharp/Library/Form/FormDialog.cs:480-494 | the scan lands on the found step itself unless it is a Confirm step, and always on a real step |
| FormNavigation.ScanNext | CSharp/Library/Form/FormDialog.cs:465-510 | the Next scan keeps the phases and leaves a consistent state |
| FormNavigation.ScanFindsIffSomeEligible | CSharp/Library/Form/FormDialog.cs:465-510 | Next succeeds if and only if some step of the form is Ready or Responding and active |
| FormNavigation.ResetState | CSharp/Library/Form/FormDialog.cs:536-538 | after Reset every phase is Ready, so the user goes through the form again, and the state is consistent; the step, history, step state and pending navigation are whatever `FormState.Reset` leaves |
| FormNavigation.ScanExhausted | CSharp/Library/Form/FormDialog.cs:465-509 | a failed scan rewrites the intent to Complete and leaves the step one before the start (mod the step count). It keeps history and phases. It clears step state and pending navigation when the form has more than one step, and keeps them with one step. No step was eligible |
| FormNavigation.ScanSelectsFirstEligible | CSharp/Library/Form/FormDialog.cs:468-504 | a successful scan stops at the first eligible step after redirection. It clears step state and pending navigation only when it moved past the start. It keeps the intent. It pushes the start exactly when the step changed and the start is not a Message step |
| FormNavigation.ConfirmWaitsForDependencies | CSharp/Library/Form/FormDialog.cs:480-493 | a Confirm step stays put when every dependency is answered or inactive. When some dependency is active and not Completed, it lands on the step of the first such dependency; and it moves only to such a step |
| FormNavigation.PopHistory | CSharp/Library/Form/FormDialog.cs:511-532 | popping history always leaves a consistent state |
| FormNavigation.PreviousFindsIffActiveInHistory | CSharp/Library/Form/FormDialog.cs:511-532 | Previous succeeds if and only if some history entry names an active step |
| FormNavigation.PreviousPopsToActive | CSharp/Library/Form/FormDialog.cs:511-532 | Previous either empties the history, rewrites the intent to Quit and changes nothing else, or lands on the most recent active entry. Everything above that entry is popped. The step left becomes Ready or Completed as its field is unknown or not. The target becomes Ready. Step state and pending navigation are cleared |
| FormNavigation.NotFoundIsTerminal | CSharp/Library/Form/FormDialog.cs:415-543 | MoveToNext reports failure only with the intent's direction Complete or Quit |
| FormNavigation.NamedFallsThroughToNext | CSharp/Library/Form/FormDialog.cs:422-457 | a Named intent with no name, or with one inactive name, behaves as the Next scan after the step state is cleared |
| FormNavigation.NamedJumpsToActiveTarget | CSharp/Library/Form/FormDialog.cs:428-452 | one active name jumps to the first step with that name. The current index is pushed. The step left becomes Ready or Completed as its field is unknown or not. The target becomes Ready and nothing else changes. A name with no step is the out-of-range error |
| FormNavigation.SeveralNamesDoNotMove | CSharp/Library/Form/FormDialog.cs:459-463 | several names report progress and only clear the step state |
| FormNavigation.TerminalDirectionsChangeNothing | CSharp/Library/Form/FormDialog.cs:533-540 | Complete and Quit change nothing and fail. Reset reports progress, keeps the intent and makes every phase Ready; the step, history, step state and pending navigation are those `FormState.Reset` leaves |
| FormNavigation.ActiveNames | CSharp/Library/Form/FormDialog.cs:394-395 | the kept names are exactly the active ones; nothing is dropped if and only if all are active |
| FormNavigation.ActiveNamesDistributes | CSharp/Library/Form/FormDialog.cs:394-395 | the `Where` filter keeps order and duplicates: filtering a concatenation is filtering each part |
| FormNavigation.ActiveSteps | CSharp/Library/Form/FormDialog.cs:389-406 | non-Named intents pass through. A Named intent with no active name becomes Next. Otherwise it keeps exactly its active names, and is the same intent when all are active |
| FormNavigation.ActiveStepsIdempotent | CSharp/Library/Form/FormDialog.cs:389-406 | narrowing an intent twice is narrowing it once |
| FormNavigation.ActiveCommands | CSharp/Library/Form/FormDialog.cs:284-288 | the commands kept are exactly the global commands and the names of active fields. The first kept is the first match that applies, the one DoCommand acts on |
| FormNavigation.DoCommand | CSharp/Library/Form/FormDialog.cs:545-599 | per command: Backup goes Next or Previous as the step's Back answers; Help and Status give feedback and Next; Quit and Reset map to their directions; a field name becomes a Named intent only when a step exists and is active |
| FormNavigation.CommandIntentSurvivesNarrowing | CSharp/Library/Form/FormDialog.cs:545-599 | the intent a command produces is unchanged by ActiveSteps |
| FormTurn.JoinAll | CSharp/Library/Form/FormDialog.cs:329-332 | the message is null exactly when no iteration produced feedback |
| FormTurn.AddFeedbackJoins | CSharp/Library/Form/FormDialog.cs:329-332 | appending feedback to the message keeps it equal to all feedback joined by blank lines |
| FormTurn.JoinedBounds | CSharp/Library/Form/FormDialog.cs:329-332 | the joined message starts with the first feedback, ends with the last, and is as long as all feedback plus one blank line between each pair |
| FormTurn.ComposeReply | CSharp/Library/Form/FormDialog.cs:357-381 | the text is non-null iff a message or prompt is, and always starts with the message. With a message: requirePrompt appends the prompt and stores it; useLastPrompt appends the stored prompt; otherwise the message stands alone. Without one the prompt is sent and stored. LastPrompt never holds feedback |
| FormTurn.Resolve | CSharp/Library/Form/FormDialog.cs:266-326 | a full step match is processed. "Not understood" holds iff nothing matched at all. A command runs iff there is no full step match and either a full command match or a non-zero best-match verdict |
| FormDialogs.FormState.SetPhase | CSharp/Library/Form/FormDialog.cs:197 | only the current step's phase changes |
| FormDialogs.FreshState | CSharp/Library/Form/FormDialog.cs:122 | a new form state has one Ready phase per step, step 0, no history, no step state and no pending navigation |
| FormDialogs.FormState.constructor | CSharp/Library/Form/FormDialog.cs:122 | a new FormState holds FreshState for the step count, with no LastPrompt |
| FormDialogs.FormState.Reset | CSharp/Library/Form/FormDialog.cs:536-538 | every phase becomes Ready in the same phase array; the step, history, step state and pending navigation become those given, and LastPrompt is kept |
| FormDialogs.FirstOfKind | CSharp/Library/Form/FormDialog.cs:167 | the first entity of a type: it has the type and no earlier entity does; None means no entity has it |
| FormDialogs.FirstOfKindSnoc | CSharp/Library/Form/FormDialog.cs:167 | appending an entity moves no type's first appearance and gives a new type its first appearance at the end |
| FormDialogs.GroupInput | CSharp/Library/Form/FormDialog.cs:175-181 | a group's text is empty exactly when no entity has the type, and otherwise ends with a space |
| FormDialogs.GroupKeys | CSharp/Library/Form/FormDialog.cs:167-168 | the groups are exactly the entity types that occur, each once, in order of first appearance |
| FormDialogs.Prefill | CSharp/Library/Form/FormDialog.cs:170-198 | pre-filling moves to the step, clears its step state and starts it. It is accepted iff the coalesced match is full at threshold 0.5, and then leaves the values, phase, step state and pending navigation of ProcessAsync. Otherwise the step is Ready and the values are untouched. History and the other steps' phases are kept |
| FormDialogs.PrefillGroups | CSharp/Library/Form/FormDialog.cs:167-200 | the groups are pre-filled in order; a key naming no step is skipped. History is kept, a step named by no key keeps its phase, and keys naming no step change nothing |
| FormDialogs.FormDialog.FindStep | CSharp/Library/Form/FormDialog.cs:430-439 | the loop returns the first index of the name, as IndexOf |
| FormDialogs.FormDialog.PendingDependency | CSharp/Library/Form/FormDialog.cs:483-492 | the loop returns the step of the first pending dependency, as FirstPending |
| FormDialogs.FormDialog.MoveForward | CSharp/Library/Form/FormDialog.cs:465-510 | the for-scan leaves exactly the state and intent of ScanNext |
| FormDialogs.FormDialog.Arrive | CSharp/Library/Form/FormDialog.cs:480-503 | the end of a successful scan leaves exactly ScanNext's state |
| FormDialogs.FormDialog.MoveBack | CSharp/Library/Form/FormDialog.cs:511-532 | the pop loop leaves exactly the state and intent of PopHistory |
| FormDialogs.FormDialog.MoveToNext | CSharp/Library/Form/FormDialog.cs:415-543 | the method's result, new state and rewritten intent are those of Transition; after Reset every phase is Ready; an unknown single name is an error |
| FormDialogs.FormDialog.MoveNamed | CSharp/Library/Form/FormDialog.cs:422-463 | the Named direction leaves exactly the result, state and intent of Transition: a jump, the Next scan, or a wait for a choice |
| FormDialogs.FormDialog.Visit | CSharp/Library/Form/FormDialog.cs:468-478 | one round of the scan moves to the step at the offset, clears step state and pending navigation past the start, and reports whether that step is eligible |
| FormDialogs.FormDialog.Exhausted | CSharp/Library/Form/FormDialog.cs:505-509 | a scan through every offset that found nothing leaves the state of ScanNext's failed scan |
| FormDialogs.FormDialog.Redirection | CSharp/Library/Form/FormDialog.cs:480-494 | the step found moves to Redirect's target: a Confirm step's first pending dependency, else itself; nothing else changes |
| FormDialogs.AfterStart | CSharp/Library/Form/FormDialog.cs:233-259 | after Start only the current step's phase and the step state change; step, history and pending navigation are kept |
| FormDialogs.AfterResult | CSharp/Library/Form/FormDialog.cs:271-274 | after ProcessAsync only the current step's phase, the step state and the pending navigation change; step and history are kept |
| FormDialogs.CommandCandidates | CSharp/Library/Form/FormDialog.cs:284-288 | the command candidates are exactly the coalesced command matches that are global commands or name active fields |
| FormDialogs.Classify | CSharp/Library/Form/FormDialog.cs:266-326 | a full match of the step's grammar is processed; the input is not understood exactly when there is no full match of either grammar and neither has any match |
| FormDialogs.ProcessPass | CSharp/Library/Form/FormDialog.cs:271-279 | processing keeps the step and history and changes only the current step's phase. A prompt is required exactly when that phase is now Completed, and the last prompt is reused otherwise |
| FormDialogs.ResolvePass | CSharp/Library/Form/FormDialog.cs:266-326 | resolving the matches keeps the step and history and changes only the current step's phase |
| FormDialogs.ResolvePassCases | CSharp/Library/Form/FormDialog.cs:266-326 | only processing changes values or state. No surviving command under the command verdict is the First() exception, and only then is there a fault. A command's intent is kept by narrowing, with no prompt and the last prompt reused. Not understood keeps the intent and gives feedback with both flags cleared |
| FormDialogs.IteratePass | CSharp/Library/Form/FormDialog.cs:224-265 | a pass moves no step, pops no history and changes only the current step's phase |
| FormDialogs.IteratePassCases | CSharp/Library/Form/FormDialog.cs:224-265 | several names make the navigation step pending and start it, or match the input when navigation was already pending. A Ready Message step gives its Start text as feedback, requires a prompt and resets the intent to Next. Another Ready step gives its Start text as the prompt. A Responding step resolves the input it matches. A Completed step changes nothing |
| FormDialogs.FirstVars | CSharp/Library/Form/FormDialog.cs:216-221 | the loop starts with no feedback, message or prompt, both flags cleared, and an intent that narrowing leaves unchanged: the pending one narrowed, or Next |
| FormDialogs.Loop | CSharp/Library/Form/FormDialog.cs:222-333 | the loop leaves a consistent state and its message is all its feedback joined. It ends normally only when its condition fails or the direction is Complete or Quit. The feedback only grows |
| FormDialogs.Iterations | CSharp/Library/Form/FormDialog.cs:222-333 | as Loop, once the loop's condition holds: the fuel bound is the only way to stop before an iteration |
| FormDialogs.LoopBody | CSharp/Library/Form/FormDialog.cs:222-333 | as Loop, for one iteration followed by the rest of the loop |
| FormDialogs.Advance | CSharp/Library/Form/FormDialog.cs:222-333 | an iteration stops the loop keeping its feedback and message, and ending normally only on Complete or Quit. Otherwise it goes on with the pass's feedback appended to the message |
| FormDialogs.Gathered | CSharp/Library/Form/FormDialog.cs:328-332 | the pass's feedback, if any, is appended, and the message stays all the feedback joined |
| FormDialogs.Turn | CSharp/Library/Form/FormDialog.cs:214-383 | a reply is sent only on a direction other than Complete or Quit, with a prompt or with feedback that needs none, and is ComposeReply of the loop's end with LastPrompt updated accordingly. On a normal end, Done iff the direction is Complete and Cancelled iff Quit. Done carries the joined message. No other outcome changes LastPrompt |
| FormDialogs.LoopFuelMonotone | CSharp/Library/Form/FormDialog.cs:222-333 | a loop that ends within its fuel ends the same way with more fuel |
| FormDialogs.TurnFuelMonotone | CSharp/Library/Form/FormDialog.cs:214-383 | a turn that ends within its fuel has the same outcome, values, state and LastPrompt with more fuel |
| FormDialogs.NothingLeftCompletes | CSharp/Library/Form/FormDialog.cs:214-222 | with nothing pending and no eligible step, a turn completes at once with no message and the failed scan's state |
| FormDialogs.FormDialog.ApplyStart | CSharp/Library/Form/FormDialog.cs:233-259 | a step's Start writes its phase and step state into the same phase array, as AfterStart; LastPrompt is kept |
| FormDialogs.FormDialog.ApplyResult | CSharp/Library/Form/FormDialog.cs:271-274 | a step's ProcessAsync writes the values, its phase, the step state and the pending navigation, as AfterResult; LastPrompt is kept |
| FormDialogs.FormDialog.ProcessMatches | CSharp/Library/Form/FormDialog.cs:271-279 | the method leaves exactly the result, values and state of ProcessPass: the step's result sets values, phase, step state and pending navigation |
| FormDialogs.FormDialog.ResolveMatches | CSharp/Library/Form/FormDialog.cs:266-326 | the method leaves exactly the result, values and state of ResolvePass |
| FormDialogs.FormDialog.Iterate | CSharp/Library/Form/FormDialog.cs:224-265 | the method leaves exactly the result, values and state of IteratePass |
| FormDialogs.FormDialog.RunIteration | CSharp/Library/Form/FormDialog.cs:222-333 | one iteration ends the loop as Loop does from the same variables, or goes on with variables from which Loop reaches the same end |
| FormDialogs.FormDialog.RunLoop | CSharp/Library/Form/FormDialog.cs:216-333 | the while loop leaves exactly the values, state and end variables of Loop from the turn's first variables |
| FormDialogs.FormDialog.MessageReceived | CSharp/Library/Form/FormDialog.cs:214-383 | the outcome, values, state and LastPrompt are exactly those of Turn |
| FormDialogs.FormDialog.EntityInput | CSharp/Library/Form/FormDialog.cs:175-181 | the builder loop yields each entity of the group followed by a space, as GroupInput |
| FormDialogs.FormDialog.PrefillStep | CSharp/Library/Form/FormDialog.cs:170-198 | one pre-fill leaves exactly the values and state of Prefill |
| FormDialogs.FormDialog.StartAsync | CSharp/Library/Form/FormDialog.cs:165-212 | the state is PrefillGroups over the entity types in order of first appearance, then step 0 with no step state. With the prompt in start the turn is exactly Turn from there with no input; otherwise it waits with that state |
| PromptText.TrimStart | Node/Library/Prompts.ts:66 | only leading white space is removed, and the result does not start with white space |
| PromptText.TrimEnd | Node/Library/Prompts.ts:66 | only trailing white space is removed, and the result does not end with white space |
| PromptText.TrimIsSlice | Node/Library/Prompts.ts:66 | the trimmed reply is a contiguous part of the reply with only white space cut off at either side |
| PromptText.TrimIdempotent | Node/Library/Prompts.ts:128 | trimming an already trimmed reply changes nothing |
| PromptText.TrimKeepsUnpadded | Node/Library/Prompts.ts:66 | text without white space at either end is its own trim |
| PromptText.NatToString | Node/Library/Prompts.ts:258 | list numbers are non-empty digit strings without a leading zero |
| PromptText.NatToStringRoundTrip | Node/Library/Prompts.ts:258 | reading the rendered number back gives the number |
| Prompts.CheckCanceled | Node/Library/Prompts.ts:127-133 | a canceled result, carrying only the prompt type, exactly when the trimmed reply starts with a cancel word ignoring case |
| Prompts.IsCanceled | Node/Library/Prompts.ts:58 | no reply shorter than the shortest cancel word cancels |
| Prompts.CancelIgnoresWhatFollows | Node/Library/Prompts.ts:58 | the cancel test looks only at the start: a reply that cancels still cancels with anything appended |
| Prompts.BackPrefixCancels | Node/Library/Prompts.ts:58 | the test is prefix-only and case-insensitive: "Back" followed by anything ("Backup") cancels |
| Prompts.GoPrefixDoesNotCancel | Node/Library/Prompts.ts:58 | a cancel word that is not at the start ("go back") does not cancel |
| Prompts.ElementAt | Node/Library/Prompts.ts:102 | a whole number n selects value n-1; a fractional one selects nothing |
| Prompts.PickChoice | Node/Library/Prompts.ts:97-104 | the best match wins. Otherwise a number n with 0 < n <= the value count selects with score 1.0, and any other reply selects nothing. The TypeError happens exactly for a positive number with no values and no best match |
| Prompts.ReferenceDate | Node/Library/Prompts.ts:91 | a missing or zero refDate passes no reference date |
| Prompts.Score | Node/Library/Prompts.ts:64-111 | text scores 0.1 with the trimmed reply. Confirm scores positive iff a boolean parses, and then 1.0. Number and time score 0 when nothing is recognised. Choice scores by the pick. A recogniser exception is an error |
| Prompts.Recognize | Node/Library/Prompts.ts:60-125 | canceled iff a cancel word starts the trimmed reply. Error iff scoring threw. Completed iff compareConfidence leaves the reply unhandled and the score is positive, then carrying the response. Otherwise not completed, carrying handled |
| Prompts.TextPromptTakesTrimmedReply | Node/Library/Prompts.ts:68-75 | a text prompt completes with the trimmed reply exactly when compareConfidence does not claim it |
| Prompts.ConfirmNeedsBoolean | Node/Library/Prompts.ts:83-89 | a confirm prompt without a parsed boolean never completes |
| Prompts.ChoiceNumberOutOfRange | Node/Library/Prompts.ts:97-108 | a number outside 1..the value count selects nothing, so the prompt does not complete |
| Prompts.DefaultRetries | Node/Library/Prompts.ts:143 | a missing or zero retry count becomes 1; any other count is kept |
| Prompts.RetryText | Node/Library/Prompts.ts:172 | the retry prompt when non-empty, otherwise "I didn't understand. " followed by the prompt |
| Prompts.ReplyStep | Node/Library/Prompts.ts:165-174 | a handled result is ignored. Error, completion, cancellation or a zero count ends the prompt with the prompt's type. Otherwise one retry is spent and the retry text is sent |
| Prompts.Replay | Node/Library/Prompts.ts:165-174 | at most one re-prompt per reply, each the retry text; a prompt that ends carries its own type and ended on a reply that sent no re-prompt |
| Prompts.RetriesBounded | Node/Library/Prompts.ts:165-174 | a prompt re-prompts at most as often as its initial non-negative retry count |
| Prompts.UnhandledRepliesEnd | Node/Library/Prompts.ts:165-174 | more unhandled replies than the retry count always end the prompt |
| Prompts.EffectiveStyle | Node/Library/Prompts.ts:250 | a missing style or `none` becomes list; only inline stays inline |
| Prompts.InlineConnector | Node/Library/Prompts.ts:267-271 | " or " between exactly two values, ", or " before the last of more, ", " otherwise |
| Prompts.ListedUpTo | Node/Library/Prompts.ts:255-262 | the list style starts with "\n   " and ends with the last item written so far |
| Prompts.InlineUpTo | Node/Library/Prompts.ts:263-274 | the inline style starts with a space |
| Prompts.ListedIsOneLinePerValue | Node/Library/Prompts.ts:255-262 | the list style is one "\n   " line per value, numbered from 1 |
| Prompts.InlinePrefixIsCommaSeparated | Node/Library/Prompts.ts:263-274 | before the last value the inline items are separated by ", " |
| Prompts.InlineShape | Node/Library/Prompts.ts:263-274 | one value stands alone; two are joined by " or "; more are comma-separated with ", or " before the last |
| Prompts.InlineOfTwo | Node/Library/Prompts.ts:263-274 | two values give " 1. a or 2. b" |
| Prompts.InlineOfThree | Node/Library/Prompts.ts:263-274 | three values give " 1. a, 2. b, or 3. c" |
| Prompts.FormatListed | Node/Library/Prompts.ts:255-262 | the forEach builds the list style, one line per value when there is one |
| Prompts.FormatInline | Node/Library/Prompts.ts:263-274 | the forEach builds the inline style |
| Prompts.ChoiceArgs | Node/Library/Prompts.ts:245-277 | a choice prompt is the question plus the list in the effective style, with the other options passed through |
| Prompts.PromptDialog.Begin | Node/Library/Prompts.ts:141-150 | the dialog data is the arguments with the defaulted retry count, and the prompt is sent |
| Prompts.PromptDialog.ReplyReceived | Node/Library/Prompts.ts:152-176 | the reply is recognised with the stored arguments. The dialog is then left alone, ended, or has its count decremented by exactly 1 with the retry text sent, as ReplyStep decides |

## Left out

- Serialization of the form dialog (`ISerializable`, the constructor from `SerializationInfo`) is persistence plumbing and is not modelled.
- `await`, `context.PostAsync`, `Wait` and `Done` are replaced by a returned `TurnOutcome`. `OperationCanceledException` becomes `Cancelled`. Other thrown exceptions become `Faulted`. The form's `Completion` callback is not modelled.
- FormDialogs.FormDialog.MessageReceived: the turn loop has no bound in the source. The model, and `Turn`, `Loop` and `RunLoop` that specify it, run it for at most `fuel` iterations and end with `OutOfFuel` beyond that. `OutOfFuel` is not an outcome of the source, so a turn that never ends is not modelled; `TurnFuelMonotone` shows the bound changes nothing for a turn that ends within it.
- The steps' `Start`, `Match`, `ProcessAsync`, `NotUnderstood`, `Back` and `Help`, the `NavigationStep`, and `MatchAnalyzer` (`Coalesce`, `IsFullMatch`, `BestMatches`) are not part of this model. They are uninterpreted function-valued parameters (`Collaborators`). The default threshold of `IsFullMatch` is passed as 1.0 to that parameter.
- The Help and Status texts (the command list, `Prompter`, templates, `Language.BuildList`) are opaque strings from the collaborators.
- FormDialogs.FormState.Reset: the body of `FormState.Reset` is not part of this model. Only the effect the source's comment at the Reset case states is fixed: every phase becomes Ready, in the same phase array. The step, history, step state and pending navigation it leaves are an uninterpreted collaborator (`reset`). `LastPrompt` is assumed to be kept; the reply of a turn after a Reset relies on that.
- FormNavigation.ResetState: the `reset` collaborator is assumed to leave, from a consistent state, a step and history entries that index real steps (`ResetFits`). The navigation, turn and start-up members require it.
- FormDialogs.FreshState: the body of the `FormState` constructor is not part of this model. A new `FormState` is assumed to start at step 0 with every phase Ready, no history, no step state and no pending navigation.
- FormDialogs.ProcessPass, FormDialogs.ResolvePass, FormDialogs.IteratePass, FormDialogs.Prefill, FormDialogs.PrefillGroups: the steps' code is not part of this model, and a step is assumed to write only the current step's phase, the step state and the pending navigation. `Start` sets only the phase and the step state, `Match` changes no state, and `ProcessAsync` also sets the values and the pending navigation. That these members keep the step, the history and the other steps' phases follows from this assumption, not from the source; a step that moved `FormState.Step` or pushed history is not modelled.
- FormTypes.WellFormed: the model requires a form with at least one step. The source also runs an empty form: the Next scan finds nothing, the direction becomes Complete and the turn ends with Done. The model does not cover that form.
- FormTypes.WellFormed: the model requires every dependency of a step to name a step. In the source a dependency naming no step makes `_form.Step` return null, and the Confirm redirection then throws `NullReferenceException` (a Faulted turn). That fault is not modelled.
- A null result of a step's `Start` or `Match` is not modelled: `Started.text` is always a string and `matchInput` always returns a sequence of matches.
- Field activity and "unknown" are looked up by step name in the `Values` sets, standing for `Field(name).Active(state)` and `IsUnknown(state)` on the user's state object.
- FormNavigation.ActiveCommands: a command match whose value is neither a `FormCommand` nor a string would make `Field(null)` fail in the source. The model drops such matches (`FieldValue`) instead.
- FormDialogs.ResolvePass: `First()` of an empty surviving command list throws in the source; the model reports the fault as an `IterationFault`, which ends the turn as `Faulted`.
- `MoveToNext` rewrites the caller's `NextStep` in place, and `ActiveSteps` returns the very object it was given. The model returns the rewritten intent as a value, so aliasing between `_formState.Next` and the loop's `next` is not modelled.
- `Prompts.configure`, the options singleton, `beginPrompt`, the dialog stack, and the `recognize*` convenience functions are session plumbing and are not modelled.
- The entity recognisers (`parseNumber`, `parseBoolean`, `recognizeTime`, `findBestMatch`) and `Date` handling are not part of this model. They are uninterpreted. A NaN number is None. The floating-point length ratios of the number and time scores are opaque real-valued results. Any exception they throw is the `raises` parameter.
- Prompts.PromptDialog.Begin: the key-by-key copy into `dialogData` is a record assignment. `args || {}` for a missing argument object is not modelled. Neither is the mutation of the caller's options object by `Prompts.choice` and `begin`.
- Prompts.RetriesBounded: stated for a non-negative retry count only. A negative count is truthy, survives `begin`, and never reaches 0, so such a prompt re-prompts forever. A fractional count is not modelled (counts are integers).
- Prompts.PromptDialog.ReplyReceived: requires a prompt that has begun and not ended, as the dialog stack guarantees.
- The case-insensitive cancel test folds ASCII letters only. That is exact for a non-Unicode `/i` expression over these ASCII words, because non-ASCII characters never fold onto ASCII ones.
- `session.compareConfidence` is a function parameter answering `handled` synchronously.
