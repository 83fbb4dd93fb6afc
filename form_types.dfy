/**
 * The values the form engine works on: the steps of a form, the per-step
 * phases, navigation intents, global commands, term matches, and the
 * collaborators (steps, match analysis, rendering) whose code is not part
 * of this model.
 */
module FormTypes {
  import opened Wrappers

  /** Progress of one step of the form. */
  datatype StepPhase = Ready | Responding | Completed

  /** The kinds of steps a form is made of. */
  datatype StepType = Field | Confirm | Message | Navigation

  /** Where control goes after a step has run. */
  datatype StepDirection = Complete | Named | Next | Previous | Quit | Reset

  /** A navigation intent: a direction and, for Named, the candidate step names. */
  datatype NextStep = NextStep(direction: StepDirection, names: seq<string>)

  /** `new NextStep()`: move on to the next step that still needs work. */
  function DefaultNext(): NextStep
  {
    NextStep(Next, [])
  }

  /** `new NextStep(names)`: jump to one of the named steps. */
  function NamedStep(names: seq<string>): NextStep
  {
    NextStep(Named, names)
  }

  /** The global commands the user can type at any step. */
  datatype FormCommand = Backup | Help | Quit | Reset | Status

  /** One step of a form: its name, its kind and, for a confirmation, the steps it depends on. */
  datatype Step = Step(name: string, kind: StepType, dependencies: seq<string>)

  /** The immutable, ordered list of steps of one form. */
  datatype Form = Form(steps: seq<Step>)

  /**
   * What the engine sees of the object being filled in: which fields are
   * currently applicable and which still have no value. A step and the
   * field of the same name share one activity predicate.
   */
  datatype Values = Values(active: set<string>, unknown: set<string>)

  /** `step.Active(state)` and `Fields.Field(name).Active(state)`. */
  predicate IsActive(values: Values, name: string)
  {
    name in values.active
  }

  /** `Fields.Field(name).IsUnknown(state)`. */
  predicate IsUnknown(values: Values, name: string)
  {
    name in values.unknown
  }

  /** The index of the first step called `name`, as `Form.Step(name)` followed by `Form.StepIndex`. */
  function IndexOf(steps: seq<Step>, name: string): (r: Option<nat>)
    ensures r.Some? ==> r.value < |steps| && steps[r.value].name == name
    ensures r.Some? ==> forall k :: 0 <= k < r.value ==> steps[k].name != name
    ensures r.None? ==> forall k :: 0 <= k < |steps| ==> steps[k].name != name
  {
    if |steps| == 0 then None
    else if steps[0].name == name then Some(0)
    else match IndexOf(steps[1..], name)
      case None => None
      case Some(i) => Some(i + 1)
  }

  /** A form the engine can run: at least one step, and every dependency names a step. */
  predicate WellFormed(form: Form)
  {
    && |form.steps| > 0
    && forall i, d :: 0 <= i < |form.steps| && d in form.steps[i].dependencies ==> IndexOf(form.steps, d).Some?
  }

  /** What a term match stands for: a global command, a field name, or a value of the step's own grammar. */
  datatype MatchValue = CommandValue(command: FormCommand) | NameValue(name: string) | FieldValue(token: int)

  /** One scored interpretation of a span of the user's utterance. */
  datatype TermMatch = TermMatch(value: MatchValue, confidence: real, start: nat, length: nat)

  /** The sub-state a step keeps while it resolves its input; opaque to the engine. */
  datatype StepState = StepState(token: int)

  /** The fields of FormState that navigation reads and writes. */
  datatype Snapshot = Snapshot(
    step: nat,
    phases: seq<StepPhase>,
    history: seq<nat>,
    stepState: Option<StepState>,
    next: Option<NextStep>)

  /** The state invariant: the step index and every history entry lie inside the form. */
  predicate Consistent(form: Form, s: Snapshot)
  {
    && WellFormed(form)
    && |s.phases| == |form.steps|
    && s.step < |form.steps|
    && forall k :: 0 <= k < |s.history| ==> s.history[k] < |form.steps|
  }

  /** The step a turn is talking to: a step of the form, or the transient step that asks which of several steps was meant. */
  datatype StepRef = FormStep(index: nat) | NavigationOver(current: string)

  /** What `IStep.Start` produces: its text, and the phase and sub-state it leaves the current step in. */
  datatype Started = Started(text: string, phase: StepPhase, stepState: Option<StepState>)

  /** What `IStep.Match` produces: candidate matches and the input they were matched against. */
  datatype Matched = Matched(matches: seq<TermMatch>, lastInput: Option<string>)

  /**
   * What `IStep.ProcessAsync` produces: the intent, feedback and prompt of
   * its FormResult, and the values, current phase, sub-state and pending
   * navigation it leaves behind.
   */
  datatype StepResult = StepResult(
    next: NextStep,
    feedback: Option<string>,
    prompt: Option<string>,
    values: Values,
    phase: StepPhase,
    stepState: Option<StepState>,
    pending: Option<NextStep>)

  /**
   * What FormState.Reset leaves besides the phases, which it makes Ready:
   * the step, history, step state and pending navigation.
   */
  datatype Restart = Restart(step: nat, history: seq<nat>, stepState: Option<StepState>, next: Option<NextStep>)

  /**
   * The collaborators whose code is not part of this model. Each one is an
   * arbitrary function: how steps recognise input and how MatchAnalyzer
   * scores it is left open. What a step can change is an assumption, fixed
   * by the shape of its result: Start sets only the current step's phase
   * and step state, ProcessAsync also the values and pending navigation,
   * and Match changes nothing; a step never moves the current step or
   * pushes history. `reset` is what the body of FormState.Reset leaves
   * besides the phases.
   */
  datatype Collaborators = Collaborators(
    start: (StepRef, Values, Snapshot) -> Started,
    matchInput: (StepRef, Values, Snapshot, Option<string>) -> Matched,
    process: (StepRef, Values, Snapshot, Option<string>, seq<TermMatch>) -> StepResult,
    notUnderstood: (StepRef, Values, Snapshot, Option<string>) -> string,
    back: (StepRef, Values, Snapshot) -> bool,
    help: (StepRef, Values, Snapshot) -> string,
    status: Values -> string,
    commandMatches: Option<string> -> seq<TermMatch>,
    coalesce: (seq<TermMatch>, Option<string>) -> seq<TermMatch>,
    isFullMatch: (Option<string>, seq<TermMatch>, real) -> bool,
    bestMatches: (seq<TermMatch>, seq<TermMatch>) -> int,
    reset: Snapshot -> Restart)

  /** The assumption on FormState.Reset: from a consistent state it leaves a step and history inside the form. */
  ghost predicate ResetFits(form: Form, env: Collaborators)
  {
    forall s {:trigger env.reset(s)} :: Consistent(form, s) ==>
      && env.reset(s).step < |form.steps|
      && forall k :: 0 <= k < |env.reset(s).history| ==> env.reset(s).history[k] < |form.steps|
  }
}
