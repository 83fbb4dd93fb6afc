/**
 * The form dialog: the per-conversation FormState and the FormDialog that
 * drives it, one incoming message at a time. MoveToNext is proved equal to
 * the Transition function of FormNavigation. MessageReceived is proved
 * equal to Turn: the loop of Loop, Iterations, LoopBody and Advance,
 * followed by the reply composition of FormTurn. StartAsync is proved equal
 * to PrefillGroups followed by Turn.
 */
module FormDialogs {
  import opened Wrappers
  import opened FormTypes
  import opened FormNavigation
  import opened FormTurn

  /** The state a fresh FormState starts in: the first step, every phase Ready, and nothing else. */
  function FreshState(n: nat): (r: Snapshot)
    ensures |r.phases| == n && forall k :: 0 <= k < n ==> r.phases[k] == Ready
    ensures r.step == 0 && r.history == [] && r.stepState.None? && r.next.None?
  {
    Snapshot(0, seq(n, _ => Ready), [], None, None)
  }

  /** The mutable, persisted state of one conversation. */
  class FormState {
    var step: nat
    var phases: array<StepPhase>
    var history: seq<nat>       // a stack: the top is the last element
    var stepState: Option<StepState>
    var next: Option<NextStep>   // pending navigation between several named steps
    var lastPrompt: Option<string>

    ghost predicate Valid()
      reads this
    {
      && phases.Length > 0
      && step < phases.Length
      && forall k :: 0 <= k < |history| ==> history[k] < phases.Length
    }

    /** The fields navigation reads and writes, as a value. */
    function Snap(): Snapshot
      reads this, phases
    {
      Snapshot(step, phases[..], history, stepState, next)
    }

    /** A fresh state for a form of `count` steps: every phase Ready, at the first step, nothing pending. */
    constructor (count: nat)
      requires count > 0
      ensures Valid() && fresh(phases) && phases.Length == count
      ensures Snap() == FreshState(count) && lastPrompt.None?
    {
      step := 0;
      phases := new StepPhase[count](_ => Ready);
      history := [];
      stepState := None;
      next := None;
      lastPrompt := None;
      new;
      assert phases[..] == FreshState(count).phases;
    }

    /** The phase of the current step. */
    function Phase(): (p: StepPhase)
      reads this, phases
      requires Valid()
    {
      phases[step]
    }

    /** Sets the phase of the current step and of no other. */
    method SetPhase(p: StepPhase)
      requires Valid()
      modifies phases
      ensures phases[..] == old(phases[..])[step := p]
    {
      phases[step] := p;
    }

    /**
     * Starts the form over: every phase becomes Ready, in the same phase
     * array. The rest of the body of FormState.Reset is not part of this
     * model; what it leaves for the step, history, step state and pending
     * navigation is given as `restart`. LastPrompt is taken to be kept.
     */
    method Reset(restart: Restart)
      requires Valid() && restart.step < phases.Length
      requires forall k :: 0 <= k < |restart.history| ==> restart.history[k] < phases.Length
      modifies this, phases
      ensures Valid() && phases == old(phases) && lastPrompt == old(lastPrompt)
      ensures Snap() == Snapshot(restart.step, seq(phases.Length, _ => Ready), restart.history, restart.stepState, restart.next)
    {
      forall k | 0 <= k < phases.Length {
        phases[k] := Ready;
      }
      step, history, stepState, next := restart.step, restart.history, restart.stepState, restart.next;
      assert phases[..] == seq(phases.Length, _ => Ready);
    }
  }

  /** The outcome of one turn, in place of the source's calls on the dialog context. */
  datatype TurnOutcome =
    | Sent(text: string)                 // PostAsync(text), then Wait for the next message
    | Done(message: Option<string>)      // PostAsync(message) when there is one, then Done
    | Cancelled                          // OperationCanceledException
    | Faulted(error: string)             // an exception thrown inside the turn
    | OutOfFuel                          // the turn loop did not finish within the iterations given
    | AwaitingInput                      // Wait for the first message without sending anything

  /** The values the turn loop ends with, for the statement of what the turn sends. */
  datatype TurnEnd = TurnEnd(
    direction: StepDirection,
    feedback: seq<string>,
    message: Option<string>,
    prompt: Option<string>,
    requirePrompt: bool,
    useLastPrompt: bool)

  /** The result of one iteration of the turn loop. */
  datatype Iteration =
    | Iteration(next: NextStep, prompt: Option<string>, feedback: Option<string>, requirePrompt: bool, useLastPrompt: bool)
    | IterationFault(error: string)

  /** How one iteration of the turn loop ended: an exception, MoveToNext finding nothing, or a pass to go on from. */
  datatype IterationStatus = Failed(error: string) | Stopped(intent: NextStep) | Continued(r: Iteration)

  /** An entity recognised in the utterance that started the conversation. */
  datatype EntityRecommendation = EntityRecommendation(kind: string, entity: string)

  /** The position of the first entity of type `kind`. */
  function FirstOfKind(entities: seq<EntityRecommendation>, kind: string): (r: Option<nat>)
    ensures r.Some? ==> r.value < |entities| && entities[r.value].kind == kind
    ensures r.Some? ==> forall q :: 0 <= q < r.value ==> entities[q].kind != kind
    ensures r.None? ==> forall q :: 0 <= q < |entities| ==> entities[q].kind != kind
  {
    if |entities| == 0 then None
    else if entities[0].kind == kind then Some(0)
    else match FirstOfKind(entities[1..], kind)
      case None => None
      case Some(i) => Some(i + 1)
  }

  /** Appending an entity moves no type's first appearance, and places a new type's at the end. */
  lemma {:induction false} FirstOfKindSnoc(entities: seq<EntityRecommendation>, last: EntityRecommendation, kind: string)
    ensures FirstOfKind(entities + [last], kind) ==
              if FirstOfKind(entities, kind).Some? then FirstOfKind(entities, kind)
              else if last.kind == kind then Some(|entities|)
              else None
    decreases |entities|
  {
    if |entities| > 0 {
      assert (entities + [last])[1..] == entities[1..] + [last];
      FirstOfKindSnoc(entities[1..], last, kind);
    }
  }

  /** FirstOfKindSnoc for every type at once. */
  lemma FirstOfKindSnocAll(entities: seq<EntityRecommendation>, last: EntityRecommendation)
    ensures forall kind :: FirstOfKind(entities + [last], kind) ==
              if FirstOfKind(entities, kind).Some? then FirstOfKind(entities, kind)
              else if last.kind == kind then Some(|entities|)
              else None
  {
    forall kind {
      FirstOfKindSnoc(entities, last, kind);
    }
  }

  /** The distinct entity types, in order of first appearance: the keys of `group entity by entity.Type`. */
  function GroupKeys(entities: seq<EntityRecommendation>): (r: seq<string>)
    ensures forall k :: k in r <==> FirstOfKind(entities, k).Some?
    ensures forall i, j :: 0 <= i < j < |r| ==> r[i] != r[j]
    ensures forall i, j :: 0 <= i < j < |r| ==> FirstOfKind(entities, r[i]).value < FirstOfKind(entities, r[j]).value
    decreases |entities|
  {
    if |entities| == 0 then []
    else
      var init := GroupKeys(entities[..|entities| - 1]);
      var last := entities[|entities| - 1];
      assert entities == entities[..|entities| - 1] + [last];
      FirstOfKindSnocAll(entities[..|entities| - 1], last);
      if last.kind in init then init else init + [last.kind]
  }

  /** The text of one entity group: every entity of that type followed by a space. */
  function GroupInput(entities: seq<EntityRecommendation>, key: string): (r: string)
    ensures |r| > 0 <==> exists q :: 0 <= q < |entities| && entities[q].kind == key
    ensures |r| > 0 ==> r[|r| - 1] == ' '
    decreases |entities|
  {
    if |entities| == 0 then ""
    else
      var rest := GroupInput(entities[..|entities| - 1], key);
      var last := entities[|entities| - 1];
      if last.kind == key then rest + last.entity + " " else rest
  }

  /** Pre-filling one step from entity text: the state after Start, Match and, on a full match, ProcessAsync. */
  datatype Prefilled = Prefilled(values: Values, state: Snapshot, accepted: bool)

  /**
   * What StartAsync does to step `j` with the text of its entity group: the
   * step is started and matches the text, and the answer is kept, through
   * ProcessAsync, only when the match is full at threshold 0.5; otherwise
   * the step is left Ready and the values untouched.
   */
  function Prefill(form: Form, env: Collaborators, values: Values, s: Snapshot, j: nat, input: string): (r: Prefilled)
    requires Consistent(form, s) && j < |form.steps|
    ensures Consistent(form, r.state) && r.state.step == j && r.state.history == s.history
    ensures r.state.phases == s.phases[j := r.state.phases[j]]
    ensures var s1 := s.(step := j, stepState := None);
      var s2 := AfterStart(s1, env.start(FormStep(j), values, s1));
      var matches := env.coalesce(env.matchInput(FormStep(j), values, s2, Some(input)).matches, Some(input));
      && (r.accepted <==> env.isFullMatch(Some(input), matches, 0.5))
      && (r.accepted ==>
            var result := env.process(FormStep(j), values, s2, Some(input), matches);
            r.values == result.values && r.state == AfterResult(s2, result))
      && (!r.accepted ==> r.values == values && r.state == s2.(phases := s2.phases[j := Ready]))
  {
    var s1 := s.(step := j, stepState := None);
    var s2 := AfterStart(s1, env.start(FormStep(j), values, s1));
    var matches := env.coalesce(env.matchInput(FormStep(j), values, s2, Some(input)).matches, Some(input));
    if env.isFullMatch(Some(input), matches, 0.5) then
      var result := env.process(FormStep(j), values, s2, Some(input), matches);
      Prefilled(result.values, AfterResult(s2, result), true)
    else
      Prefilled(values, s2.(phases := s2.phases[j := Ready]), false)
  }

  /** The values and state left by pre-filling. */
  datatype Filled = Filled(values: Values, state: Snapshot)

  /**
   * StartAsync's loop over the entity groups, in order: each key that names
   * a step pre-fills that step with the text of its group, and a key naming
   * no step is skipped. History is kept, and a step named by no key keeps
   * its phase.
   */
  function PrefillGroups(form: Form, env: Collaborators, entities: seq<EntityRecommendation>, keys: seq<string>,
                         values: Values, s: Snapshot): (r: Filled)
    requires Consistent(form, s)
    ensures Consistent(form, r.state) && r.state.history == s.history
    ensures forall k :: 0 <= k < |form.steps| && form.steps[k].name !in keys ==> r.state.phases[k] == s.phases[k]
    ensures (forall q :: 0 <= q < |keys| ==> IndexOf(form.steps, keys[q]).None?) ==> r == Filled(values, s)
    decreases |keys|
  {
    if |keys| == 0 then Filled(values, s)
    else
      match IndexOf(form.steps, keys[0])
      case None => PrefillGroups(form, env, entities, keys[1..], values, s)
      case Some(j) =>
        var p := Prefill(form, env, values, s, j, GroupInput(entities, keys[0]));
        PrefillGroups(form, env, entities, keys[1..], p.values, p.state)
  }

  /** What one pass of the turn loop yields: the iteration's result, and the values and state it leaves behind. */
  datatype Pass = Pass(r: Iteration, values: Values, state: Snapshot)

  /** The state after a step's Start: the current step takes the phase and sub-state Start left. */
  function AfterStart(s: Snapshot, started: Started): (r: Snapshot)
    requires s.step < |s.phases|
    ensures r.step == s.step && r.history == s.history && r.next == s.next && r.stepState == started.stepState
    ensures |r.phases| == |s.phases| && r.phases[s.step] == started.phase
    ensures forall k :: 0 <= k < |s.phases| && k != s.step ==> r.phases[k] == s.phases[k]
  {
    s.(phases := s.phases[s.step := started.phase], stepState := started.stepState)
  }

  /** The state after a step's ProcessAsync: its phase, sub-state and pending navigation. */
  function AfterResult(s: Snapshot, result: StepResult): (r: Snapshot)
    requires s.step < |s.phases|
    ensures r.step == s.step && r.history == s.history && r.next == result.pending && r.stepState == result.stepState
    ensures |r.phases| == |s.phases| && r.phases[s.step] == result.phase
    ensures forall k :: 0 <= k < |s.phases| && k != s.step ==> r.phases[k] == s.phases[k]
  {
    s.(phases := s.phases[s.step := result.phase], stepState := result.stepState, next := result.pending)
  }

  /**
   * Processing matches of the step's own grammar: a prompt is required
   * exactly when the step is now Completed, and otherwise the last prompt is
   * repeated. Only the current step's phase can change.
   */
  function ProcessPass(env: Collaborators, values: Values, s: Snapshot, step: StepRef, lastInput: Option<string>,
                       matches: seq<TermMatch>): (p: Pass)
    requires s.step < |s.phases|
    ensures p.r.Iteration? && p.r.useLastPrompt == !p.r.requirePrompt
    ensures p.state.step == s.step && p.state.history == s.history && |p.state.phases| == |s.phases|
    ensures p.r.requirePrompt <==> p.state.phases[s.step] == Completed
    ensures p.state.phases == s.phases[s.step := p.state.phases[s.step]]
  {
    var result := env.process(step, values, s, lastInput, matches);
    Pass(Iteration(result.next, result.prompt, result.feedback, result.phase == Completed, result.phase != Completed),
         result.values, AfterResult(s, result))
  }

  /** The exception `First()` throws on an empty sequence. */
  const NoElementsError: string := "Sequence contains no elements"

  /**
   * The choice an iteration makes with the matches it found: process the
   * step, run the first surviving command, or report the input as not
   * understood. Only the current step's phase can change.
   */
  function ResolvePass(form: Form, env: Collaborators, values: Values, s: Snapshot, step: StepRef, next: NextStep,
                       matched: Matched): (p: Pass)
    requires s.step < |s.phases|
    ensures p.state.step == s.step && p.state.history == s.history && |p.state.phases| == |s.phases|
    ensures p.state.phases == s.phases[s.step := p.state.phases[s.step]]
  {
    var lastInput := matched.lastInput;
    var commands := CommandCandidates(env, values, lastInput);
    match Classify(env, values, matched)
    case ProcessStep => ProcessPass(env, values, s, step, lastInput, env.coalesce(matched.matches, lastInput))
    case RunCommand =>
      if |commands| == 0 then Pass(IterationFault(NoElementsError), values, s)
      else
        var command := DoCommand(form, env, values, s, step, commands);
        Pass(Iteration(command.next, None, command.feedback, false, true), values, s)
    case NotUnderstood =>
      Pass(Iteration(next, None, Some(env.notUnderstood(step, values, s, lastInput)), false, false), values, s)
  }

  /**
   * Only processing the step changes the values or the state. A command
   * verdict with no surviving command is the exception of `First()`;
   * otherwise the command's intent is one that narrowing keeps, with no
   * prompt and the last prompt repeated. Input not understood keeps the
   * intent and gives the step's feedback, with neither prompt flag set.
   */
  lemma ResolvePassCases(form: Form, env: Collaborators, values: Values, s: Snapshot, step: StepRef, next: NextStep,
                         matched: Matched)
    requires s.step < |s.phases|
    ensures var p := ResolvePass(form, env, values, s, step, next, matched);
      && (Classify(env, values, matched) != ProcessStep ==> p.values == values && p.state == s)
      && (p.r.IterationFault? <==>
            Classify(env, values, matched) == RunCommand && |CommandCandidates(env, values, matched.lastInput)| == 0)
      && (Classify(env, values, matched) == RunCommand && p.r.Iteration? ==>
            p.r.prompt.None? && !p.r.requirePrompt && p.r.useLastPrompt && ActiveSteps(values, p.r.next) == p.r.next)
      && (Classify(env, values, matched) == NotUnderstood ==>
            p.r.Iteration? && p.r.next == next && p.r.prompt.None? && p.r.feedback.Some?
            && !p.r.requirePrompt && !p.r.useLastPrompt)
  {
    var commands := CommandCandidates(env, values, matched.lastInput);
    if Classify(env, values, matched) == RunCommand && |commands| > 0 {
      CommandIntentSurvivesNarrowing(form, env, values, s, step, commands);
    }
  }

  /**
   * One pass of the turn loop's body after MoveToNext reported progress. It
   * moves no step and pops no history, and only the current step's phase can
   * change.
   */
  function IteratePass(form: Form, env: Collaborators, values: Values, s: Snapshot, next: NextStep,
                       toBotText: Option<string>, requirePrompt: bool, useLastPrompt: bool): (p: Pass)
    requires Consistent(form, s)
    ensures Consistent(form, p.state) && p.state.step == s.step && p.state.history == s.history
    ensures p.state.phases == s.phases[s.step := p.state.phases[s.step]]
  {
    if next.direction == Named && |next.names| > 1 then
      var s1 := s.(next := Some(next));
      var step := NavigationOver(form.steps[s.step].name);
      if s.next.None? then
        var started := env.start(step, values, s1);
        Pass(Iteration(next, Some(started.text), None, requirePrompt, useLastPrompt), values, AfterStart(s1, started))
      else
        ResolvePass(form, env, values, s1, step, next, env.matchInput(step, values, s1, toBotText))
    else
      var step := FormStep(s.step);
      match s.phases[s.step]
      case Ready =>
        var started := env.start(step, values, s);
        if form.steps[s.step].kind == Message then
          Pass(Iteration(DefaultNext(), None, Some(started.text), true, false), values, AfterStart(s, started))
        else
          Pass(Iteration(next, Some(started.text), None, requirePrompt, useLastPrompt), values, AfterStart(s, started))
      case Responding => ResolvePass(form, env, values, s, step, next, env.matchInput(step, values, s, toBotText))
      case Completed => Pass(Iteration(next, None, None, requirePrompt, useLastPrompt), values, s)
  }


  /**
   * The cases of one pass. Several named steps are resolved through the
   * transient navigation step, which becomes the pending navigation: it is
   * started when no navigation was pending and matches the input when some
   * was. Otherwise a Ready step is started, and its text is feedback for a
   * Message step (which asks for a fresh prompt and goes on to the next
   * step) and the prompt for any other; a Responding step matches the input;
   * a Completed step passes through unchanged.
   */
  lemma IteratePassCases(form: Form, env: Collaborators, values: Values, s: Snapshot, next: NextStep,
                         toBotText: Option<string>, requirePrompt: bool, useLastPrompt: bool)
    requires Consistent(form, s)
    ensures var p := IteratePass(form, env, values, s, next, toBotText, requirePrompt, useLastPrompt);
      var several := next.direction == Named && |next.names| > 1;
      var s1 := s.(next := Some(next));
      var nav := NavigationOver(form.steps[s.step].name);
      && (several && s.next.None? ==>
            var started := env.start(nav, values, s1);
            p.values == values && p.state == AfterStart(s1, started)
            && p.r == Iteration(next, Some(started.text), None, requirePrompt, useLastPrompt))
      && (several && s.next.Some? ==>
            p == ResolvePass(form, env, values, s1, nav, next, env.matchInput(nav, values, s1, toBotText)))
      && (!several && s.phases[s.step] == Ready ==>
            var started := env.start(FormStep(s.step), values, s);
            p.values == values && p.state == AfterStart(s, started)
            && p.r == if form.steps[s.step].kind == Message then Iteration(DefaultNext(), None, Some(started.text), true, false)
                      else Iteration(next, Some(started.text), None, requirePrompt, useLastPrompt))
      && (!several && s.phases[s.step] == Responding ==>
            p == ResolvePass(form, env, values, s, FormStep(s.step), next,
                             env.matchInput(FormStep(s.step), values, s, toBotText)))
      && (!several && s.phases[s.step] == Completed ==>
            p == Pass(Iteration(next, None, None, requirePrompt, useLastPrompt), values, s))
  {
  }

  /** The exception MoveToNext throws for a single name that matches no step. */
  const NoSuchStepError: string := "NextStep does not correspond to a field in the form."

  /** How the turn loop ended: normally, by running out of fuel, or by an exception. */
  datatype LoopExit = Exited | FuelSpent | Threw(error: string)

  /** The end of the turn loop: how it ended, the values and state it left, and its final variables. */
  datatype LoopEnd = LoopEnd(exit: LoopExit, values: Values, state: Snapshot, end: TurnEnd)

  /** The loop goes on while there is no prompt, and either no feedback or feedback that still needs a prompt. */
  predicate LoopGoesOn(prompt: Option<string>, message: Option<string>, requirePrompt: bool)
  {
    prompt.None? && (message.None? || requirePrompt)
  }

  /**
   * The variables the turn loop carries from one iteration to the next, with
   * the values and state; `feedback` lists the pieces that make up `message`.
   */
  datatype LoopVars = LoopVars(
    values: Values,
    state: Snapshot,
    next: NextStep,
    feedback: seq<string>,
    message: Option<string>,
    prompt: Option<string>,
    requirePrompt: bool,
    useLastPrompt: bool)

  /** The loop's variables as the turn sees them. */
  function Here(v: LoopVars): TurnEnd
  {
    TurnEnd(v.next.direction, v.feedback, v.message, v.prompt, v.requirePrompt, v.useLastPrompt)
  }

  /**
   * The turn loop from the variables `v`, for at most `fuel` more
   * iterations. It ends normally only when its condition fails or when
   * MoveToNext finds nothing, leaving Complete or Quit.
   */
  function Loop(form: Form, env: Collaborators, toBotText: Option<string>, v: LoopVars, fuel: nat): (e: LoopEnd)
    requires Consistent(form, v.state) && ResetFits(form, env) && v.message == JoinAll(v.feedback)
    ensures Consistent(form, e.state)
    ensures e.end.message == JoinAll(e.end.feedback)
    ensures e.exit.Exited? ==>
      !LoopGoesOn(e.end.prompt, e.end.message, e.end.requirePrompt)
      || e.end.direction == Complete || e.end.direction == StepDirection.Quit
    ensures |v.feedback| <= |e.end.feedback| && e.end.feedback[..|v.feedback|] == v.feedback
    decreases fuel, 2
  {
    assert v.feedback[..|v.feedback|] == v.feedback;
    if !LoopGoesOn(v.prompt, v.message, v.requirePrompt) then LoopEnd(Exited, v.values, v.state, Here(v))
    else Iterations(form, env, toBotText, v, fuel)
  }

  /** The loop once its condition holds: no further iteration when the fuel is spent, else one and the rest. */
  function Iterations(form: Form, env: Collaborators, toBotText: Option<string>, v: LoopVars, fuel: nat): (e: LoopEnd)
    requires Consistent(form, v.state) && ResetFits(form, env) && v.message == JoinAll(v.feedback)
    ensures Consistent(form, e.state)
    ensures e.end.message == JoinAll(e.end.feedback)
    ensures e.exit.Exited? ==>
      !LoopGoesOn(e.end.prompt, e.end.message, e.end.requirePrompt)
      || e.end.direction == Complete || e.end.direction == StepDirection.Quit
    ensures |v.feedback| <= |e.end.feedback| && e.end.feedback[..|v.feedback|] == v.feedback
    decreases fuel, 1
  {
    assert v.feedback[..|v.feedback|] == v.feedback;
    if fuel == 0 then LoopEnd(FuelSpent, v.values, v.state, Here(v))
    else LoopBody(form, env, toBotText, v, fuel)
  }

  /** One iteration of the turn loop and the rest of it: the loop ends with the iteration, or goes on after it. */
  function LoopBody(form: Form, env: Collaborators, toBotText: Option<string>, v: LoopVars, fuel: nat): (e: LoopEnd)
    requires Consistent(form, v.state) && ResetFits(form, env) && v.message == JoinAll(v.feedback) && fuel > 0
    ensures Consistent(form, e.state)
    ensures e.end.message == JoinAll(e.end.feedback)
    ensures e.exit.Exited? ==>
      !LoopGoesOn(e.end.prompt, e.end.message, e.end.requirePrompt)
      || e.end.direction == Complete || e.end.direction == StepDirection.Quit
    ensures |v.feedback| <= |e.end.feedback| && e.end.feedback[..|v.feedback|] == v.feedback
    decreases fuel, 0
  {
    match Advance(form, env, toBotText, v)
    case Stop(e) => e
    case Continue(w) =>
      var e := Loop(form, env, toBotText, w, fuel - 1);
      assert e.end.feedback[..|v.feedback|] == e.end.feedback[..|w.feedback|][..|v.feedback|];
      e
  }

  /** What one iteration of the turn loop leads to: the end of the loop, or the variables it goes on with. */
  datatype Advanced = Stop(e: LoopEnd) | Continue(w: LoopVars)

  /**
   * One iteration of the turn loop: MoveToNext, then one pass, then the
   * intent narrowed to active steps and the pass's feedback appended. The
   * loop stops on an exception, or when MoveToNext finds nothing, which
   * leaves the direction Complete or Quit.
   */
  function Advance(form: Form, env: Collaborators, toBotText: Option<string>, v: LoopVars): (x: Advanced)
    requires Consistent(form, v.state) && ResetFits(form, env) && v.message == JoinAll(v.feedback)
    ensures x.Stop? ==>
      && Consistent(form, x.e.state) && x.e.end.feedback == v.feedback && x.e.end.message == v.message
      && (x.e.exit.Exited? ==> x.e.end.direction == Complete || x.e.end.direction == StepDirection.Quit)
    ensures x.Continue? ==>
      && Consistent(form, x.w.state) && x.w.message == JoinAll(x.w.feedback)
      && |v.feedback| <= |x.w.feedback| && x.w.feedback[..|v.feedback|] == v.feedback
  {
    match Transition(form, env, v.values, v.state, v.next)
    case NoSuchStep(after) => Stop(LoopEnd(Threw(NoSuchStepError), v.values, after, Here(v)))
    case Moved(found, after, intent) =>
      if !found then
        NotFoundIsTerminal(form, env, v.values, v.state, v.next);
        Stop(LoopEnd(Exited, v.values, after, Here(v).(direction := intent.direction)))
      else
        var p := IteratePass(form, env, v.values, after, intent, toBotText, v.requirePrompt, v.useLastPrompt);
        match p.r
        case IterationFault(error) => Stop(LoopEnd(Threw(error), p.values, p.state, Here(v)))
        case Iteration(n, pr, fb, rp, ulp) =>
          Continue(Gathered(v, p.values, p.state, ActiveSteps(p.values, n), fb, pr, rp, ulp))
  }

  /** The loop's next variables after a pass: its feedback, if any, appended to the message. */
  function Gathered(v: LoopVars, values: Values, state: Snapshot, next: NextStep, feedback: Option<string>,
                    prompt: Option<string>, requirePrompt: bool, useLastPrompt: bool): (w: LoopVars)
    requires v.message == JoinAll(v.feedback)
    ensures w.message == JoinAll(w.feedback)
    ensures |v.feedback| <= |w.feedback| && w.feedback[..|v.feedback|] == v.feedback
  {
    match feedback
    case None => LoopVars(values, state, next, v.feedback, v.message, prompt, requirePrompt, useLastPrompt)
    case Some(f) =>
      AddFeedbackJoins(v.feedback, f);
      assert (v.feedback + [f])[..|v.feedback|] == v.feedback;
      LoopVars(values, state, next, v.feedback + [f], Some(AddFeedback(v.message, f)), prompt, requirePrompt,
               useLastPrompt)
  }

  /** How the turn loop of a method ended: an exception, no fuel left, or its final variables. */
  datatype LoopStatus =
    | LoopFaulted(error: string)
    | LoopOutOfFuel
    | LoopExited(direction: StepDirection, message: Option<string>, prompt: Option<string>,
                 requirePrompt: bool, useLastPrompt: bool)

  /** One turn: what it sends or how it ends, the values and state it leaves, LastPrompt, and the loop's final variables. */
  datatype TurnResult = TurnResult(outcome: TurnOutcome, values: Values, state: Snapshot, lastPrompt: Option<string>, end: TurnEnd)

  /**
   * MessageReceived as a function of the state: the turn loop, then
   * completion on Complete, cancellation on Quit, or else the reply composed
   * from the feedback and the prompt. The reply is never null: the loop only
   * ends on another direction with a prompt, or with feedback that needs none.
   */
  function Turn(form: Form, env: Collaborators, values: Values, s: Snapshot, lastPrompt: Option<string>,
                toBotText: Option<string>, fuel: nat): (t: TurnResult)
    requires Consistent(form, s) && ResetFits(form, env)
    ensures Consistent(form, t.state)
    ensures t.end.message == JoinAll(t.end.feedback)
    ensures t.outcome.Sent? ==>
      && t.end.direction != Complete && t.end.direction != StepDirection.Quit
      && (t.end.prompt.Some? || (t.end.message.Some? && !t.end.requirePrompt))
      && var reply := ComposeReply(t.end.message, t.end.prompt, t.end.requirePrompt, t.end.useLastPrompt, lastPrompt);
         reply.text == Some(t.outcome.text) && t.lastPrompt == reply.lastPrompt
    ensures t.outcome.Sent? || t.outcome.Done? || t.outcome.Cancelled? ==>
      && (t.outcome.Done? <==> t.end.direction == Complete)
      && (t.outcome.Cancelled? <==> t.end.direction == StepDirection.Quit)
    ensures t.outcome.Done? ==> t.outcome.message == t.end.message
    ensures !t.outcome.Sent? ==> t.lastPrompt == lastPrompt
    ensures t.outcome != AwaitingInput
  {
    var e := Loop(form, env, toBotText, FirstVars(values, s), fuel);
    match e.exit
    case FuelSpent => TurnResult(OutOfFuel, e.values, e.state, lastPrompt, e.end)
    case Threw(error) => TurnResult(Faulted(error), e.values, e.state, lastPrompt, e.end)
    case Exited =>
      if e.end.direction == Complete then TurnResult(Done(e.end.message), e.values, e.state, lastPrompt, e.end)
      else if e.end.direction == StepDirection.Quit then TurnResult(Cancelled, e.values, e.state, lastPrompt, e.end)
      else
        var reply := ComposeReply(e.end.message, e.end.prompt, e.end.requirePrompt, e.end.useLastPrompt, lastPrompt);
        TurnResult(Sent(reply.text.value), e.values, e.state, reply.lastPrompt, e.end)
  }

  /** The loop's variables before the first iteration: a pending intent narrowed to active steps, or Next. */
  function FirstVars(values: Values, s: Snapshot): (r: LoopVars)
    ensures r.values == values && r.state == s && r.feedback == [] && r.message == JoinAll(r.feedback)
    ensures r.prompt.None? && !r.requirePrompt && !r.useLastPrompt
    ensures s.next.None? ==> r.next == DefaultNext()
    ensures ActiveSteps(values, r.next) == r.next
  {
    var next := if s.next.None? then DefaultNext() else ActiveSteps(values, s.next.value);
    ActiveStepsIdempotent(values, if s.next.None? then DefaultNext() else s.next.value);
    LoopVars(values, s, next, [], None, None, false, false)
  }

  /** Fuel is only a bound: a loop that ends within `fuel` iterations ends the same way with more. */
  lemma {:induction false} LoopFuelMonotone(form: Form, env: Collaborators, toBotText: Option<string>, v: LoopVars,
                                            fuel: nat, more: nat)
    requires Consistent(form, v.state) && ResetFits(form, env) && v.message == JoinAll(v.feedback) && fuel <= more
    requires !Loop(form, env, toBotText, v, fuel).exit.FuelSpent?
    ensures Loop(form, env, toBotText, v, more) == Loop(form, env, toBotText, v, fuel)
    decreases fuel
  {
    if LoopGoesOn(v.prompt, v.message, v.requirePrompt) {
      assert Loop(form, env, toBotText, v, fuel) == LoopBody(form, env, toBotText, v, fuel);
      assert Loop(form, env, toBotText, v, more) == LoopBody(form, env, toBotText, v, more);
      match Advance(form, env, toBotText, v)
      case Stop(_) =>
      case Continue(w) => LoopFuelMonotone(form, env, toBotText, w, fuel - 1, more - 1);
    }
  }

  /** A turn that ends within `fuel` iterations ends the same way, with the same state, given more. */
  lemma TurnFuelMonotone(form: Form, env: Collaborators, values: Values, s: Snapshot, lastPrompt: Option<string>,
                         toBotText: Option<string>, fuel: nat, more: nat)
    requires Consistent(form, s) && ResetFits(form, env) && fuel <= more
    requires Turn(form, env, values, s, lastPrompt, toBotText, fuel).outcome != OutOfFuel
    ensures Turn(form, env, values, s, lastPrompt, toBotText, more) == Turn(form, env, values, s, lastPrompt, toBotText, fuel)
  {
    LoopFuelMonotone(form, env, toBotText, FirstVars(values, s), fuel, more);
  }

  /**
   * With no navigation pending and no step left that is Ready or Responding
   * and active, a turn completes at once without a message, leaving the
   * state of the failed scan.
   */
  lemma NothingLeftCompletes(form: Form, env: Collaborators, values: Values, s: Snapshot, lastPrompt: Option<string>,
                             toBotText: Option<string>, fuel: nat)
    requires Consistent(form, s) && ResetFits(form, env) && s.next.None? && fuel > 0
    requires forall i :: 0 <= i < |form.steps| ==> !Eligible(form, values, s.phases, i)
    ensures var t := Turn(form, env, values, s, lastPrompt, toBotText, fuel);
      t.outcome == Done(None) && t.values == values && t.state == ScanNext(form, values, s, DefaultNext()).after
      && t.lastPrompt == lastPrompt
  {
    ScanFindsIffSomeEligible(form, values, s, DefaultNext());
    var v := FirstVars(values, s);
    assert Transition(form, env, values, s, DefaultNext()) == ScanNext(form, values, s, DefaultNext());
    assert Loop(form, env, toBotText, v, fuel) == LoopBody(form, env, toBotText, v, fuel);
  }

  /** The form dialog of one conversation. */
  class FormDialog {
    const form: Form
    const env: Collaborators
    const promptInStart: bool
    const entities: seq<EntityRecommendation>
    const formState: FormState
    var values: Values

    ghost predicate Valid()
      reads this, formState
    {
      && WellFormed(form)
      && formState.Valid()
      && formState.phases.Length == |form.steps|
    }

    constructor (values: Values, form: Form, env: Collaborators, promptInStart: bool, entities: seq<EntityRecommendation>)
      requires WellFormed(form)
      ensures Valid() && fresh(formState) && fresh(formState.phases)
      ensures this.values == values && this.form == form && this.env == env
      ensures this.promptInStart == promptInStart && this.entities == entities
      ensures formState.step == 0 && formState.history == [] && formState.next.None?
    {
      this.form := form;
      this.env := env;
      this.promptInStart := promptInStart;
      this.entities := entities;
      this.values := values;
      this.formState := new FormState(|form.steps|);
    }

    /** `_form.Step(name)` with `_form.StepIndex`: the first step called `name`. */
    method FindStep(name: string) returns (j: Option<nat>)
      ensures j == IndexOf(form.steps, name)
    {
      var i := 0;
      while i < |form.steps|
        invariant 0 <= i <= |form.steps|
        invariant forall k :: 0 <= k < i ==> form.steps[k].name != name
      {
        if form.steps[i].name == name {
          return Some(i);
        }
        i := i + 1;
      }
      return None;
    }

    /** The first dependency of a Confirm step that is active and not yet Completed. */
    method PendingDependency(deps: seq<string>) returns (j: Option<nat>)
      requires Valid()
      requires forall d :: d in deps ==> IndexOf(form.steps, d).Some?
      ensures j == match FirstPending(form, values, formState.phases[..], deps)
                   case Some(k) => IndexOf(form.steps, deps[k])
                   case None => None
    {
      ghost var phases := formState.phases[..];
      var i := 0;
      while i < |deps|
        invariant 0 <= i <= |deps|
        invariant forall k :: 0 <= k < i ==> !Pending(form, values, phases, deps[k])
      {
        var dstep := FindStep(deps[i]);
        if IsActive(values, form.steps[dstep.value].name) && formState.phases[dstep.value] != Completed {
          assert Pending(form, values, phases, deps[i]);
          return dstep;
        }
        i := i + 1;
      }
      return None;
    }

    /** The Next direction: scan at most every step once, starting with the current one. */
    method MoveForward(next: NextStep) returns (found: bool, after: NextStep)
      requires Valid()
      modifies formState, formState.phases
      ensures Valid() && formState.phases == old(formState.phases) && formState.lastPrompt == old(formState.lastPrompt)
      ensures var m := ScanNext(form, values, old(formState.Snap()), next);
        found == m.found && formState.Snap() == m.after && after == m.intent
    {
      ghost var s := formState.Snap();
      var n := formState.phases.Length;
      var start := formState.step;
      var offset := 0;
      while offset < n
        invariant 0 <= offset <= n
        invariant Valid() && formState.phases == old(formState.phases) && formState.phases[..] == s.phases
        invariant formState.history == s.history && formState.lastPrompt == old(formState.lastPrompt)
        invariant formState.step == (if offset == 0 then start else (start + offset - 1) % n)
        invariant offset > 1 ==> formState.stepState.None? && formState.next.None?
        invariant offset <= 1 ==> formState.stepState == s.stepState && formState.next == s.next
        invariant FirstEligible(form, values, s.phases, start, 0) == FirstEligible(form, values, s.phases, start, offset)
      {
        var hit := Visit(s, start, offset);
        if hit {
          Arrive(s, next, start, offset);
          return true, next;
        }
        offset := offset + 1;
      }
      Exhausted(s, next, start);
      return false, next.(direction := Complete);
    }

    /** One round of the forward scan: move to the step at `offset` from `start`, and test whether it is eligible. */
    method Visit(ghost s: Snapshot, start: nat, offset: nat) returns (hit: bool)
      requires Valid() && Consistent(form, s) && formState.phases[..] == s.phases && formState.history == s.history
      requires start == s.step && offset < |s.phases|
      modifies formState
      ensures Valid() && formState.phases == old(formState.phases) && formState.lastPrompt == old(formState.lastPrompt)
      ensures formState.history == s.history && formState.step == (start + offset) % |s.phases|
      ensures offset > 0 ==> formState.stepState.None? && formState.next.None?
      ensures offset == 0 ==> formState.stepState == old(formState.stepState) && formState.next == old(formState.next)
      ensures hit == EligibleAt(form, values, s.phases, start, offset)
    {
      formState.step := (start + offset) % formState.phases.Length;
      if offset > 0 {
        formState.stepState := None;
        formState.next := None;
      }
      hit := (formState.Phase() == Ready || formState.Phase() == Responding) && IsActive(values, form.steps[formState.step].name);
    }

    /** The end of a forward scan that found nothing: the state left is that of the failed scan. */
    method Exhausted(ghost s: Snapshot, ghost intent: NextStep, start: nat)
      requires Valid() && Consistent(form, s) && formState.phases[..] == s.phases && formState.history == s.history
      requires start == s.step && FirstEligible(form, values, s.phases, s.step, 0) == None
      requires formState.step == (s.step + |s.phases| - 1) % |s.phases|
      requires |s.phases| > 1 ==> formState.stepState.None? && formState.next.None?
      requires |s.phases| == 1 ==> formState.stepState == s.stepState && formState.next == s.next
      ensures formState.Snap() == ScanNext(form, values, s, intent).after
    {
    }

    /** The end of a forward scan that found the step at `offset`: a Confirm step may defer to a dependency, and the step left is pushed on the history. */
    method Arrive(ghost s: Snapshot, ghost intent: NextStep, start: nat, offset: nat)
      requires Valid() && Consistent(form, s) && formState.phases[..] == s.phases && formState.history == s.history
      requires start == s.step && offset < |s.phases| && FirstEligible(form, values, s.phases, s.step, 0) == Some(offset)
      requires formState.step == (s.step + offset) % |s.phases|
      requires offset > 0 ==> formState.stepState.None? && formState.next.None?
      requires offset == 0 ==> formState.stepState == s.stepState && formState.next == s.next
      modifies formState
      ensures Valid() && formState.phases == old(formState.phases) && formState.lastPrompt == old(formState.lastPrompt)
      ensures formState.Snap() == ScanNext(form, values, s, intent).after
    {
      ScanArrives(form, values, s, intent, offset);
      Redirection();
      if formState.step != start && form.steps[start].kind != Message {
        formState.history := formState.history + [start];
      }
    }

    /** A Confirm step found by the scan defers to its first pending dependency. */
    method Redirection()
      requires Valid()
      modifies formState
      ensures Valid() && formState.phases == old(formState.phases) && formState.history == old(formState.history)
      ensures formState.lastPrompt == old(formState.lastPrompt)
      ensures formState.stepState == old(formState.stepState) && formState.next == old(formState.next)
      ensures formState.step == Redirect(form, values, formState.phases[..], old(formState.step))
    {
      var step := form.steps[formState.step];
      if step.kind == Confirm {
        var dependency := PendingDependency(step.dependencies);
        if dependency.Some? {
          formState.step := dependency.value;
        }
      }
    }

    /** The Previous direction: pop history until an active step turns up. */
    method MoveBack(next: NextStep) returns (found: bool, after: NextStep)
      requires Valid()
      modifies formState, formState.phases
      ensures Valid() && formState.phases == old(formState.phases) && formState.lastPrompt == old(formState.lastPrompt)
      ensures var m := PopHistory(form, values, old(formState.Snap()), next);
        found == m.found && formState.Snap() == m.after && after == m.intent
    {
      while |formState.history| > 0
        invariant Valid() && formState.phases == old(formState.phases) && formState.lastPrompt == old(formState.lastPrompt)
        invariant PopHistory(form, values, formState.Snap(), next) == PopHistory(form, values, old(formState.Snap()), next)
        decreases |formState.history|
      {
        var lastStepIndex := formState.history[|formState.history| - 1];
        formState.history := formState.history[..|formState.history| - 1];
        if IsActive(values, form.steps[lastStepIndex].name) {
          formState.SetPhase(LeftPhase(form, values, formState.step));
          formState.step := lastStepIndex;
          formState.SetPhase(Ready);
          formState.stepState := None;
          formState.next := None;
          return true, next;
        }
      }
      return false, next.(direction := StepDirection.Quit);
    }

    /** MoveToNext: move to the step the intent asks for, or report that no step can run. */
    method MoveToNext(next: NextStep) returns (found: Result<bool>, after: NextStep)
      requires Valid() && ResetFits(form, env)
      modifies formState, formState.phases
      ensures Valid() && formState.phases == old(formState.phases) && formState.lastPrompt == old(formState.lastPrompt)
      ensures match Transition(form, env, values, old(formState.Snap()), next)
        case Moved(f, s, i) => found == Ok(f) && formState.Snap() == s && after == i
        case NoSuchStep(s) => found == Err(NoSuchStepError) && formState.Snap() == s
    {
      match next.direction {
        case Complete =>
          found, after := Ok(false), next;
        case Named =>
          found, after := MoveNamed(next);
        case Next =>
          var f;
          f, after := MoveForward(next);
          found := Ok(f);
        case Previous =>
          var f;
          f, after := MoveBack(next);
          found := Ok(f);
        case Quit =>
          found, after := Ok(false), next;
        case Reset =>
          formState.Reset(env.reset(formState.Snap()));
          found, after := Ok(true), next;
      }
    }

    /** The Named direction: no name or one inactive name scans forward, one active name jumps to it, several wait for a choice. */
    method MoveNamed(next: NextStep) returns (found: Result<bool>, after: NextStep)
      requires Valid() && ResetFits(form, env) && next.direction == Named
      modifies formState, formState.phases
      ensures Valid() && formState.phases == old(formState.phases) && formState.lastPrompt == old(formState.lastPrompt)
      ensures match Transition(form, env, values, old(formState.Snap()), next)
        case Moved(f, s, i) => found == Ok(f) && formState.Snap() == s && after == i
        case NoSuchStep(s) => found == Err(NoSuchStepError) && formState.Snap() == s
    {
      formState.stepState := None;
      if |next.names| == 0 {
        var f;
        f, after := MoveForward(next);
        found := Ok(f);
      } else if |next.names| == 1 {
        var nextStep := FindStep(next.names[0]);
        if nextStep.None? {
          found, after := Err(NoSuchStepError), next;
        } else if IsActive(values, form.steps[nextStep.value].name) {
          formState.SetPhase(LeftPhase(form, values, formState.step));
          formState.history := formState.history + [formState.step];
          formState.step := nextStep.value;
          formState.SetPhase(Ready);
          found, after := Ok(true), next;
        } else {
          var f;
          f, after := MoveForward(next);
          found := Ok(f);
        }
      } else {
        found, after := Ok(true), next;
      }
    }

    /** Applies what a step's Start left behind to the current step. */
    method ApplyStart(started: Started)
      requires Valid()
      modifies formState, formState.phases
      ensures Valid() && formState.phases == old(formState.phases)
      ensures formState.Snap() == AfterStart(old(formState.Snap()), started)
      ensures formState.lastPrompt == old(formState.lastPrompt)
    {
      formState.SetPhase(started.phase);
      formState.stepState := started.stepState;
    }

    /** Applies what a step's ProcessAsync left behind: the values, the current phase, the sub-state and pending navigation. */
    method ApplyResult(result: StepResult)
      requires Valid()
      modifies this, formState, formState.phases
      ensures Valid() && formState.phases == old(formState.phases) && values == result.values
      ensures formState.Snap() == AfterResult(old(formState.Snap()), result)
      ensures formState.lastPrompt == old(formState.lastPrompt)
    {
      values := result.values;
      formState.SetPhase(result.phase);
      formState.stepState := result.stepState;
      formState.next := result.pending;
    }

    /** Processes matches of the step's own grammar; a Completed step calls for a fresh prompt. */
    method ProcessMatches(step: StepRef, lastInput: Option<string>, matches: seq<TermMatch>) returns (r: Iteration)
      requires Valid()
      modifies this, formState, formState.phases
      ensures Valid() && formState.phases == old(formState.phases) && formState.lastPrompt == old(formState.lastPrompt)
      ensures var p := ProcessPass(env, old(values), old(formState.Snap()), step, lastInput, matches);
        r == p.r && values == p.values && formState.Snap() == p.state
    {
      var result := env.process(step, values, formState.Snap(), lastInput, matches);
      ApplyResult(result);
      var requirePrompt := formState.Phase() == Completed;
      r := Iteration(result.next, result.prompt, result.feedback, requirePrompt, !requirePrompt);
    }

    /** Resolves the matches of one iteration between the step's grammar and the global commands. */
    method ResolveMatches(step: StepRef, next: NextStep, matched: Matched) returns (r: Iteration)
      requires Valid()
      modifies this, formState, formState.phases
      ensures Valid() && formState.phases == old(formState.phases) && formState.lastPrompt == old(formState.lastPrompt)
      ensures var p := ResolvePass(form, env, old(values), old(formState.Snap()), step, next, matched);
        r == p.r && values == p.values && formState.Snap() == p.state
    {
      var lastInput := matched.lastInput;
      var matches := env.coalesce(matched.matches, lastInput);
      var commands := CommandCandidates(env, values, lastInput);
      match Classify(env, values, matched) {
        case ProcessStep =>
          r := ProcessMatches(step, lastInput, matches);
        case RunCommand =>
          if |commands| == 0 {
            r := IterationFault(NoElementsError);
          } else {
            var command := DoCommand(form, env, values, formState.Snap(), step, commands);
            r := Iteration(command.next, None, command.feedback, false, true);
          }
        case NotUnderstood =>
          var feedback := env.notUnderstood(step, values, formState.Snap(), lastInput);
          r := Iteration(next, None, Some(feedback), false, false);
      }
    }

    /** One pass of the turn loop's body, after MoveToNext has reported progress. */
    method Iterate(next: NextStep, toBotText: Option<string>, requirePrompt: bool, useLastPrompt: bool) returns (r: Iteration)
      requires Valid()
      modifies this, formState, formState.phases
      ensures Valid() && formState.phases == old(formState.phases) && formState.lastPrompt == old(formState.lastPrompt)
      ensures var p := IteratePass(form, env, old(values), old(formState.Snap()), next, toBotText, requirePrompt, useLastPrompt);
        r == p.r && values == p.values && formState.Snap() == p.state
    {
      if next.direction == Named && |next.names| > 1 {
        // choose between several named steps through a transient navigation step
        var start := formState.next.None?;
        formState.next := Some(next);
        var step := NavigationOver(form.steps[formState.step].name);
        if start {
          var started := env.start(step, values, formState.Snap());
          ApplyStart(started);
          r := Iteration(next, Some(started.text), None, requirePrompt, useLastPrompt);
        } else {
          var matched := env.matchInput(step, values, formState.Snap(), toBotText);
          r := ResolveMatches(step, next, matched);
        }
      } else {
        var step := FormStep(formState.step);
        var kind := form.steps[formState.step].kind;
        if formState.Phase() == Ready {
          var started := env.start(step, values, formState.Snap());
          ApplyStart(started);
          if kind == Message {
            r := Iteration(DefaultNext(), None, Some(started.text), true, false);
          } else {
            r := Iteration(next, Some(started.text), None, requirePrompt, useLastPrompt);
          }
        } else if formState.Phase() == Responding {
          var matched := env.matchInput(step, values, formState.Snap(), toBotText);
          r := ResolveMatches(step, next, matched);
        } else {
          r := Iteration(next, None, None, requirePrompt, useLastPrompt);
        }
      }
    }

    /**
     * One iteration of the turn loop: MoveToNext, and when it reports
     * progress, one pass. Its ends are those of the loop from the same
     * variables while it goes on: an exception, a stop where MoveToNext found
     * nothing, or the pass whose result the loop goes on with.
     */
    method RunIteration(next: NextStep, toBotText: Option<string>, message: Option<string>, prompt: Option<string>,
                        requirePrompt: bool, useLastPrompt: bool, ghost v: LoopVars, ghost fuel: nat, ghost goal: LoopEnd)
      returns (status: IterationStatus, next': NextStep, message': Option<string>, ghost w: LoopVars)
      requires Valid() && ResetFits(form, env) && fuel > 0 && v.message == JoinAll(v.feedback) && LoopGoesOn(prompt, message, requirePrompt)
      requires v.values == values && v.state == formState.Snap() && v.next == next && v.message == message
      requires v.prompt == prompt
      requires v.requirePrompt == requirePrompt && v.useLastPrompt == useLastPrompt
      requires Loop(form, env, toBotText, v, fuel) == goal
      modifies this, formState, formState.phases
      ensures Valid() && formState.phases == old(formState.phases) && formState.lastPrompt == old(formState.lastPrompt)
      ensures match status
        case Failed(error) => goal.exit == Threw(error) && goal.values == values && goal.state == formState.Snap()
        case Stopped(intent) => goal == LoopEnd(Exited, values, formState.Snap(), Here(v).(direction := intent.direction))
        case Continued(r) =>
          && r.Iteration?
          && w.values == values && w.state == formState.Snap() && w.next == next' && next' == ActiveSteps(values, r.next)
          && w.message == message' && w.prompt == r.prompt && w.requirePrompt == r.requirePrompt
          && w.useLastPrompt == r.useLastPrompt && w.message == JoinAll(w.feedback)
          && Consistent(form, w.state) && Loop(form, env, toBotText, w, fuel - 1) == goal
    {
      w, next', message' := v, next, message;
      assert Loop(form, env, toBotText, v, fuel) == LoopBody(form, env, toBotText, v, fuel);
      var found, intent := MoveToNext(next);
      if found.Err? {
        return Failed(found.error), next', message', w;
      }
      if !found.value {
        return Stopped(intent), next', message', w;
      }
      var r := Iterate(intent, toBotText, requirePrompt, useLastPrompt);
      if r.IterationFault? {
        return Failed(r.error), next', message', w;
      }
      next' := ActiveSteps(values, r.next);
      if r.feedback.Some? {
        message' := Some(AddFeedback(message, r.feedback.value));
      }
      w := Gathered(v, values, formState.Snap(), next', r.feedback, r.prompt, r.requirePrompt, r.useLastPrompt);
      return Continued(r), next', message', w;
    }

    /**
     * The turn loop of MessageReceived: from a pending intent narrowed to
     * active steps, or Next, run iterations while there is no prompt and
     * either no feedback or feedback that still needs one. It ends as Loop
     * does from the turn's first variables.
     */
    method RunLoop(toBotText: Option<string>, fuel: nat) returns (status: LoopStatus)
      requires Valid() && ResetFits(form, env)
      modifies this, formState, formState.phases
      ensures Valid() && formState.phases == old(formState.phases) && formState.lastPrompt == old(formState.lastPrompt)
      ensures var e := Loop(form, env, toBotText, FirstVars(old(values), old(formState.Snap())), fuel);
        && values == e.values && formState.Snap() == e.state
        && match status
           case LoopFaulted(error) => e.exit == Threw(error)
           case LoopOutOfFuel => e.exit == FuelSpent
           case LoopExited(direction, message, prompt, requirePrompt, useLastPrompt) =>
             && e.exit == Exited && e.end.direction == direction && e.end.message == message
             && e.end.prompt == prompt && e.end.requirePrompt == requirePrompt && e.end.useLastPrompt == useLastPrompt
    {
      var message: Option<string> := None;
      var prompt: Option<string> := None;
      var useLastPrompt := false;
      var requirePrompt := false;
      var next := if formState.next.None? then DefaultNext() else ActiveSteps(values, formState.next.value);
      var remaining := fuel;
      ghost var cur := FirstVars(values, formState.Snap());
      ghost var goal := Loop(form, env, toBotText, cur, fuel);
      assert goal == Loop(form, env, toBotText, FirstVars(old(values), old(formState.Snap())), fuel);
      while prompt.None? && (message.None? || requirePrompt)
        invariant Valid() && formState.phases == old(formState.phases) && formState.lastPrompt == old(formState.lastPrompt)
        invariant cur.values == values && cur.state == formState.Snap() && cur.next == next && cur.message == message
        invariant cur.prompt == prompt && cur.requirePrompt == requirePrompt && cur.useLastPrompt == useLastPrompt
        invariant cur.message == JoinAll(cur.feedback)
        invariant Loop(form, env, toBotText, cur, remaining) == goal
        decreases remaining
      {
        if remaining == 0 {
          return LoopOutOfFuel;
        }
        var status, next', message', w := RunIteration(next, toBotText, message, prompt, requirePrompt, useLastPrompt,
                                                       cur, remaining, goal);
        match status {
          case Failed(error) =>
            return LoopFaulted(error);
          case Stopped(intent) =>
            next := intent;
            break;
          case Continued(r) =>
            remaining := remaining - 1;
            next, message, prompt, requirePrompt, useLastPrompt := next', message', r.prompt, r.requirePrompt,
                                                                   r.useLastPrompt;
            cur := w;
        }
      }
      status := LoopExited(next.direction, message, prompt, requirePrompt, useLastPrompt);
    }

    /**
     * MessageReceived: run the turn loop until a prompt is produced, or
     * feedback that needs no prompt, or no step can run; then complete,
     * cancel, or send the composed reply and wait. The turn is exactly Turn.
     */
    method MessageReceived(toBotText: Option<string>, fuel: nat) returns (outcome: TurnOutcome)
      requires Valid() && ResetFits(form, env)
      modifies this, formState, formState.phases
      ensures Valid() && formState.phases == old(formState.phases)
      ensures var t := Turn(form, env, old(values), old(formState.Snap()), old(formState.lastPrompt), toBotText, fuel);
        outcome == t.outcome && values == t.values && formState.Snap() == t.state && formState.lastPrompt == t.lastPrompt
    {
      var status := RunLoop(toBotText, fuel);
      match status {
        case LoopFaulted(error) =>
          outcome := Faulted(error);
        case LoopOutOfFuel =>
          outcome := OutOfFuel;
        case LoopExited(direction, message, prompt, requirePrompt, useLastPrompt) =>
          if direction == Complete {
            outcome := Done(message);
          } else if direction == StepDirection.Quit {
            outcome := Cancelled;
          } else {
            var reply := ComposeReply(message, prompt, requirePrompt, useLastPrompt, formState.lastPrompt);
            formState.lastPrompt := reply.lastPrompt;
            outcome := Sent(reply.text.value);
          }
      }
    }

    /** The StringBuilder loop of StartAsync: the text of one entity group. */
    method EntityInput(key: string) returns (input: string)
      ensures input == GroupInput(entities, key)
    {
      input := "";
      var i := 0;
      while i < |entities|
        invariant 0 <= i <= |entities|
        invariant input == GroupInput(entities[..i], key)
      {
        assert entities[..i + 1][..i] == entities[..i];
        if entities[i].kind == key {
          input := input + entities[i].entity + " ";
        }
        i := i + 1;
      }
      assert entities[..|entities|] == entities;
    }

    /** Pre-fills step `j` from entity text, keeping the answer only on a full match at threshold 0.5. */
    method PrefillStep(j: nat, input: string) returns (accepted: bool)
      requires Valid() && j < |form.steps|
      modifies this, formState, formState.phases
      ensures Valid() && formState.phases == old(formState.phases) && formState.lastPrompt == old(formState.lastPrompt)
      ensures var p := Prefill(form, env, old(values), old(formState.Snap()), j, input);
        values == p.values && formState.Snap() == p.state && accepted == p.accepted
    {
      formState.step := j;
      formState.stepState := None;
      var started := env.start(FormStep(j), values, formState.Snap());
      ApplyStart(started);
      var matched := env.matchInput(FormStep(j), values, formState.Snap(), Some(input));
      var matches := env.coalesce(matched.matches, Some(input));
      accepted := env.isFullMatch(Some(input), matches, 0.5);
      if accepted {
        var result := env.process(FormStep(j), values, formState.Snap(), Some(input), matches);
        ApplyResult(result);
      } else {
        formState.SetPhase(Ready);
      }
    }

    /**
     * StartAsync: pre-fill the steps named by entity types, return to the
     * first step, then either run a turn at once or wait for the first message.
     */
    method StartAsync(fuel: nat) returns (outcome: TurnOutcome)
      requires Valid() && ResetFits(form, env)
      modifies this, formState, formState.phases
      ensures Valid() && formState.phases == old(formState.phases)
      ensures var f := PrefillGroups(form, env, entities, GroupKeys(entities), old(values), old(formState.Snap()));
        var s := f.state.(step := 0, stepState := None);
        if promptInStart then
          var t := Turn(form, env, f.values, s, old(formState.lastPrompt), None, fuel);
          outcome == t.outcome && values == t.values && formState.Snap() == t.state && formState.lastPrompt == t.lastPrompt
        else
          outcome == AwaitingInput && values == f.values && formState.Snap() == s
          && formState.lastPrompt == old(formState.lastPrompt)
    {
      var keys := GroupKeys(entities);
      ghost var goal := PrefillGroups(form, env, entities, keys, values, formState.Snap());
      var g := 0;
      while g < |keys|
        invariant 0 <= g <= |keys|
        invariant Valid() && formState.phases == old(formState.phases)
        invariant formState.lastPrompt == old(formState.lastPrompt)
        invariant PrefillGroups(form, env, entities, keys[g..], values, formState.Snap()) == goal
      {
        assert keys[g..][1..] == keys[g + 1..];
        var j := FindStep(keys[g]);
        if j.Some? {
          var input := EntityInput(keys[g]);
          var _ := PrefillStep(j.value, input);
        }
        g := g + 1;
      }
      formState.step := 0;
      formState.stepState := None;
      if promptInStart {
        outcome := MessageReceived(None, fuel);
      } else {
        outcome := AwaitingInput;
      }
    }
  }

  /** The global commands and field names that survive the activity filter. */
  function CommandCandidates(env: Collaborators, values: Values, lastInput: Option<string>): (r: seq<TermMatch>)
    ensures forall m :: m in r <==> m in env.coalesce(env.commandMatches(lastInput), lastInput) && CommandApplies(values, m)
  {
    ActiveCommands(values, env.coalesce(env.commandMatches(lastInput), lastInput))
  }

  /** Which way an iteration goes with the matches it found (the branches of MessageReceived). */
  function Classify(env: Collaborators, values: Values, matched: Matched): (r: Resolution)
    ensures var matches := env.coalesce(matched.matches, matched.lastInput);
      env.isFullMatch(matched.lastInput, matches, 1.0) ==> r == ProcessStep
    ensures var matches := env.coalesce(matched.matches, matched.lastInput);
      r == NotUnderstood <==>
        && !env.isFullMatch(matched.lastInput, matches, 1.0)
        && |matches| == 0 && |CommandCandidates(env, values, matched.lastInput)| == 0
        && !env.isFullMatch(matched.lastInput, CommandCandidates(env, values, matched.lastInput), 1.0)
  {
    var matches := env.coalesce(matched.matches, matched.lastInput);
    var stepFull := env.isFullMatch(matched.lastInput, matches, 1.0);
    var commands := CommandCandidates(env, values, matched.lastInput);
    var commandFull := !stepFull && env.isFullMatch(matched.lastInput, commands, 1.0);
    Resolve(stepFull, commandFull, |matches|, |commands|, env.bestMatches(matches, commands))
  }
}
