/**
 * The navigation engine of a form, as functions of the form state:
 * what MoveToNext does for each direction (Transition), how a Named
 * intent is narrowed to the steps still applicable (ActiveSteps), which
 * command matches survive the activity filter (ActiveCommands), and how
 * a recognised command becomes an intent (DoCommand).
 */
module FormNavigation {
  import opened Wrappers
  import opened FormTypes

  /** What one call of MoveToNext does. */
  datatype Move =
    | Moved(found: bool, after: Snapshot, intent: NextStep)  // the new state, and the caller's intent with its direction possibly rewritten
    | NoSuchStep(after: Snapshot)                          // a single name matched no step: ArgumentOutOfRangeException

  /**
   * The state FormState.Reset leaves: every phase Ready, so that the user
   * goes through the form again; the rest is whatever its body leaves.
   */
  function ResetState(form: Form, env: Collaborators, s: Snapshot): (r: Snapshot)
    requires Consistent(form, s) && ResetFits(form, env)
    ensures Consistent(form, r) && forall k :: 0 <= k < |r.phases| ==> r.phases[k] == Ready
  {
    var c := env.reset(s);
    Snapshot(c.step, seq(|form.steps|, _ => Ready), c.history, c.stepState, c.next)
  }

  /** A step the Next scan may stop at: Ready or Responding, and active. */
  predicate Eligible(form: Form, values: Values, phases: seq<StepPhase>, i: nat)
    requires i < |form.steps| == |phases|
  {
    (phases[i] == Ready || phases[i] == Responding) && IsActive(values, form.steps[i].name)
  }

  /** The scan's candidate at `offset` from `start`: step `(start + offset) % n` is eligible. */
  predicate EligibleAt(form: Form, values: Values, phases: seq<StepPhase>, start: nat, offset: nat)
    requires 0 < |form.steps| == |phases|
  {
    Eligible(form, values, phases, (start + offset) % |phases|)
  }

  /** The first offset at or after `offset` whose step `(start + offset) % n` is eligible. */
  function FirstEligible(form: Form, values: Values, phases: seq<StepPhase>, start: nat, offset: nat): (r: Option<nat>)
    requires 0 < |form.steps| == |phases| && start < |phases| && offset <= |phases|
    ensures r.Some? ==> offset <= r.value < |phases| && EligibleAt(form, values, phases, start, r.value)
    ensures r.Some? ==> forall k :: offset <= k < r.value ==> !EligibleAt(form, values, phases, start, k)
    ensures r.None? ==> forall k :: offset <= k < |phases| ==> !EligibleAt(form, values, phases, start, k)
    decreases |phases| - offset
  {
    if offset == |phases| then None
    else if EligibleAt(form, values, phases, start, offset) then Some(offset)
    else FirstEligible(form, values, phases, start, offset + 1)
  }

  /** A dependency that holds a Confirm step back: active and not yet Completed. */
  predicate Pending(form: Form, values: Values, phases: seq<StepPhase>, d: string)
    requires |phases| == |form.steps| && IndexOf(form.steps, d).Some?
  {
    var j := IndexOf(form.steps, d).value;
    IsActive(values, form.steps[j].name) && phases[j] != Completed
  }

  /** The position in `deps` of the first pending dependency. */
  function FirstPending(form: Form, values: Values, phases: seq<StepPhase>, deps: seq<string>): (r: Option<nat>)
    requires |phases| == |form.steps|
    requires forall d :: d in deps ==> IndexOf(form.steps, d).Some?
    ensures r.Some? ==> r.value < |deps| && Pending(form, values, phases, deps[r.value])
    ensures r.Some? ==> forall k :: 0 <= k < r.value ==> !Pending(form, values, phases, deps[k])
    ensures r.None? ==> forall k :: 0 <= k < |deps| ==> !Pending(form, values, phases, deps[k])
  {
    if |deps| == 0 then None
    else if Pending(form, values, phases, deps[0]) then Some(0)
    else match FirstPending(form, values, phases, deps[1..])
      case None => None
      case Some(k) => Some(k + 1)
  }

  /** Where the scan stops for an eligible step `at`: a Confirm step hands over to its first pending dependency. */
  function Redirect(form: Form, values: Values, phases: seq<StepPhase>, at: nat): (r: nat)
    requires WellFormed(form) && |phases| == |form.steps| && at < |phases|
    ensures r < |phases|
    ensures form.steps[at].kind != Confirm ==> r == at
  {
    var step := form.steps[at];
    if step.kind == Confirm then
      match FirstPending(form, values, phases, step.dependencies)
      case Some(k) => IndexOf(form.steps, step.dependencies[k]).value
      case None => at
    else at
  }

  /** The phase a step is left in when navigation moves away from it. */
  function LeftPhase(form: Form, values: Values, i: nat): StepPhase
    requires i < |form.steps|
  {
    if IsUnknown(values, form.steps[i].name) then Ready else Completed
  }

  /** The Next direction: scan forward, wrapping, for the first eligible step. */
  function ScanNext(form: Form, values: Values, s: Snapshot, intent: NextStep): (m: Move)
    requires Consistent(form, s)
    ensures m.Moved? && Consistent(form, m.after) && m.after.phases == s.phases
  {
    var n := |form.steps|;
    match FirstEligible(form, values, s.phases, s.step, 0)
    case None =>
      var cleared := if n > 1 then s.(stepState := None, next := None) else s;
      Moved(false, cleared.(step := (s.step + n - 1) % n), intent.(direction := Complete))
    case Some(offset) =>
      var target := Redirect(form, values, s.phases, (s.step + offset) % n);
      var cleared := if offset > 0 then s.(stepState := None, next := None) else s;
      var push := target != s.step && form.steps[s.step].kind != Message;
      Moved(true, cleared.(step := target, history := if push then s.history + [s.step] else s.history), intent)
  }

  /** A scan that finds the step at `offset` lands on its redirect and pushes the step it started from unless that was a Message. */
  lemma ScanArrives(form: Form, values: Values, s: Snapshot, intent: NextStep, offset: nat)
    requires Consistent(form, s) && FirstEligible(form, values, s.phases, s.step, 0) == Some(offset)
    ensures var target := Redirect(form, values, s.phases, (s.step + offset) % |s.phases|);
      var push := target != s.step && form.steps[s.step].kind != Message;
      var cleared := if offset > 0 then s.(stepState := None, next := None) else s;
      ScanNext(form, values, s, intent) ==
        Moved(true, cleared.(step := target, history := if push then s.history + [s.step] else s.history), intent)
  {
  }

  /** A direct jump to step `j`: the step left behind keeps its answer, `j` starts over. */
  function JumpTo(form: Form, values: Values, s: Snapshot, j: nat): (r: Snapshot)
    requires Consistent(form, s) && j < |form.steps|
    ensures Consistent(form, r)
  {
    s.(phases := s.phases[s.step := LeftPhase(form, values, s.step)][j := Ready],
       history := s.history + [s.step],
       step := j)
  }

  /** The Previous direction: pop history, discarding inactive entries, until an active step is found. */
  function PopHistory(form: Form, values: Values, s: Snapshot, intent: NextStep): (m: Move)
    requires Consistent(form, s)
    ensures m.Moved? && Consistent(form, m.after)
    decreases |s.history|
  {
    if |s.history| == 0 then Moved(false, s, intent.(direction := StepDirection.Quit))
    else
      var last := s.history[|s.history| - 1];
      var rest := s.history[..|s.history| - 1];
      if IsActive(values, form.steps[last].name) then
        Moved(true, s.(phases := s.phases[s.step := LeftPhase(form, values, s.step)][last := Ready],
                       step := last, history := rest, stepState := None, next := None), intent)
      else PopHistory(form, values, s.(history := rest), intent)
  }

  /** MoveToNext: the effect of one navigation intent on the form state. */
  function Transition(form: Form, env: Collaborators, values: Values, s: Snapshot, intent: NextStep): (m: Move)
    requires Consistent(form, s) && ResetFits(form, env)
    ensures Consistent(form, m.after)
  {
    match intent.direction
    case Complete => Moved(false, s, intent)
    case Named =>
      var cleared := s.(stepState := None);
      if |intent.names| == 0 then ScanNext(form, values, cleared, intent)
      else if |intent.names| == 1 then
        match IndexOf(form.steps, intent.names[0])
        case None => NoSuchStep(cleared)
        case Some(j) =>
          if IsActive(values, form.steps[j].name) then Moved(true, JumpTo(form, values, cleared, j), intent)
          else ScanNext(form, values, cleared, intent)
      else Moved(true, cleared, intent)
    case Next => ScanNext(form, values, s, intent)
    case Previous => PopHistory(form, values, s, intent)
    case Quit => Moved(false, s, intent)
    case Reset => Moved(true, ResetState(form, env, s), intent)
  }

  // ---------------------------------------------------------------------
  // Properties of the Next scan
  // ---------------------------------------------------------------------

  /** Every step is reached at exactly one offset of the scan. */
  lemma OffsetOf(n: nat, start: nat, i: nat) returns (k: nat)
    requires start < n && i < n
    ensures k < n && (start + k) % n == i
  {
    if start <= i {
      k := i - start;
    } else {
      k := n - start + i;
      assert start + k == n + i;
    }
  }

  /** The scan finds a step exactly when some step of the form is eligible. */
  lemma ScanFindsIffSomeEligible(form: Form, values: Values, s: Snapshot, intent: NextStep)
    requires Consistent(form, s)
    ensures ScanNext(form, values, s, intent).found <==>
            exists i :: 0 <= i < |form.steps| && Eligible(form, values, s.phases, i)
  {
    var n := |form.steps|;
    if !ScanNext(form, values, s, intent).found {
      forall i | 0 <= i < n
        ensures !Eligible(form, values, s.phases, i)
      {
        var k := OffsetOf(n, s.step, i);
        assert !EligibleAt(form, values, s.phases, s.step, k);
      }
    }
  }

  /**
   * A failed scan completes the intent and leaves the step index one before
   * where it started, still in range; having moved past the start, it has
   * cleared the step state and pending navigation unless the form has one step.
   */
  lemma ScanExhausted(form: Form, values: Values, s: Snapshot, intent: NextStep)
    requires Consistent(form, s)
    requires !ScanNext(form, values, s, intent).found
    ensures var m := ScanNext(form, values, s, intent);
      && m.intent == intent.(direction := Complete)
      && m.after.step == (s.step + |form.steps| - 1) % |form.steps| < |form.steps|
      && m.after.history == s.history && m.after.phases == s.phases
      && (|form.steps| > 1 ==> m.after.stepState.None? && m.after.next.None?)
      && (|form.steps| == 1 ==> m.after.stepState == s.stepState && m.after.next == s.next)
      && forall i :: 0 <= i < |form.steps| ==> !Eligible(form, values, s.phases, i)
  {
    ScanFindsIffSomeEligible(form, values, s, intent);
  }

  /**
   * A successful scan stops at the first eligible step in wrap-around order
   * (redirected to a pending dependency when it is a Confirm step), keeps the
   * intent, clears the step state and pending navigation when it moved past
   * the start, and pushes the start exactly when it moved off a non-Message step.
   */
  lemma ScanSelectsFirstEligible(form: Form, values: Values, s: Snapshot, intent: NextStep)
    requires Consistent(form, s)
    requires ScanNext(form, values, s, intent).found
    ensures var n := |form.steps|;
      var m := ScanNext(form, values, s, intent);
      exists offset :: (0 <= offset < n
        && EligibleAt(form, values, s.phases, s.step, offset)
        && (forall k :: 0 <= k < offset ==> !EligibleAt(form, values, s.phases, s.step, k))
        && m.after.step == Redirect(form, values, s.phases, (s.step + offset) % n)
        && (offset > 0 ==> m.after.stepState.None? && m.after.next.None?)
        && (offset == 0 ==> m.after.stepState == s.stepState && m.after.next == s.next))
    ensures var m := ScanNext(form, values, s, intent);
      && m.intent == intent
      && m.after.phases == s.phases
      && m.after.history ==
           (if m.after.step != s.step && form.steps[s.step].kind != Message then s.history + [s.step] else s.history)
  {
    var offset := FirstEligible(form, values, s.phases, s.step, 0).value;
    assert 0 <= offset < |form.steps|;
  }

  /**
   * A Confirm step reached by the scan hands over to its first dependency
   * that is active and not yet Completed, and stays put when there is none:
   * it moves exactly when some dependency is pending, and then to the first.
   */
  lemma ConfirmWaitsForDependencies(form: Form, values: Values, phases: seq<StepPhase>, at: nat)
    requires WellFormed(form) && |phases| == |form.steps| && at < |phases|
    requires form.steps[at].kind == Confirm
    ensures var deps := form.steps[at].dependencies;
      (forall k :: 0 <= k < |deps| ==> !Pending(form, values, phases, deps[k])) ==> Redirect(form, values, phases, at) == at
    ensures var deps := form.steps[at].dependencies;
      var r := Redirect(form, values, phases, at);
      r != at ==> exists k :: (0 <= k < |deps|
        && IndexOf(form.steps, deps[k]) == Some(r)
        && IsActive(values, form.steps[r].name) && phases[r] != Completed
        && forall q :: 0 <= q < k ==> !Pending(form, values, phases, deps[q]))
    ensures var deps := form.steps[at].dependencies;
      forall k :: 0 <= k < |deps| && Pending(form, values, phases, deps[k])
                  && (forall q :: 0 <= q < k ==> !Pending(form, values, phases, deps[q])) ==>
        Redirect(form, values, phases, at) == IndexOf(form.steps, deps[k]).value
  {
    var deps := form.steps[at].dependencies;
    match FirstPending(form, values, phases, deps)
    case None =>
    case Some(k) =>
  }

  // ---------------------------------------------------------------------
  // Properties of the other directions
  // ---------------------------------------------------------------------

  /** Previous succeeds exactly when some history entry names an active step. */
  lemma {:induction false} PreviousFindsIffActiveInHistory(form: Form, values: Values, s: Snapshot, intent: NextStep)
    requires Consistent(form, s)
    ensures PopHistory(form, values, s, intent).found <==>
            exists k :: 0 <= k < |s.history| && IsActive(values, form.steps[s.history[k]].name)
    decreases |s.history|
  {
    if |s.history| > 0 {
      var last := s.history[|s.history| - 1];
      var rest := s.history[..|s.history| - 1];
      if !IsActive(values, form.steps[last].name) {
        PreviousFindsIffActiveInHistory(form, values, s.(history := rest), intent);
        assert forall k :: 0 <= k < |rest| ==> rest[k] == s.history[k];
      }
    }
  }

  /**
   * Previous lands on the most recent active entry of history: the entries
   * above it are inactive and discarded, the rest of history stays, the step
   * left behind keeps its answer, and the step state and pending navigation
   * are cleared. When history runs out it is empty and the intent becomes Quit.
   */
  lemma {:induction false} PreviousPopsToActive(form: Form, values: Values, s: Snapshot, intent: NextStep) returns (d: nat)
    requires Consistent(form, s)
    ensures var m := PopHistory(form, values, s, intent);
      !m.found ==> m.after == s.(history := []) && m.intent == intent.(direction := StepDirection.Quit)
    ensures var m := PopHistory(form, values, s, intent);
      m.found ==>
        && d < |s.history|
        && m.after.history == s.history[..d]
        && m.after.step == s.history[d]
        && IsActive(values, form.steps[s.history[d]].name)
        && (forall e :: d < e < |s.history| ==> !IsActive(values, form.steps[s.history[e]].name))
        && m.after.phases == s.phases[s.step := LeftPhase(form, values, s.step)][s.history[d] := Ready]
        && m.after.stepState.None? && m.after.next.None? && m.intent == intent
    decreases |s.history|
  {
    d := 0;
    if |s.history| > 0 {
      var top := |s.history| - 1;
      var rest := s.history[..top];
      if !IsActive(values, form.steps[s.history[top]].name) {
        d := PreviousPopsToActive(form, values, s.(history := rest), intent);
        if PopHistory(form, values, s, intent).found {
          assert s.history[..d] == rest[..d];
          assert forall e :: d < e < |s.history| ==> !IsActive(values, form.steps[s.history[e]].name);
        }
      } else {
        d := top;
      }
    }
  }


  /** MoveToNext reports failure only when the intent has become Complete or Quit. */
  lemma NotFoundIsTerminal(form: Form, env: Collaborators, values: Values, s: Snapshot, intent: NextStep)
    requires Consistent(form, s) && ResetFits(form, env)
    requires Transition(form, env, values, s, intent).Moved? && !Transition(form, env, values, s, intent).found
    ensures Transition(form, env, values, s, intent).intent.direction in {Complete, StepDirection.Quit}
  {
    if intent.direction == Previous {
      var _ := PreviousPopsToActive(form, values, s, intent);
    }
  }

  /** A Named intent with no names, or with one inactive name, is the Next scan after the step state is cleared. */
  lemma NamedFallsThroughToNext(form: Form, env: Collaborators, values: Values, s: Snapshot, names: seq<string>)
    requires Consistent(form, s) && ResetFits(form, env)
    requires |names| == 0 || (|names| == 1 && IndexOf(form.steps, names[0]).Some?
                              && !IsActive(values, names[0]))
    ensures var m := Transition(form, env, values, s, NamedStep(names));
      var n := ScanNext(form, values, s.(stepState := None), DefaultNext());
      m.Moved? && m.found == n.found && m.after == n.after
      && m.intent.direction == (if n.found then Named else Complete)
  {
  }

  /**
   * A Named intent with one active target jumps there: the step left keeps
   * its answer, its index is pushed, and the target starts over as Ready.
   * A name that matches no step is an error.
   */
  lemma NamedJumpsToActiveTarget(form: Form, env: Collaborators, values: Values, s: Snapshot, name: string)
    requires Consistent(form, s) && ResetFits(form, env)
    ensures var m := Transition(form, env, values, s, NamedStep([name]));
      match IndexOf(form.steps, name)
      case None => m.NoSuchStep? && m.after == s.(stepState := None)
      case Some(j) =>
        IsActive(values, name) ==>
          && m.Moved? && m.found
          && m.after.step == j
          && (forall k :: 0 <= k < j ==> form.steps[k].name != name)
          && m.after.history == s.history + [s.step]
          && m.after.phases[j] == Ready
          && (j != s.step ==> m.after.phases[s.step] == (if IsUnknown(values, form.steps[s.step].name) then Ready else Completed))
          && (forall k :: 0 <= k < |s.phases| && k != j && k != s.step ==> m.after.phases[k] == s.phases[k])
          && m.after.stepState.None? && m.after.next == s.next
  {
  }

  /** Several names report progress without moving: the user is asked which step was meant. */
  lemma SeveralNamesDoNotMove(form: Form, env: Collaborators, values: Values, s: Snapshot, names: seq<string>)
    requires Consistent(form, s) && ResetFits(form, env) && |names| > 1
    ensures Transition(form, env, values, s, NamedStep(names)) == Moved(true, s.(stepState := None), NamedStep(names))
  {
  }

  /**
   * Complete and Quit change nothing and report failure. Reset always
   * reports progress and makes every phase Ready; the step, history, step
   * state and pending navigation are what the body of FormState.Reset leaves.
   */
  lemma TerminalDirectionsChangeNothing(form: Form, env: Collaborators, values: Values, s: Snapshot, intent: NextStep)
    requires Consistent(form, s) && ResetFits(form, env)
    ensures intent.direction in {Complete, StepDirection.Quit} ==> Transition(form, env, values, s, intent) == Moved(false, s, intent)
    ensures intent.direction == StepDirection.Reset ==>
      var m := Transition(form, env, values, s, intent);
      var c := env.reset(s);
      && m.Moved? && m.found && m.intent == intent
      && (forall k :: 0 <= k < |m.after.phases| ==> m.after.phases[k] == Ready)
      && m.after.step == c.step && m.after.history == c.history
      && m.after.stepState == c.stepState && m.after.next == c.next
  {
  }

  // ---------------------------------------------------------------------
  // ActiveSteps
  // ---------------------------------------------------------------------

  /** The names, in order, whose fields are currently active. */
  function ActiveNames(values: Values, names: seq<string>): (r: seq<string>)
    ensures |r| <= |names|
    ensures forall x :: x in r <==> x in names && IsActive(values, x)
    ensures (forall x :: x in names ==> IsActive(values, x)) <==> r == names
    ensures |r| == |names| <==> r == names
  {
    if |names| == 0 then []
    else
      var rest := ActiveNames(values, names[1..]);
      assert names == [names[0]] + names[1..];
      if IsActive(values, names[0]) then [names[0]] + rest else rest
  }

  /**
   * The filter keeps order and duplicates: filtering a concatenation is
   * filtering each part, so the active names come in the order given.
   */
  lemma {:induction false} ActiveNamesDistributes(values: Values, a: seq<string>, b: seq<string>)
    ensures ActiveNames(values, a + b) == ActiveNames(values, a) + ActiveNames(values, b)
    decreases |a|
  {
    if |a| == 0 {
      assert a + b == b;
    } else {
      assert (a + b)[0] == a[0] && (a + b)[1..] == a[1..] + b;
      ActiveNamesDistributes(values, a[1..], b);
    }
  }

  /**
   * ActiveSteps: a Named intent narrowed to its active targets, a bare Next
   * when none is left, the same intent when none was dropped.
   */
  function ActiveSteps(values: Values, next: NextStep): (r: NextStep)
    ensures next.direction != Named ==> r == next
    ensures next.direction == Named ==>
      if forall x :: x in next.names ==> !IsActive(values, x) then r == DefaultNext()
      else r.direction == Named && (forall x :: x in r.names <==> x in next.names && IsActive(values, x))
    ensures next.direction == Named && (forall x :: x in next.names ==> IsActive(values, x)) && |next.names| > 0 ==> r == next
  {
    if next.direction == Named then
      var names := ActiveNames(values, next.names);
      if |names| == 0 then DefaultNext()
      else if |names| != |next.names| then
        assert names[0] in next.names && IsActive(values, names[0]);
        NamedStep(names)
      else next
    else next
  }

  /** Narrowing an intent a second time changes nothing. */
  lemma {:induction false} ActiveStepsIdempotent(values: Values, next: NextStep)
    ensures ActiveSteps(values, ActiveSteps(values, next)) == ActiveSteps(values, next)
  {
    if next.direction == Named {
      var names := ActiveNames(values, next.names);
      if |names| != 0 && |names| != |next.names| {
        assert ActiveNames(values, names) == names;
      }
    }
  }

  // ---------------------------------------------------------------------
  // Commands
  // ---------------------------------------------------------------------

  /** A command match survives the filter when it is a global command or names an active field. */
  predicate CommandApplies(values: Values, m: TermMatch)
  {
    match m.value
    case CommandValue(_) => true
    case NameValue(name) => IsActive(values, name)
    case FieldValue(_) => false
  }

  /** The command matches that survive the filter, in order. */
  function ActiveCommands(values: Values, commands: seq<TermMatch>): (r: seq<TermMatch>)
    ensures |r| <= |commands|
    ensures forall m :: m in r <==> m in commands && CommandApplies(values, m)
    ensures forall i :: 0 <= i < |commands| && CommandApplies(values, commands[i])
                        && (forall j :: 0 <= j < i ==> !CommandApplies(values, commands[j])) ==>
              |r| > 0 && r[0] == commands[i]
  {
    if |commands| == 0 then []
    else
      var rest := ActiveCommands(values, commands[1..]);
      assert commands == [commands[0]] + commands[1..];
      if CommandApplies(values, commands[0]) then [commands[0]] + rest else rest
  }

  /** The intent and feedback of a recognised command. */
  datatype CommandOutcome = CommandOutcome(next: NextStep, feedback: Option<string>)

  /** DoCommand: only the first match is acted on. */
  function DoCommand(form: Form, env: Collaborators, values: Values, s: Snapshot, step: StepRef,
                     matches: seq<TermMatch>): (r: CommandOutcome)
    requires |matches| > 0
    ensures match matches[0].value
      case CommandValue(Backup) =>
        r == CommandOutcome(NextStep(if env.back(step, values, s) then Next else Previous, []), None)
      case CommandValue(Help) => r.next == DefaultNext() && r.feedback.Some?
      case CommandValue(Status) => r.next == DefaultNext() && r.feedback.Some?
      case CommandValue(Quit) => r == CommandOutcome(NextStep(StepDirection.Quit, []), None)
      case CommandValue(Reset) => r == CommandOutcome(NextStep(StepDirection.Reset, []), None)
      case NameValue(name) =>
        r.feedback.None? &&
        r.next == (if IndexOf(form.steps, name).Some? && IsActive(values, name) then NamedStep([name]) else DefaultNext())
      case FieldValue(_) => r == CommandOutcome(DefaultNext(), None)
    ensures r.next.direction == Named ==> exists name :: r.next.names == [name] && IndexOf(form.steps, name).Some? && IsActive(values, name)
  {
    match matches[0].value
    case CommandValue(command) =>
      (match command
       case Backup => CommandOutcome(NextStep(if env.back(step, values, s) then Next else Previous, []), None)
       case Help => CommandOutcome(DefaultNext(), Some(env.help(step, values, s)))
       case Quit => CommandOutcome(NextStep(StepDirection.Quit, []), None)
       case Reset => CommandOutcome(NextStep(StepDirection.Reset, []), None)
       case Status => CommandOutcome(DefaultNext(), Some(env.status(values))))
    case NameValue(name) =>
      if IndexOf(form.steps, name).Some? && IsActive(values, name) then CommandOutcome(NamedStep([name]), None)
      else CommandOutcome(DefaultNext(), None)
    case FieldValue(_) => CommandOutcome(DefaultNext(), None)
  }

  /** The intent of a command is never narrowed away: ActiveSteps leaves it as it is. */
  lemma CommandIntentSurvivesNarrowing(form: Form, env: Collaborators, values: Values, s: Snapshot, step: StepRef,
                                       matches: seq<TermMatch>)
    requires |matches| > 0
    ensures var r := DoCommand(form, env, values, s, step, matches);
      ActiveSteps(values, r.next) == r.next
  {
    var r := DoCommand(form, env, values, s, step, matches);
    if r.next.direction == Named {
      var name :| r.next.names == [name] && IndexOf(form.steps, name).Some? && IsActive(values, name);
      assert forall x :: x in r.next.names ==> x == name;
    }
  }
}
