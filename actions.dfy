/**
 * `perform_action` (core.py:651-710): open an application or simulate one input action,
 * optionally traversing the accessibility tree before and after and diffing the two.
 * Every tool run is an input (how it ended); the model returns the `ActionResult` and the
 * steps taken, in order.
 */
module Actions {
  import opened Wrappers
  import opened JsonValues
  import opened Types
  import opened ToolCalls
  import opened TraversalDiffs

  /** One step of `perform_action`: a tool run, the sleep after the action, or the diff. */
  datatype Step = Run(call: ToolCall) | Sleep(seconds: real) | Diff

  const OpenerTool := "AppOpenerTool"
  const TraversalTool := "TraversalTool"

  function TraversalCall(onlyVisible: bool, pid: int): ToolCall {
    ToolCall(TraversalTool, TraversalArgsOf(onlyVisible, pid))
  }

  /** The AppOpenerTool run an Open action starts with. */
  function OpenSteps(action: PrimaryAction): seq<Step> {
    if action.Open? then [Run(ToolCall(OpenerTool, [action.identifier]))] else []
  }

  /** The TraversalTool run of one traversal, when it happens. */
  function TraversalSteps(flag: bool, pid: Option<int>, onlyVisible: bool): seq<Step> {
    if Traverses(flag, pid) then [Run(TraversalCall(onlyVisible, pid.value))] else []
  }

  /** The input tool run of an Input action. */
  function InputSteps(action: PrimaryAction, o: ActionOptions, floatText: real -> string): seq<Step> {
    if action.Input? then [Run(InputCall(action.action, o, floatText))] else []
  }

  /** The options in force: `ActionOptions()` when none are given, then `validated()`. */
  function EffectiveOptions(options: Option<ActionOptions>): ActionOptions {
    Validated(options.GetOr(DefaultActionOptions()))
  }

  /** `options.traverse_x and result.traversal_pid`: a pid of 0 is falsy. */
  predicate Traverses(flag: bool, pid: Option<int>) {
    flag && pid.Some? && pid.value != 0
  }

  /** The action gets past its first step: it is not an Open, or the application opened. */
  predicate Proceeds(action: PrimaryAction, openRun: Outcome<ProcessOutput>) {
    !action.Open? || OpenResult(action.identifier, openRun).Success?
  }

  /** A traversal's result field and error field after it ran with this outcome. */
  predicate TraversalRecorded(r: Result<ResponseData, PyError>, data: Option<ResponseData>, error: Option<string>) {
    match r
    case Success(v) => data == Some(v) && error == None
    case Failure(e) => data == None && error == Some(e.message)
  }

  /** One traversal step of `perform_action`: runs when `flag` is on and the pid is truthy,
      and an exception becomes the error text instead of propagating. */
  method RunTraversal(flag: bool, pid: Option<int>, onlyVisible: bool, run: Outcome<Json>)
    returns (data: Option<ResponseData>, error: Option<string>, steps: seq<Step>)
    ensures Traverses(flag, pid) ==>
              TraversalRecorded(TraversalResult(PidTarget(pid.value), onlyVisible, [], run), data, error)
    ensures !Traverses(flag, pid) ==> data == None && error == None
    ensures steps == TraversalSteps(flag, pid, onlyVisible)
  {
    data, error, steps := None, None, [];
    if flag && pid.Some? && pid.value != 0 {
      var r, args := TraverseAccessibilityTree(PidTarget(pid.value), onlyVisible, [], run);
      steps := [Run(ToolCall(TraversalTool, args.value))];
      if r.Success? {
        data := Some(r.value);
      } else {
        error := Some(r.error.message);
      }
    }
  }

  /** The Open step of `perform_action`: the result and pid on success, the error text
      otherwise; other actions skip it. */
  method RunOpen(action: PrimaryAction, openRun: Outcome<ProcessOutput>)
    returns (openResult: Option<AppOpenerResult>, pid: Option<int>, error: Option<string>)
    ensures !Proceeds(action, openRun) ==>
              openResult == None && pid == None && error == Some(OpenResult(action.identifier, openRun).error.message)
    ensures Proceeds(action, openRun) && action.Open? ==>
              openResult == Some(OpenResult(action.identifier, openRun).value) &&
              pid == Some(OpenResult(action.identifier, openRun).value.pid) && error == None
    ensures !action.Open? ==> openResult == None && pid == None && error == None
  {
    openResult, pid, error := None, None, None;
    if action.Open? {
      var open := OpenApplication(action.identifier, openRun);
      if open.Failure? {
        error := Some(open.error.message);
      } else {
        openResult, pid := Some(open.value), Some(open.value.pid);
      }
    }
  }

  /** The input step of `perform_action`: the error text when the input tool raised. */
  method RunInput(action: PrimaryAction, o: ActionOptions, inputError: Option<string>, floatText: real -> string)
    returns (error: Option<string>, steps: seq<Step>)
    ensures action.Input? ==>
              error == (if inputError.Some? then Some(InputFailure(InputCall(action.action, o, floatText), inputError.value).message)
                        else None)
    ensures !action.Input? ==> error == None
    ensures steps == InputSteps(action, o, floatText)
  {
    error, steps := None, [];
    if action.Input? {
      var call := InputCall(action.action, o, floatText);
      steps := [Run(call)];
      if inputError.Some? {
        error := Some(InputFailure(call, inputError.value).message);
      }
    }
  }

  /** The diff step of `perform_action`: only when asked for and both traversals succeeded. */
  method RunDiff<K(==)>(showDiff: bool, before: Option<ResponseData>, after: Option<ResponseData>, key: ElementData -> K)
    returns (diff: Option<TraversalDiff>, steps: seq<Step>)
    ensures diff.Some? <==> showDiff && before.Some? && after.Some?
    ensures diff.Some? ==> diff.value == GenerateTraversalDiff(before.value, after.value, key)
    ensures steps == if diff.Some? then [Diff] else []
  {
    diff, steps := None, [];
    if showDiff && before.Some? && after.Some? {
      diff := Some(GenerateTraversalDiff(before.value, after.value, key));
      steps := [Diff];
    }
  }

  /** `perform_action(action, options)`. `openRun`, `beforeRun`, `inputError` and `afterRun`
      say how AppOpenerTool, the two TraversalTool runs and the input tool end (`inputError`
      is the message the input tool raised with, if it did); `floatText` is `str` on floats;
      `key` matches elements across the two traversals. */
  method PerformAction<K(==)>(
    action: PrimaryAction,
    options: Option<ActionOptions>,
    openRun: Outcome<ProcessOutput>,
    beforeRun: Outcome<Json>,
    inputError: Option<string>,
    afterRun: Outcome<Json>,
    floatText: real -> string,
    key: ElementData -> K)
    returns (result: ActionResult, steps: seq<Step>)
    // A failed Open stops everything: only the error is reported.
    ensures !Proceeds(action, openRun) ==>
              result == EmptyActionResult().(primaryActionError := Some(OpenResult(action.identifier, openRun).error.message)) &&
              steps == OpenSteps(action)
    // Only a successful Open provides the pid to traverse; `pid_for_traversal` is not read.
    ensures Proceeds(action, openRun) && action.Open? ==>
              result.openResult == Some(OpenResult(action.identifier, openRun).value) &&
              result.traversalPid == Some(OpenResult(action.identifier, openRun).value.pid)
    ensures !action.Open? ==>
              result.openResult == None && result.traversalPid == None &&
              result.traversalBefore == None && result.traversalAfter == None && result.traversalDiff == None &&
              result.traversalBeforeError == None && result.traversalAfterError == None
    // Each traversal runs when its option is on and there is a non-zero pid.
    ensures var o := EffectiveOptions(options);
            Proceeds(action, openRun) && Traverses(o.traverseBefore, result.traversalPid) ==>
              TraversalRecorded(TraversalResult(PidTarget(result.traversalPid.value), o.onlyVisibleElements, [], beforeRun),
                                result.traversalBefore, result.traversalBeforeError)
    ensures var o := EffectiveOptions(options);
            !Traverses(o.traverseBefore, result.traversalPid) ==>
              result.traversalBefore == None && result.traversalBeforeError == None
    ensures var o := EffectiveOptions(options);
            Proceeds(action, openRun) && Traverses(o.traverseAfter, result.traversalPid) ==>
              TraversalRecorded(TraversalResult(PidTarget(result.traversalPid.value), o.onlyVisibleElements, [], afterRun),
                                result.traversalAfter, result.traversalAfterError)
    ensures var o := EffectiveOptions(options);
            !Traverses(o.traverseAfter, result.traversalPid) ==>
              result.traversalAfter == None && result.traversalAfterError == None
    // The input action's failure is the primary error.
    ensures var o := EffectiveOptions(options);
            action.Input? ==>
              result.primaryActionError ==
                (if inputError.Some? then Some(InputFailure(InputCall(action.action, o, floatText), inputError.value).message)
                 else None)
    ensures Proceeds(action, openRun) && !action.Input? ==> result.primaryActionError == None
    // A diff exactly when asked for and both traversals succeeded.
    ensures var o := EffectiveOptions(options);
            Proceeds(action, openRun) ==>
              (result.traversalDiff.Some? <==> o.showDiff && result.traversalBefore.Some? && result.traversalAfter.Some?)
    ensures result.traversalDiff.Some? ==>
              result.traversalBefore.Some? && result.traversalAfter.Some? &&
              result.traversalDiff.value == GenerateTraversalDiff(result.traversalBefore.value, result.traversalAfter.value, key)
    // The steps, in order.
    ensures var o := EffectiveOptions(options);
            Proceeds(action, openRun) ==>
              steps ==
                OpenSteps(action) +
                TraversalSteps(o.traverseBefore, result.traversalPid, o.onlyVisibleElements) +
                InputSteps(action, o, floatText) +
                (if o.delayAfterAction > 0.0 then [Sleep(o.delayAfterAction)] else []) +
                TraversalSteps(o.traverseAfter, result.traversalPid, o.onlyVisibleElements) +
                (if result.traversalDiff.Some? then [Diff] else [])
  {
    var o := EffectiveOptions(options);
    var openResult, pid, openError := RunOpen(action, openRun);
    if openError.Some? {
      result := EmptyActionResult().(primaryActionError := openError);
      steps := OpenSteps(action);
      return;
    }
    var before, beforeError, beforeSteps := RunTraversal(o.traverseBefore, pid, o.onlyVisibleElements, beforeRun);
    var inputFailure, inputSteps := RunInput(action, o, inputError, floatText);
    var sleepSteps: seq<Step> := if o.delayAfterAction > 0.0 then [Sleep(o.delayAfterAction)] else [];
    var after, afterError, afterSteps := RunTraversal(o.traverseAfter, pid, o.onlyVisibleElements, afterRun);
    var diff, diffSteps := RunDiff(o.showDiff, before, after, key);
    result := ActionResult(openResult, pid, before, after, diff, inputFailure, beforeError, afterError);
    steps := OpenSteps(action) + beforeSteps + inputSteps + sleepSteps + afterSteps + diffSteps;
  }
}
