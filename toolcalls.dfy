/**
 * The calls `MacosSDK` (core.py) makes to its Swift command-line tools: the argument lists
 * it builds, what it reads back from their stderr, and how it turns their failures into
 * the SDK's exceptions. Running a tool is not modelled: how each run ended is an input.
 */
module ToolCalls {
  import opened Wrappers
  import opened JsonValues
  import opened PyText
  import opened Lists
  import opened Types
  import opened RunningApps
  import opened ResponseDecoding

  /** How a step that runs a tool ended: `_run_tool` (or `_parse_json_response`) raised
      `MacosUseSDKError(message)`, or it handed back a value. */
  datatype Outcome<T> = Raised(message: string) | Returned(value: T)

  /** The captured streams of a finished tool process. */
  datatype ProcessOutput = ProcessOutput(stdout: string, stderr: string)

  /** The lines the stderr scrapers walk: `stderr.strip().split('\n')`. */
  function StderrLines(stderr: string): seq<string> {
    Split(Strip(stderr), "\n")
  }

  // ------------------------------------------------------ open_application

  const TimeMarker := "total execution time:"

  /** The time a marked line reports: the text after its last ':', stripped, without " seconds". */
  function TimeValue(line: string): string {
    Replace(Strip(AfterLast(line, ":")), " seconds", "")
  }

  /** The processing time `open_application` reports for these stderr lines. */
  function ReportedTime(lines: seq<string>): string
    decreases |lines|
  {
    if lines == [] then "0.000"
    else if Contains(lines[|lines| - 1], TimeMarker) then TimeValue(lines[|lines| - 1])
    else ReportedTime(lines[..|lines| - 1])
  }

  /** Without a marked line the time stays "0.000". */
  lemma {:induction false} ReportedTimeDefault(lines: seq<string>)
    requires forall i :: 0 <= i < |lines| ==> !Contains(lines[i], TimeMarker)
    ensures ReportedTime(lines) == "0.000"
    decreases |lines|
  {
    if lines != [] {
      var init := lines[..|lines| - 1];
      assert forall i :: 0 <= i < |init| ==> init[i] == lines[i];
      ReportedTimeDefault(init);
    }
  }

  /** The last marked line decides the time. */
  lemma {:induction false} ReportedTimeLastWins(lines: seq<string>, i: nat)
    requires i < |lines| && Contains(lines[i], TimeMarker)
    requires forall j :: i < j < |lines| ==> !Contains(lines[j], TimeMarker)
    ensures ReportedTime(lines) == TimeValue(lines[i])
    decreases |lines|
  {
    if i < |lines| - 1 {
      var init := lines[..|lines| - 1];
      assert !Contains(lines[|lines| - 1], TimeMarker);
      assert forall j :: i < j < |init| ==> init[j] == lines[j];
      ReportedTimeLastWins(init, i);
    }
  }

  /** One more line: a marked one replaces the time, any other leaves it. */
  lemma ReportedTimeSnoc(init: seq<string>, line: string)
    ensures ReportedTime(init + [line]) ==
              if Contains(line, TimeMarker) then TimeValue(line) else ReportedTime(init)
  {
    var lines := init + [line];
    assert lines != [] && lines[|lines| - 1] == line && lines[..|lines| - 1] == init;
  }

  /** The loop of core.py:154-156: every marked line overwrites the time, so the last one wins. */
  method ScanProcessingTime(lines: seq<string>) returns (t: string)
    ensures t == ReportedTime(lines)
  {
    t := "0.000";
    var i := 0;
    while i < |lines|
      invariant 0 <= i <= |lines|
      invariant t == ReportedTime(lines[..i])
    {
      ReportedTimeSnoc(lines[..i], lines[i]);
      assert lines[..i + 1] == lines[..i] + [lines[i]];
      if Contains(lines[i], TimeMarker) {
        t := TimeValue(lines[i]);
      }
      i := i + 1;
    }
    assert lines[..|lines|] == lines;
  }

  /** What `int(text)` raises for text it cannot read (Python quotes the text with `repr`). */
  function IntValueError(text: string): PyError {
    PyError(ValueError, "invalid literal for int() with base 10: '" + Strip(text) + "'")
  }

  /** The error `open_application` raises when the tool raised: a message containing
      "not found" in any case becomes AppNotFoundError naming the identifier; any other is
      re-raised unchanged. */
  function OpenFailure(message: string, identifier: string): (e: PyError)
    ensures e.kind == AppNotFoundError <==> Contains(Lower(message), "not found")
    ensures e.kind == AppNotFoundError ==> e.message == "Application not found: " + identifier
    ensures e.kind != AppNotFoundError ==> e == PyError(MacosUseSDKError, message)
  {
    if Contains(Lower(message), "not found") then PyError(AppNotFoundError, "Application not found: " + identifier)
    else PyError(MacosUseSDKError, message)
  }

  /** What `open_application(identifier)` returns or raises, given how AppOpenerTool ended. */
  function OpenResult(identifier: string, run: Outcome<ProcessOutput>): (r: Result<AppOpenerResult, PyError>)
    ensures run.Raised? ==> r == Failure(OpenFailure(run.message, identifier))
    // The ValueError of `int()` is not caught by `except MacosUseSDKError`.
    ensures run.Returned? && ParseInt(run.value.stdout).None? ==> r == Failure(IntValueError(run.value.stdout))
    // A completed run whose stdout `int()` reads is a success.
    ensures r.Success? <==> run.Returned? && ParseInt(run.value.stdout).Some?
    ensures r.Success? ==>
              && run.Returned?
              && ParseInt(run.value.stdout) == Some(r.value.pid)
              && r.value.appName == identifier
              && r.value.processingTimeSeconds == ReportedTime(StderrLines(run.value.stderr))
  {
    match run
    case Raised(message) => Failure(OpenFailure(message, identifier))
    case Returned(out) =>
      match ParseInt(out.stdout)
      case None => Failure(IntValueError(out.stdout))
      case Some(pid) => Success(AppOpenerResult(pid, identifier, ReportedTime(StderrLines(out.stderr))))
  }

  /** `open_application` (core.py:145-166). */
  method OpenApplication(identifier: string, run: Outcome<ProcessOutput>) returns (r: Result<AppOpenerResult, PyError>)
    ensures r == OpenResult(identifier, run)
  {
    match run
    case Raised(message) =>
      return Failure(OpenFailure(message, identifier));
    case Returned(out) =>
      var pid := ParseInt(out.stdout);
      if pid.None? {
        return Failure(IntValueError(out.stdout));
      }
      var time := ScanProcessingTime(StderrLines(out.stderr));
      return Success(AppOpenerResult(pid.value, identifier, time));
  }

  // ------------------------------------------------ traverse_accessibility_tree

  /** `pid_or_identifier`: an int pid or a name / bundle id to resolve. */
  datatype Target = PidTarget(pid: int) | NameTarget(identifier: string)

  /** `str(pid_or_identifier)`. */
  function TargetText(t: Target): string {
    match t
    case PidTarget(pid) => IntToString(pid)
    case NameTarget(identifier) => identifier
  }

  /** The arguments of TraversalTool: the flag (when asked for) before `str(pid)`. */
  function TraversalArgsOf(onlyVisible: bool, pid: int): seq<string> {
    (if onlyVisible then ["--visible-only"] else []) + [IntToString(pid)]
  }

  /** The flag comes first when asked for, and the last argument reads back as the pid. */
  lemma TraversalArgsShape(onlyVisible: bool, pid: int)
    ensures var args := TraversalArgsOf(onlyVisible, pid);
            && |args| == (if onlyVisible then 2 else 1)
            && (onlyVisible ==> args[0] == "--visible-only")
            && ParseInt(args[|args| - 1]) == Some(pid)
  {
    var args := TraversalArgsOf(onlyVisible, pid);
    assert args[|args| - 1] == IntToString(pid);
    ParseIntRoundTrip(pid);
  }

  /** The append steps of core.py:338-341. */
  method TraversalArgs(onlyVisible: bool, pid: int) returns (args: seq<string>)
    ensures args == TraversalArgsOf(onlyVisible, pid)
  {
    args := [];
    if onlyVisible {
      args := args + ["--visible-only"];
    }
    args := args + [IntToString(pid)];
  }

  /** The error `traverse_accessibility_tree` raises when the tool (or the JSON decoding of
      its output) raised: "accessibility" in any case wins over "not found"; anything else
      is re-raised unchanged. */
  function TraversalFailure(message: string, target: Target): (e: PyError)
    ensures e.kind == AccessibilityError <==> Contains(Lower(message), "accessibility")
    ensures e.kind == AppNotFoundError <==>
              !Contains(Lower(message), "accessibility") && Contains(Lower(message), "not found")
    ensures e.kind == AppNotFoundError ==> e.message == "No application found for identifier " + TargetText(target)
    ensures e.kind != AppNotFoundError ==> e.message == message
    ensures e.kind == AccessibilityError || e.kind == AppNotFoundError || e.kind == MacosUseSDKError
  {
    var lowered := Lower(message);
    if Contains(lowered, "accessibility") then PyError(AccessibilityError, message)
    else if Contains(lowered, "not found") then
      PyError(AppNotFoundError, "No application found for identifier " + TargetText(target))
    else PyError(MacosUseSDKError, message)
  }

  lemma {:induction false} LowerTwice(s: string)
    ensures Lower(Lower(s)) == Lower(s)
  {
    forall i | 0 <= i < |s| ensures Lower(Lower(s))[i] == Lower(s)[i] {
      var c := s[i];
      if 'A' <= c <= 'Z' {
        assert 'a' <= LowerChar(c) <= 'z';
      }
    }
  }

  /** The classification ignores case: the lower-cased message is classified the same way. */
  lemma TraversalFailureIgnoresCase(message: string, target: Target)
    ensures TraversalFailure(Lower(message), target).kind == TraversalFailure(message, target).kind
  {
    LowerTwice(message);
  }

  /** The pid a traversal runs on, if the target resolves (core.py:330-335). */
  function ResolvedPid(target: Target, apps: seq<RunningApp>): Option<int> {
    match target
    case PidTarget(pid) => Some(pid)
    case NameTarget(identifier) => FindRunningAppPid(apps, identifier)
  }

  /** What `traverse_accessibility_tree(target, only_visible)` returns or raises; `apps` is the
      listing the name lookup sees, `run` how TraversalTool and the JSON decoding ended. */
  function TraversalResult(target: Target, onlyVisible: bool, apps: seq<RunningApp>, run: Outcome<Json>)
    : (r: Result<ResponseData, PyError>)
    ensures ResolvedPid(target, apps).None? ==>
              r == Failure(PyError(AppNotFoundError, "No running application found for identifier: " + target.identifier))
    ensures ResolvedPid(target, apps).Some? && run.Raised? ==> r == Failure(TraversalFailure(run.message, target))
    // Errors of the decoding itself are not SDK errors and pass through unchanged.
    ensures ResolvedPid(target, apps).Some? && run.Returned? ==> r == ResponseOf(run.value)
  {
    match ResolvedPid(target, apps)
    case None => Failure(PyError(AppNotFoundError, "No running application found for identifier: " + target.identifier))
    case Some(_) =>
      match run
      case Raised(message) => Failure(TraversalFailure(message, target))
      case Returned(doc) => ResponseOf(doc)
  }

  /** `traverse_accessibility_tree` (core.py:310-353); `args` are the arguments TraversalTool
      is called with, None when the lookup fails before any call. */
  method TraverseAccessibilityTree(target: Target, onlyVisible: bool, apps: seq<RunningApp>, run: Outcome<Json>)
    returns (r: Result<ResponseData, PyError>, args: Option<seq<string>>)
    ensures r == TraversalResult(target, onlyVisible, apps, run)
    ensures args.Some? <==> ResolvedPid(target, apps).Some?
    ensures args.Some? ==> args.value == TraversalArgsOf(onlyVisible, ResolvedPid(target, apps).value)
  {
    var pid: int;
    match target {
      case PidTarget(p) =>
        pid := p;
      case NameTarget(identifier) =>
        var found := FindRunningAppPid(apps, identifier);
        if found.None? {
          return Failure(PyError(AppNotFoundError, "No running application found for identifier: " + identifier)), None;
        }
        pid := found.value;
    }
    var toolArgs := TraversalArgs(onlyVisible, pid);
    args := Some(toolArgs);
    match run {
      case Raised(message) =>
        r := Failure(TraversalFailure(message, target));
      case Returned(doc) =>
        r := ParseResponseData(doc);
    }
  }

  // --------------------------------------------------------- search_files

  /** A `--flag value` pair for a string option, emitted only when the value is truthy. */
  function TextOptionArgs(flag: string, value: Option<string>): seq<string> {
    if value.Some? && value.value != "" then [flag, value.value] else []
  }

  /** A `--flag date` pair; a datetime is always truthy, so it is emitted whenever present. */
  function DateOptionArgs(flag: string, value: Option<string>): seq<string> {
    if value.Some? then [flag, value.value] else []
  }

  /** `--max` with the limit, only when it differs from the default 100. */
  function MaxArgs(maxResults: int): seq<string> {
    if maxResults != 100 then ["--max", IntToString(maxResults)] else []
  }

  /** One `--location` pair per location, in order. */
  function LocationArgs(locations: seq<string>): seq<string>
    decreases |locations|
  {
    if locations == [] then []
    else LocationArgs(locations[..|locations| - 1]) + ["--location", locations[|locations| - 1]]
  }

  /** Location `i` sits at positions `2i` and `2i + 1`, after its flag, and nothing else is there. */
  lemma {:induction false} LocationPairs(locations: seq<string>)
    ensures |LocationArgs(locations)| == 2 * |locations|
    ensures forall i :: 0 <= i < |locations| ==>
              LocationArgs(locations)[2 * i..2 * i + 2] == ["--location", locations[i]]
    decreases |locations|
  {
    if locations != [] {
      var n := |locations| - 1;
      var init := locations[..n];
      LocationPairs(init);
      var front := LocationArgs(init);
      var args := LocationArgs(locations);
      assert args == front + ["--location", locations[n]];
      forall i | 0 <= i < |locations|
        ensures args[2 * i..2 * i + 2] == ["--location", locations[i]]
      {
        if i < n {
          assert args[2 * i..2 * i + 2] == front[2 * i..2 * i + 2];
          assert init[i] == locations[i];
        } else {
          assert args[2 * i..2 * i + 2] == args[2 * n..];
        }
      }
    }
  }

  /** The filter arguments that come before `--max`. */
  function FilterArgs(o: FileSearchOptions): seq<string> {
    TextOptionArgs("--name", o.fileName) + TextOptionArgs("--type", o.fileType) +
    DateOptionArgs("--start-date", o.startDate) + DateOptionArgs("--end-date", o.endDate)
  }

  /** The arguments `search_files` passes to FileSearchTool. */
  function SearchArgs(o: FileSearchOptions): seq<string> {
    FilterArgs(o) + MaxArgs(o.maxResults) + LocationArgs(o.searchLocations)
  }

  /** The filter part of the argument building (core.py:531-540). */
  method FilterArgsFor(o: FileSearchOptions) returns (args: seq<string>)
    ensures args == FilterArgs(o)
  {
    args := [];
    if o.fileName.Some? && o.fileName.value != "" {
      args := args + ["--name", o.fileName.value];
    }
    if o.fileType.Some? && o.fileType.value != "" {
      args := args + ["--type", o.fileType.value];
    }
    if o.startDate.Some? {
      args := args + ["--start-date", o.startDate.value];
    }
    if o.endDate.Some? {
      args := args + ["--end-date", o.endDate.value];
    }
  }

  /** The argument building of core.py:531-545: the filters, `--max`, then one pair per location. */
  method SearchFilesArgs(o: FileSearchOptions) returns (args: seq<string>)
    ensures args == SearchArgs(o)
  {
    args := FilterArgsFor(o);
    if o.maxResults != 100 {
      args := args + ["--max", IntToString(o.maxResults)];
    }
    var prefix := args;
    var i := 0;
    while i < |o.searchLocations|
      invariant 0 <= i <= |o.searchLocations|
      invariant args == prefix + LocationArgs(o.searchLocations[..i])
    {
      assert o.searchLocations[..i + 1][..i] == o.searchLocations[..i];
      args := args + ["--location", o.searchLocations[i]];
      i := i + 1;
    }
    assert o.searchLocations[..|o.searchLocations|] == o.searchLocations;
  }

  /** Where `--max` sits: right after the filters when the limit is not 100, and otherwise
      the locations follow the filters directly; the limit reads back with `int`. */
  lemma SearchArgsLayout(o: FileSearchOptions)
    ensures var k := |FilterArgs(o)|;
            var args := SearchArgs(o);
            && (o.maxResults != 100 ==>
                  k + 2 <= |args| && args[k] == "--max" && ParseInt(args[k + 1]) == Some(o.maxResults) &&
                  args[k + 2..] == LocationArgs(o.searchLocations))
            && (o.maxResults == 100 ==> args[k..] == LocationArgs(o.searchLocations))
  {
    ParseIntRoundTrip(o.maxResults);
  }

  /** With every option at its default the tool only gets the home directory to search. */
  lemma DefaultSearchArgs(home: string)
    ensures SearchArgs(NewFileSearchOptions(home)) == ["--location", home]
  {
    var o := NewFileSearchOptions(home);
    assert o.searchLocations == [home] && o.maxResults == 100;
    assert [home][..0] == [];
    assert LocationArgs([home]) == ["--location", home];
    assert FilterArgs(o) == [];
  }

  /** What leaves `search_files` when the code in its `try` raised `e`: an SDK error is
      wrapped in FileSearchError, anything else passes through unchanged. */
  function FileSearchFailure(e: PyError): (r: PyError)
    ensures IsSdkError(e.kind) ==> r.kind == FileSearchError && r.message == "File search failed: " + e.message
    ensures !IsSdkError(e.kind) ==> r == e
    ensures IsSdkError(r.kind) <==> IsSdkError(e.kind)
  {
    if IsSdkError(e.kind) then PyError(FileSearchError, "File search failed: " + e.message) else e
  }

  // ------------------------------------------- _run_output_controller_action

  /** The arguments of OutputControllerTool: the action's word, then `str(value)` when a value
      is given; `valueText` is that rendering of the float. */
  method OutputControllerArgs(action: OutputControllerAction, valueText: Option<string>) returns (args: seq<string>)
    ensures args == [action.Value()] + (if valueText.Some? then [valueText.value] else [])
  {
    args := [action.Value()];
    if valueText.Some? {
      args := args + [valueText.value];
    }
  }

  /** The command word names the action: distinct actions send distinct words. */
  lemma ActionWordsDistinct(a: OutputControllerAction, b: OutputControllerAction)
    ensures a.Value() == b.Value() ==> a == b
  {
  }

  const SuccessMarker := "Success:"

  /** The message `_run_output_controller_action` reports for these stderr lines. */
  function SuccessMessageOf(lines: seq<string>): string {
    match FindFirst(lines, (l: string) => Contains(l, SuccessMarker))
    case None => ""
    case Some(i) => Strip(AfterFirst(lines[i], SuccessMarker))
  }

  /** Without a "Success:" line the message is empty. */
  lemma SuccessMessageNone(lines: seq<string>)
    requires forall j :: 0 <= j < |lines| ==> !Contains(lines[j], SuccessMarker)
    ensures SuccessMessageOf(lines) == ""
  {
    var p := (l: string) => Contains(l, SuccessMarker);
    assert forall j :: 0 <= j < |lines| ==> !p(lines[j]);
  }

  /** The first "Success:" line gives the message, whatever later lines say. */
  lemma SuccessMessageFirst(lines: seq<string>, i: nat)
    requires i < |lines| && Contains(lines[i], SuccessMarker)
    requires forall j :: 0 <= j < i ==> !Contains(lines[j], SuccessMarker)
    ensures SuccessMessageOf(lines) == Strip(AfterFirst(lines[i], SuccessMarker))
  {
    var p := (l: string) => Contains(l, SuccessMarker);
    assert forall j :: 0 <= j < i ==> !p(lines[j]);
    FindFirstIs(lines, p, i);
  }

  /** The loop of core.py:620-624: the text after "Success:" on the first line that has it. */
  method ScanSuccessMessage(lines: seq<string>) returns (message: string)
    ensures message == SuccessMessageOf(lines)
  {
    message := "";
    var i := 0;
    while i < |lines|
      invariant 0 <= i <= |lines|
      invariant message == ""
      invariant forall j :: 0 <= j < i ==> !Contains(lines[j], SuccessMarker)
    {
      if Contains(lines[i], SuccessMarker) {
        message := Strip(AfterFirst(lines[i], SuccessMarker));
        SuccessMessageFirst(lines, i);
        return;
      }
      i := i + 1;
    }
    SuccessMessageNone(lines);
  }

  /** The value read from the tool's stdout: `float()` of the stripped text when it is not
      empty, None when it is empty or `float()` rejects it. `parseFloat` is `float()` on text,
      None for a ValueError. */
  function OutputValue(stdout: string, parseFloat: string -> Option<real>): Option<real> {
    var text := Strip(stdout);
    if text != "" then parseFloat(text) else None
  }

  /** What the output controller operations return or raise. */
  function OutputControllerOutcome(run: Outcome<ProcessOutput>, parseFloat: string -> Option<real>)
    : (r: Result<OutputControllerResult, PyError>)
    ensures run.Raised? ==> r == Failure(PyError(OutputControllerError, "Output controller operation failed: " + run.message))
    ensures run.Returned? ==> r.Success? && r.value.message == SuccessMessageOf(StderrLines(run.value.stderr))
    ensures run.Returned? && Strip(run.value.stdout) == "" ==> r.value.value == None
    ensures run.Returned? && Strip(run.value.stdout) != "" ==> r.value.value == parseFloat(Strip(run.value.stdout))
  {
    match run
    case Raised(message) => Failure(PyError(OutputControllerError, "Output controller operation failed: " + message))
    case Returned(out) =>
      Success(OutputControllerResult(OutputValue(out.stdout, parseFloat), SuccessMessageOf(StderrLines(out.stderr))))
  }

  /** `_run_output_controller_action` (core.py:597-629): the call's arguments and its result. */
  method RunOutputControllerAction(
    action: OutputControllerAction, valueText: Option<string>, run: Outcome<ProcessOutput>,
    parseFloat: string -> Option<real>)
    returns (args: seq<string>, r: Result<OutputControllerResult, PyError>)
    ensures args == [action.Value()] + (if valueText.Some? then [valueText.value] else [])
    ensures r == OutputControllerOutcome(run, parseFloat)
  {
    args := OutputControllerArgs(action, valueText);
    match run {
      case Raised(message) =>
        r := Failure(PyError(OutputControllerError, "Output controller operation failed: " + message));
      case Returned(out) =>
        var text := Strip(out.stdout);
        var value: Option<real> := None;
        if text != "" {
          value := parseFloat(text);
        }
        var message := ScanSuccessMessage(StderrLines(out.stderr));
        r := Success(OutputControllerResult(value, message));
    }
  }

  // ---------------------------------------------------------------- input

  const InputTool := "InputControllerTool"
  const VisualTool := "VisualInputTool"

  /** One call of an input tool. */
  datatype ToolCall = ToolCall(tool: string, args: seq<string>)

  /** The call `_execute_input_action` makes for an action (core.py:712-750, 455-514).
      `floatText` is Python's `str` on floats. Mouse actions go to VisualInputTool,
      with the animation duration, exactly when the options ask for animation. */
  function InputCall(a: InputAction, o: ActionOptions, floatText: real -> string): (c: ToolCall)
    ensures c.tool == VisualTool <==> o.showAnimation && (a.Click? || a.DoubleClick? || a.RightClick? || a.Move?)
    ensures c.tool == InputTool || c.tool == VisualTool
    ensures c.tool == VisualTool ==> |c.args| == 5 && c.args[3..] == ["--duration", floatText(o.animationDuration)]
    ensures (a.Click? || a.DoubleClick? || a.RightClick? || a.Move?) && !o.showAnimation ==> |c.args| == 3
    // Each mouse action names its own command, then `str(x)` and `str(y)`.
    ensures a.Click? ==> c.args[..3] == ["click", floatText(a.x), floatText(a.y)]
    ensures a.DoubleClick? ==> c.args[..3] == ["doubleclick", floatText(a.x), floatText(a.y)]
    ensures a.RightClick? ==> c.args[..3] == ["rightclick", floatText(a.x), floatText(a.y)]
    ensures a.Move? ==> c.args[..3] == ["mousemove", floatText(a.x), floatText(a.y)]
    ensures a.Type? ==> c.args == ["writetext", a.text]
    ensures a.Press? ==> c.args == ["keypress", a.keyName]
    // A scroll sends the point, then `str()` of the vertical and horizontal amounts, which
    // `int()` reads back.
    ensures a.Scroll? ==>
              && c.tool == InputTool && |c.args| == 5
              && c.args[..3] == ["scroll", floatText(a.x), floatText(a.y)]
              && c.args[3] == IntToString(a.deltaY) && c.args[4] == IntToString(a.deltaX)
              && ParseInt(c.args[3]) == Some(a.deltaY) && ParseInt(c.args[4]) == Some(a.deltaX)
  {
    match a
    case Click(x, y) => MouseCall("click", x, y, o, floatText)
    case DoubleClick(x, y) => MouseCall("doubleclick", x, y, o, floatText)
    case RightClick(x, y) => MouseCall("rightclick", x, y, o, floatText)
    case Move(x, y) => MouseCall("mousemove", x, y, o, floatText)
    case Type(text) => ToolCall(InputTool, ["writetext", text])
    case Press(keyName, _) => ToolCall(InputTool, ["keypress", keyName])
    case Scroll(x, y, deltaY, deltaX) =>
      ParseIntRoundTrip(deltaY);
      ParseIntRoundTrip(deltaX);
      ToolCall(InputTool, ["scroll", floatText(x), floatText(y), IntToString(deltaY), IntToString(deltaX)])
  }

  function MouseCall(command: string, x: real, y: real, o: ActionOptions, floatText: real -> string): ToolCall {
    if o.showAnimation then
      ToolCall(VisualTool, [command, floatText(x), floatText(y), "--duration", floatText(o.animationDuration)])
    else
      ToolCall(InputTool, [command, floatText(x), floatText(y)])
  }

  /** A key press ignores its modifier flags. */
  lemma PressIgnoresFlags(keyName: string, f: int, g: int, o: ActionOptions, floatText: real -> string)
    ensures InputCall(Press(keyName, f), o, floatText) == InputCall(Press(keyName, g), o, floatText)
  {
  }

  /** What the input helpers raise when the tool raised (core.py:483-487, 510-514). */
  function InputFailure(call: ToolCall, message: string): (e: PyError)
    ensures e.kind == InputSimulationError
    ensures |message| < |e.message| && e.message[|e.message| - |message|..] == message
    ensures e.message == (if call.tool == VisualTool then "Visual input simulation failed: "
                          else "Input simulation failed: ") + message
  {
    if call.tool == VisualTool then PyError(InputSimulationError, "Visual input simulation failed: " + message)
    else PyError(InputSimulationError, "Input simulation failed: " + message)
  }
}
