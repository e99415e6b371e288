# MacosUseSDK Python wrapper — a Dafny model

The Python wrapper of MacosUseSDK drives a set of Swift command-line tools: AppOpenerTool,
TraversalTool, InputControllerTool, VisualInputTool, FileSearchTool and OutputControllerTool.
It builds their arguments, scrapes what they print, decodes the JSON the traversal tool
emits, and combines the calls in `perform_action`. This project models that deterministic
logic in Dafny and proves what it promises. Every tool run, and the JSON decoding of its
stdout, is an input to the model: either the message it raised with, or what it returned.

Modules, in dependency order:

- `Wrappers` (wrappers.dfy): `Option` and `Result`.
- `PyText` (pytext.dfy): the Python string operations the wrapper uses, as functions with their laws:
  - `lower`, `strip`, `in`;
  - `split` and `join`, `split(...)[-1]`, `replace`;
  - `int()` and `str()` on integers.
- `Lists` (lists.dfy): first-match search, and the filter-and-append loop.
- `JsonValues` and `Types` (types.dfy):
  - decoded JSON values, Python truthiness and `dict.get`;
  - the exception classes and the records of `types.py`;
  - `ActionOptions.validated` and the construction of `FileSearchOptions`.
- `RunningApps` (running_apps.dfy): the osascript and `ps` listings of running applications, and the pid lookups over them.
- `ResponseDecoding` (response.dfy): `_parse_response_data`, including the exceptions it raises on badly shaped JSON.
- `ToolCalls` (toolcalls.dfy): each SDK operation as the call it makes and what it returns or raises:
  - `open_application`, `traverse_accessibility_tree`, `search_files`;
  - `_run_output_controller_action`, `_execute_input_action`.
- `TraversalDiffs` (diff.dfy): `_generate_traversal_diff`, both as written and as intended.
- `Actions` (actions.dfy): `perform_action`. It returns the `ActionResult` and the steps it took, in order.
- `AutomationHelper` (automation.dfy): the element helpers of `MacosAutomationHelper` in the advanced example.

Python values are immutable in the model. `validated` and `__post_init__` therefore build new
records, and no receiver is ever changed.

## Model

| member | source | states |
|---|---|---|
| RunningApps.FieldsRejoin | python_wrapper/macos_use_sdk/core.py:264-269 | rejoining an entry's comma fields gives the name field, then the pid field, then the bundle id; the name field is every field before the last two, joined with "," |
| RunningApps.OsascriptEntryFields | python_wrapper/macos_use_sdk/core.py:264-278 | an accepted entry is exactly `name,pid,bundle_id`; the name may hold commas; the pid field and the bundle id hold none; `int()` of the pid field is the app's pid |
| RunningApps.OsascriptEntryOfFields | python_wrapper/macos_use_sdk/core.py:264-278 | conversely, every `name,pid,bundle_id` entry whose last two fields are comma-free is accepted and yields exactly that app (the round trip of the entry format) |
| RunningApps.ParsePsListing | python_wrapper/macos_use_sdk/core.py:289-305 | the loop over the lines after the header keeps, in order, the app of each line that yields one |
| RunningApps.ParseOsascriptListing | python_wrapper/macos_use_sdk/core.py:256-278 | the loop over the ", "-separated entries of the stripped output keeps, in order, the app of each accepted entry |
| RunningApps.OsascriptListingMembers | python_wrapper/macos_use_sdk/core.py:260-278 | an app is in the listing exactly when some entry of the output yields it |
| RunningApps.AppFromCommandShape | python_wrapper/macos_use_sdk/core.py:297-303 | a command yields an app only if it contains ".app/Contents/MacOS/"; the name has no "/"; the bundle id is "unknown." + the lower-cased name; the pid is the line's pid |
| RunningApps.PsLineAppShape | python_wrapper/macos_use_sdk/core.py:291-303 | every app read from a ps line comes from a line holding ".app/Contents/MacOS/"; its name has no "/"; its bundle id is "unknown." + the lower-cased name |
| RunningApps.AppFromCommandOf | python_wrapper/macos_use_sdk/core.py:297-303 | a command yields an app exactly when it contains ".app/Contents/MacOS/"; the name is the text just before the first marker, preceded by "/" unless it is all of that text, and holds no "/" (the last "/"-separated part of the text before the marker); the app is that pid, "unknown." + the lower-cased name, and the name |
| RunningApps.PsLineOf | python_wrapper/macos_use_sdk/core.py:291-303 | the line `str(pid) + " " + comm`, for a stripped non-empty command, is read as that pid and command, so it yields exactly the command's app |
| RunningApps.ListRunningApplications | python_wrapper/macos_use_sdk/core.py:221-309 | the osascript listing is used when osascript exits 0 with non-blank output, and no apps are listed when it exits otherwise; the ps listing is used only when osascript raised; no apps are listed when ps raised too |
| RunningApps.FirstPidAt | python_wrapper/macos_use_sdk/core.py:203-215 | one tier of the lookup returns the pid of the first app in list order that matches, and None exactly when no app matches |
| RunningApps.FindRunningAppPid | python_wrapper/macos_use_sdk/core.py:198-219 | the first exact bundle-id match wins; else the first case-insensitive exact name; else the first case-insensitive name substring; None exactly when no tier matches; any pid returned belongs to a listed app |
| RunningApps.GetPidByBundleId | python_wrapper/macos_use_sdk/core.py:178-186 | the pid of the first app whose bundle id equals the argument, None exactly when there is none |
| RunningApps.FindAgreesWithBundleLookup | python_wrapper/macos_use_sdk/core.py:181-183 | whenever the bundle-id lookup finds a pid, the general lookup returns the same pid |
| ResponseDecoding.ObjectItems | python_wrapper/macos_use_sdk/core.py:373-374 | the loop `for x in v: x.get(...)` succeeds exactly on a list of dicts, "" and {}; a list fails on its first non-dict item with AttributeError; other strings and dicts fail on `.get` of a str; other values are not iterable (TypeError) |
| ResponseDecoding.DecodeObjects | python_wrapper/macos_use_sdk/core.py:372-381 | one decoded record per dict, in order, or the loop's exception |
| ResponseDecoding.DecodeAll | python_wrapper/macos_use_sdk/core.py:372-381 | the append loop, stopping at the first item without `.get`, computes `DecodeObjects` |
| ResponseDecoding.DecodeElement | python_wrapper/macos_use_sdk/core.py:374-381 | each element field is the value under its key; a missing role is "" and every other missing field None |
| ResponseDecoding.DecodeBrowserElement | python_wrapper/macos_use_sdk/core.py:389-404 | each browser-element field is the value under its key; a missing tagName is "" and every other missing field None |
| ResponseDecoding.DecodeStatistics | python_wrapper/macos_use_sdk/core.py:358-369 | each counter is the value under its key, else the field of a fresh `Statistics()` (0, and {} for role_counts); an empty stats dict gives `Statistics()` |
| ResponseDecoding.BrowserDataOf | python_wrapper/macos_use_sdk/core.py:384-410 | a falsy `browser_data` gives no browser data and no error; a truthy non-dict raises AttributeError; a dict succeeds exactly when its element list can be read, passes on that list's error, and carries url, title and the decoded elements; browser data is present exactly when `browser_data` is truthy |
| ResponseDecoding.ResponseOf | python_wrapper/macos_use_sdk/core.py:355-419 | the document decodes exactly when it is a dict whose `stats` is a dict (or missing), whose elements can be read and whose browser data decodes; a non-dict document raises; a non-dict `stats` raises first, then the elements' error, then the browser data's; missing keys take "" / "0.000" / False / `Statistics()` / [] / None; present keys are copied; the elements keep the input's length and order; the browser data is `BrowserDataOf`'s |
| ResponseDecoding.EmptyDocument | python_wrapper/macos_use_sdk/core.py:412-419 | the empty document decodes to the defaults of every field |
| ResponseDecoding.ParseResponseData | python_wrapper/macos_use_sdk/core.py:355-419 | the statistics, element and browser loops together compute `ResponseOf` |
| ToolCalls.ReportedTimeDefault | python_wrapper/macos_use_sdk/core.py:152-156 | with no stderr line holding "total execution time:" the time stays "0.000" |
| ToolCalls.ReportedTimeLastWins | python_wrapper/macos_use_sdk/core.py:154-156 | the last line holding the marker decides the time: the text after its final ':', stripped, without " seconds" |
| ToolCalls.ReportedTimeSnoc | python_wrapper/macos_use_sdk/core.py:154-156 | one more line overwrites the time when it holds the marker and leaves it otherwise |
| ToolCalls.ScanProcessingTime | python_wrapper/macos_use_sdk/core.py:150-156 | the overwrite loop over the stderr lines computes the reported time |
| ToolCalls.OpenFailure | python_wrapper/macos_use_sdk/core.py:163-166 | a tool error whose text contains "not found" in any case becomes AppNotFoundError naming the identifier; any other is re-raised unchanged |
| ToolCalls.OpenResult | python_wrapper/macos_use_sdk/core.py:145-166 | success exactly when the tool returned and `int()` reads its stripped stdout; then that int is the pid, `app_name` is the identifier and the time is the reported one; unreadable stdout raises ValueError, which is not remapped; a tool error is classified by `OpenFailure` |
| ToolCalls.OpenApplication | python_wrapper/macos_use_sdk/core.py:145-166 | the operation computes `OpenResult` |
| ToolCalls.TraversalArgs | python_wrapper/macos_use_sdk/core.py:338-341 | the append steps build `TraversalArgsOf` |
| ToolCalls.TraversalArgsShape | python_wrapper/macos_use_sdk/core.py:338-341 | "--visible-only" comes first when asked for, then `str(pid)`, which `int()` reads back as the pid; nothing else is passed |
| ToolCalls.TraversalFailure | python_wrapper/macos_use_sdk/core.py:348-353 | "accessibility" in any case gives AccessibilityError, winning over "not found"; "not found" alone gives AppNotFoundError naming the target; anything else is re-raised unchanged |
| ToolCalls.TraversalFailureIgnoresCase | python_wrapper/macos_use_sdk/core.py:349-351 | classifying the lower-cased message gives the same error class |
| ToolCalls.TraversalResult | python_wrapper/macos_use_sdk/core.py:330-353 | an unresolved name raises AppNotFoundError before any call; a tool error is classified; a returned document is decoded, and decoding errors pass through unchanged |
| ToolCalls.TraverseAccessibilityTree | python_wrapper/macos_use_sdk/core.py:330-353 | the operation computes `TraversalResult`; it calls TraversalTool exactly when the target resolves, with the arguments for the resolved pid |
| ToolCalls.LocationPairs | python_wrapper/macos_use_sdk/core.py:544-545 | the location arguments are exactly one "--location", loc pair per location, in order, at positions 2i and 2i+1 |
| ToolCalls.FilterArgsFor | python_wrapper/macos_use_sdk/core.py:533-540 | name, type, start-date and end-date pairs in that order, each only when the option is set (a string option also only when non-empty) |
| ToolCalls.SearchFilesArgs | python_wrapper/macos_use_sdk/core.py:531-545 | the argument-building steps compute the filters, then `--max`, then the locations |
| ToolCalls.FileSearchFailure | python_wrapper/macos_use_sdk/core.py:547-577 | an SDK error raised inside the search becomes FileSearchError with "File search failed: " before its message; any other exception passes through unchanged, so the result is an SDK error exactly when the cause was (it stands alone: the FileSearchTool call and the decoding inside the `try` are not modelled) |
| ToolCalls.SearchArgsLayout | python_wrapper/macos_use_sdk/core.py:541-545 | "--max" follows the filters exactly when the limit is not 100, and its value reads back as the limit; the locations come last |
| ToolCalls.DefaultSearchArgs | python_wrapper/macos_use_sdk/core.py:531-545 | default options pass only "--location" and the home directory |
| ToolCalls.OutputControllerArgs | python_wrapper/macos_use_sdk/core.py:603-605 | the action's word, then the value's text when a value is given |
| ToolCalls.ActionWordsDistinct | python_wrapper/macos_use_sdk/types.py:210-215 | distinct output-controller actions send distinct words |
| ToolCalls.SuccessMessageNone | python_wrapper/macos_use_sdk/core.py:621-625 | without a "Success:" line the message is "" |
| ToolCalls.SuccessMessageFirst | python_wrapper/macos_use_sdk/core.py:622-625 | the first line holding "Success:" gives the message (the stripped text after its first "Success:"), whatever later lines say |
| ToolCalls.ScanSuccessMessage | python_wrapper/macos_use_sdk/core.py:620-625 | the loop with its `break` computes that message |
| ToolCalls.OutputControllerOutcome | python_wrapper/macos_use_sdk/core.py:607-629 | a tool error becomes OutputControllerError with the prefixed message; otherwise the value is None for blank stdout and `float()` of the stripped stdout otherwise (None when `float()` rejects it); the message comes from stderr |
| ToolCalls.RunOutputControllerAction | python_wrapper/macos_use_sdk/core.py:597-629 | the operation builds the arguments and computes `OutputControllerOutcome` |
| ToolCalls.InputCall | python_wrapper/macos_use_sdk/core.py:455-481 | each mouse action sends its own command word ("click", "doubleclick", "rightclick", "mousemove") with `str(x)` and `str(y)`; it goes to VisualInputTool, with "--duration" and the animation duration last, exactly when animation is on; Type sends "writetext" and the text; Press sends "keypress" and the key; Scroll sends "scroll", the point, then `str()` of the vertical and horizontal amounts, which `int()` reads back; the action is chosen by `_execute_input_action` (core.py:712-750) |
| ToolCalls.PressIgnoresFlags | python_wrapper/macos_use_sdk/core.py:738-739 | a key press ignores its modifier flags |
| ToolCalls.InputFailure | python_wrapper/macos_use_sdk/core.py:483-514 | a failed input call raises InputSimulationError whose message is "Input simulation failed: " or, for VisualInputTool, "Visual input simulation failed: ", followed by the tool's message |
| Types.Validated | python_wrapper/macos_use_sdk/types.py:289-307 | a requested diff switches both traversals on; without a diff the options come back unchanged; every other field is copied |
| Types.DefaultActionOptions | python_wrapper/macos_use_sdk/types.py:278-287 | the defaults: no traversals, no diff, all elements, animation on for 0.8 s, no pid, 0.2 s delay; `validated()` leaves them unchanged |
| Types.ValidatedIdempotent | python_wrapper/macos_use_sdk/types.py:289-307 | validating twice is validating once |
| Types.NewFileSearchOptions | python_wrapper/macos_use_sdk/types.py:137-149 | an empty location list becomes the home directory alone; a non-empty one and every other field are kept |
| Types.FileSearchDefaults | python_wrapper/macos_use_sdk/types.py:139-149 | default options: no filters, only the home directory, at most 100 results |
| Types.EmptyActionResult | python_wrapper/macos_use_sdk/types.py:196-205 | every field of `ActionResult()` is None |
| TraversalDiffs.PutSpec | python_wrapper/macos_use_sdk/core.py:757-758 | a dict assignment keeps the keys distinct; it adds the key; the key maps to the new value; other entries are kept |
| TraversalDiffs.KeyedEntriesSpec | python_wrapper/macos_use_sdk/core.py:757-758 | the keyed dict holds each key of the elements once, with the last element that has it |
| TraversalDiffs.NewElementsMembers | python_wrapper/macos_use_sdk/core.py:760-761 | the comprehension keeps exactly the values whose key is missing on the other side |
| TraversalDiffs.NewElementsLength | python_wrapper/macos_use_sdk/core.py:760-761 | the comprehension keeps at most one element per dict entry |
| TraversalDiffs.OneSide | python_wrapper/macos_use_sdk/core.py:757-761 | an element is reported exactly when its key is absent on the other side and it is the last element with that key |
| TraversalDiffs.DiffContents | python_wrapper/macos_use_sdk/core.py:752-772 | added are the after-elements whose key the before traversal lacks; removed the converse; modified is always empty; both stats pass through (membership only; the dict order of the lists is not stated) |
| TraversalDiffs.GenerateTraversalDiff | python_wrapper/macos_use_sdk/core.py:752-772 | the intended diff reports no more added elements than the after traversal has and no more removed than the before traversal has; modified is empty and both stats pass through (its full contents are `DiffContents`) |
| TraversalDiffs.DiffWithItself | python_wrapper/macos_use_sdk/core.py:757-761 | a traversal diffed against itself adds and removes nothing |
| TraversalDiffs.GenerateTraversalDiffAsWritten | python_wrapper/macos_use_sdk/core.py:757-758 | as written, the diff succeeds only when both traversals are empty, and otherwise raises AttributeError for `ax_element` |
| TraversalDiffs.AsWrittenRaisesOnOneElement | python_wrapper/macos_use_sdk/types.py:54-62 | a one-element traversal makes the code as written raise, while the intended diff is empty |
| Actions.RunOpen | python_wrapper/macos_use_sdk/core.py:663-670 | only a successful Open sets the open result and the pid; a failed one gives the error text |
| Actions.RunTraversal | python_wrapper/macos_use_sdk/core.py:673-680 | a traversal runs only with its option on and a truthy pid; its result or its error text is recorded; TraversalTool gets the arguments for that pid |
| Actions.RunInput | python_wrapper/macos_use_sdk/core.py:683-687 | an Input action makes its tool call, and a failure becomes the primary error text |
| Actions.RunDiff | python_wrapper/macos_use_sdk/core.py:704-708 | a diff is made exactly when asked for and both traversals succeeded |
| Actions.PerformAction | python_wrapper/macos_use_sdk/core.py:651-710 | a failed Open returns at once with only the error; only Open sets the pid, so Input and TraverseOnly never traverse and `pid_for_traversal` is not read; traversals and diff as above; the steps are open, traversal, input, sleep (only for a positive delay), traversal, diff, each when it runs |
| AutomationHelper.FindElementByText | python_wrapper/examples/advanced_automation.py:38-43 | a found element is in the list and has non-empty text holding the query, ignoring case; None exactly when every element's test is false |
| AutomationHelper.FindElementByTextStopsFirst | python_wrapper/examples/advanced_automation.py:40-42 | the search returns the first element whose test holds, or raises the test's error, whatever follows |
| AutomationHelper.Buttons | python_wrapper/examples/advanced_automation.py:46-47 | the buttons are exactly the elements whose role is "AXButton": each is one, and each such element is among them |
| AutomationHelper.FindButtonByText | python_wrapper/examples/advanced_automation.py:45-51 | a found button is in the list, has role exactly "AXButton" and matches the query |
| AutomationHelper.ButtonSearchIsElementSearch | python_wrapper/examples/advanced_automation.py:47-51 | looking for a button is `find_element_by_text` over the buttons alone; elements of other roles are skipped whatever their text |
| AutomationHelper.CentreOf | python_wrapper/examples/advanced_automation.py:59-60 | `pos + size / 2` succeeds exactly for two numbers and is their real sum; otherwise TypeError, the division's message first when the size is not a number |
| AutomationHelper.ClickElement | python_wrapper/examples/advanced_automation.py:53-65 | ValueError, with no click, exactly when x, y, width or height is missing; otherwise success exactly when all four are numbers, TypeError if not; the click is at x + width/2, y + height/2, which lies inside a box of non-negative size; a visual click (duration 0.5) exactly when `visual` |

## Left out

- Process execution is abstracted. `_run_tool`, `_run_tool_async`, `subprocess.run` and the search for the Swift build directory are left out. Each tool run is an input: the message it raised with, or its stdout and stderr.
- `json.loads` and the `_parse_json_response` wrapper are left out. A traversal run is an input: the decoded JSON value, or the message of the SDK error raised.
- Python's `str()` on floats is a parameter (`floatText`). So is `float()` on text (`parseFloat`).
- Dates are kept as their `strftime("%Y-%m-%d")` rendering. `os.path.expanduser("~")` is a parameter.
- Text handling is simplified: `lower` and `strip` are ASCII-only, and `int()` accepts an optional sign and ASCII digits (no underscores, no Unicode digits). The `repr` quoting in `int()`'s message is approximated.
- Asynchronous execution and the sleep after an action are left out. The sleep is recorded as a step, not performed.
- `highlight_elements` is left out. It resolves the identifier and classifies errors as `traverse_accessibility_tree` does, but it calls HighlightTraversalTool with `[str(pid), "--duration", str(duration)]`, not the traversal's optional `--visible-only` and pid.
- The decoding of FileSearchTool's JSON into `FileInfo` records is left out, because it relies on `datetime.fromisoformat`.
- `cli.py`, the demo workflows and the Swift tools are not part of this model.
- TraversalDiffs.DiffContents: states which elements are added and removed, not the order of the lists; the source builds them in the dicts' insertion order.
- ToolCalls.FileSearchFailure: models only how `search_files` wraps the exceptions raised inside its `try`. It does not say which exceptions the result decoding raises, because that decoding is left out.
- AutomationHelper.ClickElement: Python's float arithmetic in the centre computation is modelled as exact real arithmetic. The click itself (`click_visual` or `click`) is returned, not issued; the tool call it makes is what `ToolCalls.InputCall` states for a Click action.
- `InputAction` holds its point as two reals, so the KeyError that `point["x"]` or `point["y"]` raises for a point dict without those keys (core.py:715-750) is not modelled.
- Actions.PerformAction: uses the corrected `_generate_traversal_diff` (see Findings). As written, any diff of non-empty traversals raises an uncaught AttributeError out of `perform_action`.

## Findings

| source | as written | input that shows it | evidently intended | confidence | as-written member | corrected member |
|---|---|---|---|---|---|---|
| python_wrapper/macos_use_sdk/core.py:757-758 | keys the elements by `elem.ax_element`, an attribute `ElementData` (types.py:54-62) does not declare, so building the dict raises AttributeError | any traversal with at least one element, e.g. one AXButton "OK" diffed against itself | elements matched by an identifying key, with added and removed as the keyed set differences | not executed | TraversalDiffs.GenerateTraversalDiffAsWritten, TraversalDiffs.AsWrittenRaisesOnOneElement | TraversalDiffs.GenerateTraversalDiff, TraversalDiffs.DiffContents |
