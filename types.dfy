/** Values produced by `json.loads`, as the wrapper receives them from the Swift tools. */
module JsonValues {

  datatype Json =
    | JNull
    | JBool(b: bool)
    | JInt(i: int)
    | JFloat(f: real)
    | JStr(s: string)
    | JArr(items: seq<Json>)
    | JObj(fields: map<string, Json>)

  /** Python truthiness of a decoded JSON value (`if v:`). */
  predicate Truthy(v: Json) {
    match v
    case JNull => false
    case JBool(b) => b
    case JInt(i) => i != 0
    case JFloat(f) => f != 0.0
    case JStr(s) => s != ""
    case JArr(items) => items != []
    case JObj(fields) => fields != map[]
  }

  /** `d.get(key, fallback)`; `d.get(key)` is `Get(d, key, JNull)`. */
  function Get(d: map<string, Json>, key: string, fallback: Json): Json {
    if key in d then d[key] else fallback
  }
}

/**
 * The records, options and exceptions of `macos_use_sdk/types.py`.
 * Fields that `_parse_response_data` fills straight from the decoded JSON hold a
 * `Json`, because Python stores whatever value the key maps to.
 */
module Types {
  import opened Wrappers
  import opened JsonValues

  // ----------------------------------------------------------- exceptions

  datatype ErrorKind =
    | MacosUseSDKError
    | AccessibilityError
    | AppNotFoundError
    | InputSimulationError
    | FileSearchError
    | OutputControllerError
    | ValueError       // raised by int()
    | AttributeError   // raised by attribute lookup on the wrong kind of value
    | TypeError        // raised by iterating a value that is not iterable

  /** A raised exception: its class and `str(e)`. */
  datatype PyError = PyError(kind: ErrorKind, message: string)

  /** The classes caught by `except MacosUseSDKError`: the base class and its subclasses. */
  predicate IsSdkError(k: ErrorKind) {
    !(k.ValueError? || k.AttributeError? || k.TypeError?)
  }

  // -------------------------------------------------------------- records

  datatype ElementData = ElementData(
    role: Json, text: Json, x: Json, y: Json, width: Json, height: Json)

  datatype BrowserElementData = BrowserElementData(
    tagName: Json, id: Json, className: Json, text: Json, value: Json,
    placeholder: Json, ariaLabel: Json, role: Json, href: Json, src: Json,
    x: Json, y: Json, width: Json, height: Json)

  datatype BrowserPageData = BrowserPageData(
    url: Json, title: Json, elements: seq<BrowserElementData>)

  datatype Statistics = Statistics(
    count: Json,
    excludedCount: Json,
    excludedNonInteractable: Json,
    excludedNoText: Json,
    withTextCount: Json,
    withoutTextCount: Json,
    visibleElementsCount: Json,
    roleCounts: Json,
    browserElementsCount: Json)

  /** `Statistics()`: every counter 0 and an empty role map. */
  function DefaultStatistics(): Statistics {
    Statistics(JInt(0), JInt(0), JInt(0), JInt(0), JInt(0), JInt(0), JInt(0), JObj(map[]), JInt(0))
  }

  datatype ResponseData = ResponseData(
    appName: Json,
    elements: seq<ElementData>,
    stats: Statistics,
    processingTimeSeconds: Json,
    isBrowser: Json,
    browserData: Option<BrowserPageData>)

  datatype AppOpenerResult = AppOpenerResult(pid: int, appName: string, processingTimeSeconds: string)

  datatype OutputControllerResult = OutputControllerResult(value: Option<real>, message: string)

  datatype AttributeChangeDetail = AttributeChangeDetail(
    attributeName: string, addedText: Option<string>, removedText: Option<string>,
    oldValue: Option<string>, newValue: Option<string>)

  datatype ElementChange = ElementChange(
    axElement: string, changeType: string, changes: seq<AttributeChangeDetail>)

  datatype TraversalDiff = TraversalDiff(
    addedElements: seq<ElementData>,
    removedElements: seq<ElementData>,
    modifiedElements: seq<ElementChange>,
    statsBefore: Option<Statistics>,
    statsAfter: Option<Statistics>)

  datatype ActionResult = ActionResult(
    openResult: Option<AppOpenerResult>,
    traversalPid: Option<int>,
    traversalBefore: Option<ResponseData>,
    traversalAfter: Option<ResponseData>,
    traversalDiff: Option<TraversalDiff>,
    primaryActionError: Option<string>,
    traversalBeforeError: Option<string>,
    traversalAfterError: Option<string>)

  /** `ActionResult()`: every field None. */
  function EmptyActionResult(): (r: ActionResult)
    ensures r.openResult == None && r.traversalPid == None
    ensures r.traversalBefore == None && r.traversalAfter == None && r.traversalDiff == None
    ensures r.primaryActionError == None && r.traversalBeforeError == None && r.traversalAfterError == None
  {
    ActionResult(None, None, None, None, None, None, None, None)
  }

  // -------------------------------------------------------------- actions

  datatype OutputControllerAction = SetVolume | GetVolume | SetBrightness | GetBrightness {
    /** The enum's `.value`, the command word of OutputControllerTool. */
    function Value(): string {
      match this
      case SetVolume => "set-volume"
      case GetVolume => "get-volume"
      case SetBrightness => "set-brightness"
      case GetBrightness => "get-brightness"
    }
  }

  datatype InputAction =
    | Click(x: real, y: real)
    | DoubleClick(x: real, y: real)
    | RightClick(x: real, y: real)
    | Type(text: string)
    | Press(keyName: string, flags: int)
    | Move(x: real, y: real)
    | Scroll(x: real, y: real, deltaY: int, deltaX: int)

  datatype PrimaryAction =
    | Open(identifier: string)
    | Input(action: InputAction)
    | TraverseOnly

  // -------------------------------------------------------------- options

  datatype ActionOptions = ActionOptions(
    traverseBefore: bool,
    traverseAfter: bool,
    showDiff: bool,
    onlyVisibleElements: bool,
    showAnimation: bool,
    animationDuration: real,
    pidForTraversal: Option<int>,
    delayAfterAction: real)

  /** `ActionOptions()` with every field at its declared default: no traversal and no diff,
      animated input, and options that `validated()` leaves as they are. */
  function DefaultActionOptions(): (o: ActionOptions)
    ensures !o.traverseBefore && !o.traverseAfter && !o.showDiff && !o.onlyVisibleElements
    ensures o.showAnimation && o.animationDuration == 0.8
    ensures o.pidForTraversal == None && o.delayAfterAction == 0.2
    ensures Validated(o) == o
  {
    ActionOptions(false, false, false, false, true, 0.8, None, 0.2)
  }

  /** `ActionOptions.validated`: a copy in which a requested diff switches on both traversals. */
  function Validated(o: ActionOptions): (r: ActionOptions)
    ensures r.showDiff ==> r.traverseBefore && r.traverseAfter
    ensures !o.showDiff ==> r == o
    ensures o.traverseBefore ==> r.traverseBefore
    ensures o.traverseAfter ==> r.traverseAfter
    ensures r.showDiff == o.showDiff
    ensures r.onlyVisibleElements == o.onlyVisibleElements
    ensures r.showAnimation == o.showAnimation
    ensures r.animationDuration == o.animationDuration
    ensures r.pidForTraversal == o.pidForTraversal
    ensures r.delayAfterAction == o.delayAfterAction
  {
    if o.showDiff then o.(traverseBefore := true, traverseAfter := true) else o
  }

  /** Validating twice is the same as validating once. */
  lemma ValidatedIdempotent(o: ActionOptions)
    ensures Validated(Validated(o)) == Validated(o)
  {
  }

  /** The date fields hold the `strftime("%Y-%m-%d")` rendering of the datetime. */
  datatype FileSearchOptions = FileSearchOptions(
    fileName: Option<string>,
    fileType: Option<string>,
    startDate: Option<string>,
    endDate: Option<string>,
    searchLocations: seq<string>,
    maxResults: int)

  /** Constructing `FileSearchOptions`, including `__post_init__`; `home` is what
      `os.path.expanduser("~")` returns. The other parameters carry the dataclass defaults. */
  function NewFileSearchOptions(
    home: string,
    fileName: Option<string> := None,
    fileType: Option<string> := None,
    startDate: Option<string> := None,
    endDate: Option<string> := None,
    searchLocations: seq<string> := [],
    maxResults: int := 100): (o: FileSearchOptions)
    ensures searchLocations == [] ==> o.searchLocations == [home]
    ensures searchLocations != [] ==> o.searchLocations == searchLocations
    ensures o.fileName == fileName && o.fileType == fileType
    ensures o.startDate == startDate && o.endDate == endDate
    ensures o.maxResults == maxResults
  {
    FileSearchOptions(fileName, fileType, startDate, endDate,
                      if searchLocations == [] then [home] else searchLocations,
                      maxResults)
  }

  /** The defaults: no filters, only the home directory, at most 100 results. */
  lemma FileSearchDefaults(home: string)
    ensures NewFileSearchOptions(home) == FileSearchOptions(None, None, None, None, [home], 100)
  {
  }
}
