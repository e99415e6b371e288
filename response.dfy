/**
 * `_parse_response_data` (core.py:355-419): the map from the traversal tool's decoded JSON
 * document to `ResponseData`. Every key is read with `.get` and a fixed default, so the
 * document may lack any of them; what it cannot do is hold a value of the wrong shape
 * where the code calls `.get` on it or iterates it, which raises Python's own
 * AttributeError or TypeError.
 */
module ResponseDecoding {
  import opened Wrappers
  import opened JsonValues
  import opened Types
  import opened Lists

  // -------------------------------------------------- Python's own errors

  /** `type(v).__name__` of a decoded JSON value. */
  function TypeName(v: Json): string {
    match v
    case JNull => "NoneType"
    case JBool(_) => "bool"
    case JInt(_) => "int"
    case JFloat(_) => "float"
    case JStr(_) => "str"
    case JArr(_) => "list"
    case JObj(_) => "dict"
  }

  /** What `v.get(...)` raises when `v` is not a dict. */
  function NoGet(v: Json): PyError {
    PyError(AttributeError, "'" + TypeName(v) + "' object has no attribute 'get'")
  }

  /** What `for x in v` raises when `v` is not iterable. */
  function NotIterable(v: Json): PyError {
    PyError(TypeError, "'" + TypeName(v) + "' object is not iterable")
  }

  /** The dicts that `for x in v: ... x.get(...)` reads, or what that loop raises. A list
      yields its items; a string its one-character strings and a dict its keys, neither of
      which has `.get`; any other value is not iterable. */
  function ObjectItems(v: Json): (r: Result<seq<map<string, Json>>, PyError>)
    ensures r.Success? <==>
              (v.JArr? && forall i :: 0 <= i < |v.items| ==> v.items[i].JObj?) ||
              v == JStr("") || v == JObj(map[])
    ensures r.Success? && v.JArr? ==>
              |r.value| == |v.items| && forall i :: 0 <= i < |v.items| ==> v.items[i] == JObj(r.value[i])
    ensures r.Failure? && v.JArr? ==>
              exists i :: 0 <= i < |v.items| && r.error == NoGet(v.items[i]) && !v.items[i].JObj? &&
                          forall j :: 0 <= j < i ==> v.items[j].JObj?
    ensures r.Failure? && (v.JStr? || v.JObj?) ==> r.error == NoGet(JStr(""))
    ensures r.Failure? && !(v.JArr? || v.JStr? || v.JObj?) ==> r.error == NotIterable(v)
  {
    match v
    case JArr(items) =>
      (match FindFirst(items, (x: Json) => !x.JObj?)
       case Some(i) => Failure(NoGet(items[i]))
       case None => Success(seq(|items|, i requires 0 <= i < |items| => items[i].fields)))
    case JStr(s) => if s == "" then Success([]) else Failure(NoGet(JStr("")))
    case JObj(fields) => if fields == map[] then Success([]) else Failure(NoGet(JStr("")))
    case _ => Failure(NotIterable(v))
  }

  /** The list an append loop over `v` builds with `decode`, or what the loop raises. */
  function DecodeObjects<U>(v: Json, decode: map<string, Json> -> U): (r: Result<seq<U>, PyError>)
    ensures r.Failure? <==> ObjectItems(v).Failure?
    ensures r.Failure? ==> r.error == ObjectItems(v).error
    ensures r.Success? ==>
              |r.value| == |ObjectItems(v).value| &&
              forall i :: 0 <= i < |r.value| ==> r.value[i] == decode(ObjectItems(v).value[i])
  {
    match ObjectItems(v)
    case Failure(e) => Failure(e)
    case Success(ms) => Success(seq(|ms|, i requires 0 <= i < |ms| => decode(ms[i])))
  }

  /** The append loops of core.py:372-381 and 387-404: one decoded record per dict, in
      order; the first item without `.get` stops the loop with its AttributeError. */
  method DecodeAll<U>(v: Json, decode: map<string, Json> -> U) returns (r: Result<seq<U>, PyError>)
    ensures r == DecodeObjects(v, decode)
  {
    match v
    case JArr(items) =>
      var out: seq<U> := [];
      var i := 0;
      while i < |items|
        invariant 0 <= i <= |items|
        invariant |out| == i
        invariant forall j :: 0 <= j < i ==> items[j].JObj? && out[j] == decode(items[j].fields)
      {
        if !items[i].JObj? {
          return Failure(NoGet(items[i]));
        }
        out := out + [decode(items[i].fields)];
        i := i + 1;
      }
      var ms := ObjectItems(v).value;
      assert |ms| == |out| && forall k :: 0 <= k < |ms| ==> out[k] == decode(ms[k]);
      var expected := DecodeObjects(v, decode);
      assert expected.Success?;
      assert expected.value == out;
      return Success(out);
    case JStr(s) =>
      if s == "" {
        return Success([]);
      }
      return Failure(NoGet(JStr("")));
    case JObj(fields) =>
      if fields == map[] {
        return Success([]);
      }
      return Failure(NoGet(JStr("")));
    case _ =>
      return Failure(NotIterable(v));
  }

  // ------------------------------------------------------------ records

  /** The keys read for each `ElementData` field, in field order, and their defaults. */
  const ElementKeys: seq<string> := ["role", "text", "x", "y", "width", "height"]
  const ElementDefaults: seq<Json> := [JStr(""), JNull, JNull, JNull, JNull, JNull]

  function ElementFields(e: ElementData): seq<Json> {
    [e.role, e.text, e.x, e.y, e.width, e.height]
  }

  /** One element dict (core.py:374-381): each field is the value under its key, or the
      default when the key is missing. */
  function DecodeElement(m: map<string, Json>): (e: ElementData)
    ensures forall k :: 0 <= k < |ElementKeys| ==>
              ElementFields(e)[k] == (if ElementKeys[k] in m then m[ElementKeys[k]] else ElementDefaults[k])
  {
    ElementData(Get(m, "role", JStr("")), Get(m, "text", JNull), Get(m, "x", JNull),
                Get(m, "y", JNull), Get(m, "width", JNull), Get(m, "height", JNull))
  }

  const BrowserElementKeys: seq<string> :=
    ["tagName", "id", "className", "text", "value", "placeholder", "ariaLabel",
     "role", "href", "src", "x", "y", "width", "height"]

  function BrowserElementFields(e: BrowserElementData): seq<Json> {
    [e.tagName, e.id, e.className, e.text, e.value, e.placeholder, e.ariaLabel,
     e.role, e.href, e.src, e.x, e.y, e.width, e.height]
  }

  /** One browser element dict (core.py:389-404): `tagName` defaults to "", every other
      field to None. */
  function DecodeBrowserElement(m: map<string, Json>): (e: BrowserElementData)
    ensures forall k :: 0 <= k < |BrowserElementKeys| ==>
              BrowserElementFields(e)[k] ==
                (if BrowserElementKeys[k] in m then m[BrowserElementKeys[k]]
                 else if k == 0 then JStr("") else JNull)
  {
    BrowserElementData(
      Get(m, "tagName", JStr("")), Get(m, "id", JNull), Get(m, "className", JNull),
      Get(m, "text", JNull), Get(m, "value", JNull), Get(m, "placeholder", JNull),
      Get(m, "ariaLabel", JNull), Get(m, "role", JNull), Get(m, "href", JNull),
      Get(m, "src", JNull), Get(m, "x", JNull), Get(m, "y", JNull),
      Get(m, "width", JNull), Get(m, "height", JNull))
  }

  const StatisticsKeys: seq<string> :=
    ["count", "excluded_count", "excluded_non_interactable", "excluded_no_text",
     "with_text_count", "without_text_count", "visible_elements_count", "role_counts",
     "browser_elements_count"]

  function StatisticsFields(s: Statistics): seq<Json> {
    [s.count, s.excludedCount, s.excludedNonInteractable, s.excludedNoText, s.withTextCount,
     s.withoutTextCount, s.visibleElementsCount, s.roleCounts, s.browserElementsCount]
  }

  /** The stats dict (core.py:359-369): each field is the value under its key, or the field
      of a fresh `Statistics()` when the key is missing. */
  function DecodeStatistics(m: map<string, Json>): (s: Statistics)
    ensures forall k :: 0 <= k < |StatisticsKeys| ==>
              StatisticsFields(s)[k] ==
                (if StatisticsKeys[k] in m then m[StatisticsKeys[k]] else StatisticsFields(DefaultStatistics())[k])
    ensures m == map[] ==> s == DefaultStatistics()
  {
    Statistics(
      Get(m, "count", JInt(0)), Get(m, "excluded_count", JInt(0)),
      Get(m, "excluded_non_interactable", JInt(0)), Get(m, "excluded_no_text", JInt(0)),
      Get(m, "with_text_count", JInt(0)), Get(m, "without_text_count", JInt(0)),
      Get(m, "visible_elements_count", JInt(0)), Get(m, "role_counts", JObj(map[])),
      Get(m, "browser_elements_count", JInt(0)))
  }

  // ----------------------------------------------------------- document

  /** The value of `json_data.get("elements", [])`. */
  function ElementsValue(d: map<string, Json>): Json {
    Get(d, "elements", JArr([]))
  }

  /** `browser_data`, decoded when `json_data.get("browser_data")` is truthy (core.py:384-410). */
  function BrowserDataOf(d: map<string, Json>): (r: Result<Option<BrowserPageData>, PyError>)
    ensures r.Success? ==> (r.value.Some? <==> Truthy(Get(d, "browser_data", JNull)))
    ensures r.Success? && r.value.Some? ==>
              "browser_data" in d && d["browser_data"].JObj? &&
              var b := d["browser_data"].fields;
              && r.value.value.url == Get(b, "url", JNull)
              && r.value.value.title == Get(b, "title", JNull)
              && DecodeObjects(Get(b, "elements", JArr([])), DecodeBrowserElement) == Success(r.value.value.elements)
    ensures !Truthy(Get(d, "browser_data", JNull)) ==> r == Success(None)
    ensures Truthy(Get(d, "browser_data", JNull)) && !d["browser_data"].JObj? ==>
              r == Failure(NoGet(d["browser_data"]))
    // A dict succeeds exactly when its element list can be read, and passes on that list's error.
    ensures Truthy(Get(d, "browser_data", JNull)) && d["browser_data"].JObj? ==>
              var items := ObjectItems(Get(d["browser_data"].fields, "elements", JArr([])));
              && (r.Success? <==> items.Success?)
              && (items.Failure? ==> r == Failure(items.error))
  {
    var bd := Get(d, "browser_data", JNull);
    if !Truthy(bd) then Success(None)
    else if !bd.JObj? then Failure(NoGet(bd))
    else
      match DecodeObjects(Get(bd.fields, "elements", JArr([])), DecodeBrowserElement)
      case Failure(e) => Failure(e)
      case Success(elements) =>
        Success(Some(BrowserPageData(Get(bd.fields, "url", JNull), Get(bd.fields, "title", JNull), elements)))
  }

  /** What `_parse_response_data(doc)` returns or raises. */
  function ResponseOf(doc: Json): (r: Result<ResponseData, PyError>)
    // A document that is not a dict fails on its first `.get`.
    ensures !doc.JObj? ==> r == Failure(NoGet(doc))
    // Statistics are read first, then elements, then browser data.
    ensures doc.JObj? && "stats" in doc.fields && !doc.fields["stats"].JObj? ==>
              r == Failure(NoGet(doc.fields["stats"]))
    // Every other document succeeds: a dict whose stats, elements and browser data decode.
    ensures r.Success? <==>
              && doc.JObj?
              && Get(doc.fields, "stats", JObj(map[])).JObj?
              && ObjectItems(ElementsValue(doc.fields)).Success?
              && BrowserDataOf(doc.fields).Success?
    ensures doc.JObj? && Get(doc.fields, "stats", JObj(map[])).JObj? &&
            ObjectItems(ElementsValue(doc.fields)).Failure? ==>
              r == Failure(ObjectItems(ElementsValue(doc.fields)).error)
    ensures doc.JObj? && Get(doc.fields, "stats", JObj(map[])).JObj? &&
            ObjectItems(ElementsValue(doc.fields)).Success? && BrowserDataOf(doc.fields).Failure? ==>
              r == Failure(BrowserDataOf(doc.fields).error)
    ensures r.Success? ==> r.value.browserData == BrowserDataOf(doc.fields).value
    // Missing keys take their defaults.
    ensures r.Success? ==>
              && ("app_name" !in doc.fields ==> r.value.appName == JStr(""))
              && ("processing_time_seconds" !in doc.fields ==> r.value.processingTimeSeconds == JStr("0.000"))
              && ("is_browser" !in doc.fields ==> r.value.isBrowser == JBool(false))
              && ("stats" !in doc.fields ==> r.value.stats == DefaultStatistics())
              && ("elements" !in doc.fields ==> r.value.elements == [])
              && ("browser_data" !in doc.fields ==> r.value.browserData == None)
    // Present keys are copied as they are.
    ensures r.Success? ==>
              && ("app_name" in doc.fields ==> r.value.appName == doc.fields["app_name"])
              && ("processing_time_seconds" in doc.fields ==>
                    r.value.processingTimeSeconds == doc.fields["processing_time_seconds"])
              && ("is_browser" in doc.fields ==> r.value.isBrowser == doc.fields["is_browser"])
              && ("stats" in doc.fields ==> r.value.stats == DecodeStatistics(doc.fields["stats"].fields))
    // One element per input dict, in the same order.
    ensures r.Success? ==>
              var items := ObjectItems(ElementsValue(doc.fields)).value;
              |r.value.elements| == |items| &&
              forall i :: 0 <= i < |items| ==> r.value.elements[i] == DecodeElement(items[i])
    ensures r.Success? ==> (r.value.browserData.Some? <==> Truthy(Get(doc.fields, "browser_data", JNull)))
  {
    if !doc.JObj? then Failure(NoGet(doc))
    else
      var d := doc.fields;
      var statsData := Get(d, "stats", JObj(map[]));
      if !statsData.JObj? then Failure(NoGet(statsData))
      else
        match DecodeObjects(ElementsValue(d), DecodeElement)
        case Failure(e) => Failure(e)
        case Success(elements) =>
          match BrowserDataOf(d)
          case Failure(e) => Failure(e)
          case Success(browserData) =>
            Success(ResponseData(
              Get(d, "app_name", JStr("")), elements, DecodeStatistics(statsData.fields),
              Get(d, "processing_time_seconds", JStr("0.000")), Get(d, "is_browser", JBool(false)),
              browserData))
  }

  /** The empty document decodes to the defaults of every record. */
  lemma EmptyDocument()
    ensures ResponseOf(JObj(map[])) ==
              Success(ResponseData(JStr(""), [], DefaultStatistics(), JStr("0.000"), JBool(false), None))
  {
  }

  /** `_parse_response_data`: the statistics, then the element loop, then the browser
      element loop, each step stopping at the first exception. */
  method ParseResponseData(doc: Json) returns (r: Result<ResponseData, PyError>)
    ensures r == ResponseOf(doc)
  {
    if !doc.JObj? {
      return Failure(NoGet(doc));
    }
    var d := doc.fields;
    var statsData := Get(d, "stats", JObj(map[]));
    if !statsData.JObj? {
      return Failure(NoGet(statsData));
    }
    var stats := DecodeStatistics(statsData.fields);
    var elements := DecodeAll(ElementsValue(d), DecodeElement);
    if elements.Failure? {
      return Failure(elements.error);
    }
    var browserData: Option<BrowserPageData> := None;
    var bd := Get(d, "browser_data", JNull);
    if Truthy(bd) {
      if !bd.JObj? {
        return Failure(NoGet(bd));
      }
      var browserElements := DecodeAll(Get(bd.fields, "elements", JArr([])), DecodeBrowserElement);
      if browserElements.Failure? {
        return Failure(browserElements.error);
      }
      browserData := Some(BrowserPageData(Get(bd.fields, "url", JNull), Get(bd.fields, "title", JNull),
                                          browserElements.value));
    }
    r := Success(ResponseData(
      Get(d, "app_name", JStr("")), elements.value, stats,
      Get(d, "processing_time_seconds", JStr("0.000")), Get(d, "is_browser", JBool(false)),
      browserData));
  }
}
