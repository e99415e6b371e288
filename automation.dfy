/**
 * The element helpers of `MacosAutomationHelper` (advanced_automation.py:32-65):
 * first-match searches over a traversal's elements, and the guard before clicking one.
 */
module AutomationHelper {
  import opened Wrappers
  import opened JsonValues
  import opened PyText
  import opened Types
  import opened ResponseDecoding

  /** What `v.lower()` raises when `v` is not a string. */
  function NoLower(v: Json): PyError {
    PyError(AttributeError, "'" + TypeName(v) + "' object has no attribute 'lower'")
  }

  /** `element.text and text.lower() in element.text.lower()`: false for a falsy text, a
      case-insensitive substring test for a string, and an error for any other truthy value. */
  function TextMatches(e: ElementData, query: string): Result<bool, PyError> {
    if !Truthy(e.text) then Success(false)
    else if e.text.JStr? then Success(Contains(Lower(e.text.s), Lower(query)))
    else Failure(NoLower(e.text))
  }

  /** The element's text is a non-empty string holding the query, ignoring case. */
  predicate HasText(e: ElementData, query: string) {
    e.text.JStr? && e.text.s != "" && Contains(Lower(e.text.s), Lower(query))
  }

  /** The search passes over `e`: its test evaluates to false. */
  predicate Skips(e: ElementData, query: string) {
    TextMatches(e, query) == Success(false)
  }

  /** `find_element_by_text`: the first element whose text holds the query, or None. */
  function FindElementByText(elems: seq<ElementData>, query: string): (r: Result<Option<ElementData>, PyError>)
    ensures r.Success? && r.value.Some? ==> r.value.value in elems && HasText(r.value.value, query)
    ensures r == Success(None) <==> forall j :: 0 <= j < |elems| ==> Skips(elems[j], query)
    decreases |elems|
  {
    if elems == [] then Success(None)
    else match TextMatches(elems[0], query)
      case Failure(err) => Failure(err)
      case Success(hit) =>
        if hit then Success(Some(elems[0]))
        else
          var rest := FindElementByText(elems[1..], query);
          assert rest == Success(None) <==> forall j :: 0 <= j < |elems| ==> Skips(elems[j], query) by {
            if forall j :: 1 <= j < |elems| ==> Skips(elems[j], query) {
              forall j | 0 <= j < |elems| - 1 ensures Skips(elems[1..][j], query) {
                assert elems[1..][j] == elems[j + 1];
              }
            }
            if rest == Success(None) {
              forall j | 1 <= j < |elems| ensures Skips(elems[j], query) {
                assert elems[j] == elems[1..][j - 1];
              }
            }
          }
          rest
  }

  /** The search stops at the first element whose test does not evaluate to false: it returns
      that element when the test holds, and the test's exception when it raises. */
  lemma {:induction false} FindElementByTextStopsFirst(elems: seq<ElementData>, query: string, i: nat)
    requires i < |elems| && !Skips(elems[i], query)
    requires forall j :: 0 <= j < i ==> Skips(elems[j], query)
    ensures TextMatches(elems[i], query).Success? ==> FindElementByText(elems, query) == Success(Some(elems[i]))
    ensures TextMatches(elems[i], query).Failure? ==>
              FindElementByText(elems, query) == Failure(TextMatches(elems[i], query).error)
    decreases i
  {
    if i > 0 {
      assert Skips(elems[0], query);
      forall j | 0 <= j < i - 1 ensures Skips(elems[1..][j], query) {
        assert elems[1..][j] == elems[j + 1];
      }
      FindElementByTextStopsFirst(elems[1..], query, i - 1);
    }
  }

  const ButtonRole := JStr("AXButton")

  /** The elements whose role is exactly "AXButton", in order. */
  function Buttons(elems: seq<ElementData>): (bs: seq<ElementData>)
    ensures forall b :: b in bs ==> b in elems && b.role == ButtonRole
    ensures forall i :: 0 <= i < |elems| && elems[i].role == ButtonRole ==> elems[i] in bs
    decreases |elems|
  {
    if elems == [] then []
    else
      var rest := Buttons(elems[1..]);
      assert forall i :: 1 <= i < |elems| ==> elems[i] == elems[1..][i - 1];
      if elems[0].role == ButtonRole then [elems[0]] + rest else rest
  }

  /** `find_button_by_text`: the first button whose text holds the query, or None. */
  function FindButtonByText(elems: seq<ElementData>, query: string): (r: Result<Option<ElementData>, PyError>)
    ensures r.Success? && r.value.Some? ==>
              r.value.value in elems && r.value.value.role == ButtonRole && HasText(r.value.value, query)
    decreases |elems|
  {
    if elems == [] then Success(None)
    else if elems[0].role != ButtonRole then FindButtonByText(elems[1..], query)
    else match TextMatches(elems[0], query)
      case Failure(err) => Failure(err)
      case Success(hit) =>
        if hit then Success(Some(elems[0])) else FindButtonByText(elems[1..], query)
  }

  /** Looking for a button is looking for an element among the buttons only: elements of any
      other role are passed over whatever their text, and cannot raise. */
  lemma {:induction false} ButtonSearchIsElementSearch(elems: seq<ElementData>, query: string)
    ensures FindButtonByText(elems, query) == FindElementByText(Buttons(elems), query)
    decreases |elems|
  {
    if elems != [] {
      ButtonSearchIsElementSearch(elems[1..], query);
      if elems[0].role == ButtonRole {
        var bs := [elems[0]] + Buttons(elems[1..]);
        assert bs[0] == elems[0] && bs[1..] == Buttons(elems[1..]);
      }
    }
  }

  // ------------------------------------------------------------ clicking

  /** A value Python's arithmetic accepts: an int, a float, or a bool (a subclass of int). */
  predicate IsNumber(v: Json) {
    v.JInt? || v.JFloat? || v.JBool?
  }

  function NumValue(v: Json): real
    requires IsNumber(v)
  {
    match v
    case JInt(i) => i as real
    case JFloat(f) => f
    case JBool(b) => if b then 1.0 else 0.0
  }

  /** `pos + size / 2`: the division raises first for a non-number size, then the addition
      for a non-number position, each with Python's TypeError message. */
  function CentreOf(pos: Json, size: Json): (r: Result<real, PyError>)
    ensures r.Success? <==> IsNumber(pos) && IsNumber(size)
    ensures r.Success? ==> r.value == NumValue(pos) + NumValue(size) / 2.0
    ensures r.Failure? ==> r.error.kind == TypeError
    ensures !IsNumber(size) ==> r.error.message == "unsupported operand type(s) for /: '" + TypeName(size) + "' and 'int'"
  {
    if !IsNumber(size) then
      Failure(PyError(TypeError, "unsupported operand type(s) for /: '" + TypeName(size) + "' and 'int'"))
    else if IsNumber(pos) then Success(NumValue(pos) + NumValue(size) / 2.0)
    else if pos.JStr? then Failure(PyError(TypeError, "can only concatenate str (not \"float\") to str"))
    else if pos.JArr? then Failure(PyError(TypeError, "can only concatenate list (not \"float\") to list"))
    else Failure(PyError(TypeError, "unsupported operand type(s) for +: '" + TypeName(pos) + "' and 'float'"))
  }

  /** The click `click_element` issues at the element's centre: a plain click, or a visual
      one with its duration. */
  datatype ElementClick = PlainClick(x: real, y: real) | VisualClick(x: real, y: real, duration: real)

  const NoGeometryMessage := "Element has no position or size information"

  /** `click_element(element, visual)`: a missing coordinate or size raises ValueError and
      geometry Python cannot add raises TypeError, both before any click; otherwise the
      click goes to the centre of the element's box. */
  function ClickElement(e: ElementData, visual: bool): (r: Result<ElementClick, PyError>)
    ensures r.Failure? && r.error.kind == ValueError <==>
              e.x == JNull || e.y == JNull || e.width == JNull || e.height == JNull
    ensures r.Failure? && r.error.kind == ValueError ==> r.error.message == NoGeometryMessage
    ensures r.Success? <==> IsNumber(e.x) && IsNumber(e.y) && IsNumber(e.width) && IsNumber(e.height)
    ensures r.Failure? && r.error.kind != ValueError ==> r.error.kind == TypeError
    ensures r.Success? ==>
              && r.value.x == NumValue(e.x) + NumValue(e.width) / 2.0
              && r.value.y == NumValue(e.y) + NumValue(e.height) / 2.0
    // The centre lies inside a box of non-negative size.
    ensures r.Success? && NumValue(e.width) >= 0.0 ==>
              NumValue(e.x) <= r.value.x <= NumValue(e.x) + NumValue(e.width)
    ensures r.Success? && NumValue(e.height) >= 0.0 ==>
              NumValue(e.y) <= r.value.y <= NumValue(e.y) + NumValue(e.height)
    ensures r.Success? ==> (r.value.VisualClick? <==> visual)
    ensures r.Success? && visual ==> r.value.duration == 0.5
  {
    if e.x.JNull? || e.y.JNull? || e.width.JNull? || e.height.JNull? then
      Failure(PyError(ValueError, NoGeometryMessage))
    else
      match CentreOf(e.x, e.width)
      case Failure(err) => Failure(err)
      case Success(x) =>
        match CentreOf(e.y, e.height)
        case Failure(err) => Failure(err)
        case Success(y) =>
          if visual then Success(VisualClick(x, y, 0.5)) else Success(PlainClick(x, y))
  }
}
