/** The attribute readers of src/Scope.js: how an element's configuration
    attributes become watched event types, an action, a history flag, and
    how a URL is recognised as a same-document anchor. */
module Attributes {
  import opened Text

  datatype Option<T> = None | Some(value: T)

  /** The JavaScript values `parseBool` is handed: a missing `dataset` entry
      (`undefined`), a string, a boolean or a number. */
  datatype Value = Undefined | Str(s: string) | Bool(b: bool) | Num(n: real)

  /** The `value` property of an element: absent (`undefined`) on elements
      that have none, such as links, and a string on form controls. */
  datatype ValueProperty = NoValue | Has(text: string)

  /** An element as the component sees it: its node name (upper case for
      HTML, "A", "BUTTON", "FORM", ...), its attributes by name (`data-*`
      included, so `dataset.scopeOn` is the attribute "data-scope-on") and
      its `value` property. */
  datatype Element = Element(name: string, attrs: map<string, string>, value: ValueProperty)

  /** `el.getAttribute(name)`: the attribute, or null. */
  function Attr(el: Element, name: string): Option<string> {
    if name in el.attrs then Some(el.attrs[name]) else None
  }

  /** JavaScript truthiness of an attribute read: present and non-empty. */
  predicate Truthy(o: Option<string>) {
    o.Some? && o.value != ""
  }

  /** `a || b` on two attribute reads. */
  function Or(a: Option<string>, b: Option<string>): Option<string> {
    if Truthy(a) then a else b
  }

  /** A `dataset` entry as a JavaScript value. */
  function AsValue(o: Option<string>): Value {
    if o.Some? then Str(o.value) else Undefined
  }

  /** `parseBool` (src/Scope.js:93-95): membership in ["1", "true", true, 1]. */
  predicate ParseBool(v: Value) {
    v == Str("1") || v == Str("true") || v == Bool(true) || v == Num(1.0)
  }

  /** On strings, exactly "1" and "true" are true; the test is case- and
      space-sensitive. */
  lemma ParseBoolOnStrings(s: string)
    ensures ParseBool(Str(s)) <==> s == "1" || s == "true"
    ensures !ParseBool(Undefined) && !ParseBool(Str("TRUE")) && !ParseBool(Str("yes"))
    ensures !ParseBool(Str(" true")) && !ParseBool(Str("false")) && !ParseBool(Num(2.0))
  {
  }

  /** `getEvents` (src/Scope.js:53-59): a form watches "submit" only; any
      other element watches the comma-separated list in `data-scope-on`,
      "click" when that is missing or empty. */
  function GetEvents(el: Element): (events: seq<string>)
    ensures |events| >= 1
    ensures el.name == "FORM" ==> events == ["submit"]
    ensures el.name != "FORM" && !Truthy(Attr(el, "data-scope-on")) ==> events == ["click"]
    ensures el.name != "FORM" && Truthy(Attr(el, "data-scope-on")) ==>
              Join(events, ',') == el.attrs["data-scope-on"]
    ensures forall i :: 0 <= i < |events| ==> ',' !in events[i]
  {
    if el.name == "FORM" then ["submit"]
    else
      var ev := if Truthy(Attr(el, "data-scope-on")) then el.attrs["data-scope-on"] else "click";
      JoinSplit(ev, ',');
      SplitNoSeparator("click", ',');
      Split(ev, ',')
  }

  /** The list is split on every comma and nothing is trimmed: with
      `data-scope-on="click, input"` the element watches "click" and
      " input", and an "input" event is not among them. */
  lemma GetEventsKeepsSpaces(el: Element, first: string, second: string)
    requires el.name != "FORM" && ',' !in first && ',' !in second
    requires Attr(el, "data-scope-on") == Some(first + [','] + second)
    ensures GetEvents(el) == [first, second]
  {
    SplitAfterPiece(first, second, ',');
    SplitNoSeparator(second, ',');
  }

  /** `getAction` (src/Scope.js:65-71): `action || data-scope-action || href`,
      so an empty attribute falls through to the next one, and the last read
      is returned as it is (possibly empty or null). */
  function GetAction(el: Element): (action: Option<string>)
    ensures Truthy(Attr(el, "action")) ==> action == Attr(el, "action")
    ensures !Truthy(Attr(el, "action")) && Truthy(Attr(el, "data-scope-action")) ==>
              action == Attr(el, "data-scope-action")
    ensures !Truthy(Attr(el, "action")) && !Truthy(Attr(el, "data-scope-action")) ==>
              action == Attr(el, "href")
  {
    Or(Attr(el, "action"), Or(Attr(el, "data-scope-action"), Attr(el, "href")))
  }

  /** The action is non-empty exactly when one of the three attributes is,
      and it is then the first non-empty one. */
  lemma GetActionFirstNonEmpty(el: Element)
    ensures Truthy(GetAction(el)) <==>
              Truthy(Attr(el, "action")) || Truthy(Attr(el, "data-scope-action")) || Truthy(Attr(el, "href"))
    ensures Truthy(GetAction(el)) ==>
              GetAction(el) in [Attr(el, "action"), Attr(el, "data-scope-action"), Attr(el, "href")]
  {
  }

  /** `getHistory` (src/Scope.js:102-110): the trigger's `data-scope-history`,
      else the scope's `data-history` (not `data-scope-history`), else "true",
      read through `parseBool`. */
  predicate GetHistory(el: Element, scope: Element) {
    var history :=
      if Truthy(Attr(el, "data-scope-history")) then Attr(el, "data-scope-history")
      else if Truthy(Attr(scope, "data-history")) then Attr(scope, "data-history")
      else Some("true");
    ParseBool(AsValue(history))
  }

  /** Which attribute decides: the trigger's own setting wins; the scope is
      consulted through `data-history` only; by default history is on. */
  lemma GetHistoryRules(el: Element, scope: Element)
    ensures Truthy(Attr(el, "data-scope-history")) ==>
              (GetHistory(el, scope) <==> el.attrs["data-scope-history"] in ["1", "true"])
    ensures !Truthy(Attr(el, "data-scope-history")) && Truthy(Attr(scope, "data-history")) ==>
              (GetHistory(el, scope) <==> scope.attrs["data-history"] in ["1", "true"])
    ensures !Truthy(Attr(el, "data-scope-history")) && !Truthy(Attr(scope, "data-history")) ==>
              GetHistory(el, scope)
  {
    if Truthy(Attr(el, "data-scope-history")) {
      ParseBoolOnStrings(el.attrs["data-scope-history"]);
    } else if Truthy(Attr(scope, "data-history")) {
      ParseBoolOnStrings(scope.attrs["data-history"]);
    }
  }

  /** The scope's `data-scope-history` attribute plays no part. */
  lemma GetHistoryIgnoresScopeHistoryAttribute(el: Element, scope: Element, v: string)
    ensures GetHistory(el, scope) ==
            GetHistory(el, scope.(attrs := scope.attrs["data-scope-history" := v]))
  {
    var scope' := scope.(attrs := scope.attrs["data-scope-history" := v]);
    assert Attr(scope', "data-history") == Attr(scope, "data-history");
  }

  /** `getAnchor` (src/Scope.js:149-157) on a URL's `href`: the text after
      the first '#', or null when there is none. (`url.hash.slice(1)` and the
      `/#(.*)$/` match both give the text after the first '#'.) */
  function GetAnchor(href: string): (anchor: Option<string>)
    ensures anchor.Some? <==> '#' in href
    ensures anchor.Some? ==>
              exists i :: 0 <= i < |href| && href[i] == '#' && '#' !in href[..i] && anchor.value == href[i + 1..]
  {
    var i := FirstIndex(href, '#');
    if i == -1 then None else Some(href[i + 1..])
  }

  /** `isAnchorURL` (src/Scope.js:163-165) on the text of the action: URL
      resolution keeps a '#' exactly when the action has one. */
  predicate IsAnchorURL(action: string) {
    GetAnchor(action).Some?
  }
}
