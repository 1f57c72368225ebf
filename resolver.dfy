/** The action resolver of `load()` (src/Scope.js:304-355): from a trigger
    and its scope to either a delegation to another scope or a request
    descriptor, with the history decision. URL resolution is the browser's:
    the caller passes the resolved absolute URL of the action and the
    current page's query parameters. */
module Resolver {
  import opened Text
  import opened Attributes

  /** A `URLSearchParams` list: name-value pairs in order. */
  type Params = seq<(string, string)>

  function CountNamed(p: Params, name: string): nat {
    if p == [] then 0 else (if p[0].0 == name then 1 else 0) + CountNamed(p[1..], name)
  }

  /** The pairs whose name is not `name`, in order. */
  function Without(p: Params, name: string): Params {
    if p == [] then [] else (if p[0].0 == name then [] else [p[0]]) + Without(p[1..], name)
  }

  /** `params.get(name)`: the value of the first pair with that name. */
  function Lookup(p: Params, name: string): Option<string> {
    if p == [] then None else if p[0].0 == name then Some(p[0].1) else Lookup(p[1..], name)
  }

  lemma {:induction false} WithoutHasNone(p: Params, name: string)
    ensures CountNamed(Without(p, name), name) == 0 && Lookup(Without(p, name), name) == None
  {
    if p != [] {
      WithoutHasNone(p[1..], name);
      var w := Without(p[1..], name);
      if p[0].0 != name {
        var q := [p[0]] + w;
        assert Without(p, name) == q;
        assert q[1..] == w;
      } else {
        assert Without(p, name) == [] + w == w;
      }
    }
  }

  lemma {:induction false} WithoutIdempotent(p: Params, name: string)
    ensures Without(Without(p, name), name) == Without(p, name)
  {
    if p != [] {
      WithoutIdempotent(p[1..], name);
      var w := Without(p[1..], name);
      if p[0].0 != name {
        var q := [p[0]] + w;
        assert Without(p, name) == q;
        assert q[1..] == w;
      } else {
        assert Without(p, name) == [] + w == w;
      }
    }
  }

  /** The first pair with the name, at `k`, takes the value in place, and
      the later pairs with that name are dropped. */
  ghost predicate SetAt(p: Params, name: string, value: string, k: int, r: Params) {
    && 0 <= k < |p| && p[k].0 == name && CountNamed(p[..k], name) == 0
    && r == p[..k] + [(name, value)] + Without(p[k + 1..], name)
  }

  lemma SetAtCons(p: Params, name: string, value: string, k: int, rest: Params)
    requires p != [] && p[0].0 != name && SetAt(p[1..], name, value, k, rest)
    ensures SetAt(p, name, value, k + 1, [p[0]] + rest)
  {
    var q := p[..k + 1];
    assert q == [p[0]] + p[1..][..k];
    assert q[1..] == p[1..][..k];
    assert p[k + 2..] == p[1..][k + 1..];
  }

  function SetFirst(p: Params, name: string, value: string): (r: Params)
    requires CountNamed(p, name) > 0
    ensures CountNamed(r, name) == 1 && Lookup(r, name) == Some(value)
    ensures Without(r, name) == Without(p, name)
    ensures exists k :: SetAt(p, name, value, k, r)
  {
    if p[0].0 == name then
      WithoutHasNone(p[1..], name);
      WithoutIdempotent(p[1..], name);
      var r := [(name, value)] + Without(p[1..], name);
      assert r[1..] == Without(p[1..], name);
      assert SetAt(p, name, value, 0, r) by { assert p[..0] == []; }
      r
    else
      var rest := SetFirst(p[1..], name, value);
      var r := [p[0]] + rest;
      assert r[1..] == rest;
      assert exists k :: SetAt(p, name, value, k, r) by {
        var k' :| SetAt(p[1..], name, value, k', rest);
        SetAtCons(p, name, value, k', rest);
      }
      r
  }

  /** `URLSearchParams.set(name, value)`: the first pair with that name
      takes the value and the others are removed; with none, the pair is
      appended. */
  function SetParam(p: Params, name: string, value: string): (r: Params)
    ensures CountNamed(r, name) == 1 && Lookup(r, name) == Some(value)
    ensures Without(r, name) == Without(p, name)
    ensures CountNamed(p, name) == 0 ==> r == p + [(name, value)]
    ensures CountNamed(p, name) > 0 ==> exists k :: SetAt(p, name, value, k, r)
  {
    if CountNamed(p, name) == 0 then
      AppendOne(p, name, value);
      p + [(name, value)]
    else SetFirst(p, name, value)
  }

  lemma {:induction false} AppendOne(p: Params, name: string, value: string)
    requires CountNamed(p, name) == 0
    ensures CountNamed(p + [(name, value)], name) == 1
    ensures Lookup(p + [(name, value)], name) == Some(value)
    ensures Without(p + [(name, value)], name) == Without(p, name)
  {
    if p == [] {
      assert [(name, value)][1..] == [];
    } else {
      AppendOne(p[1..], name, value);
      assert (p + [(name, value)])[1..] == p[1..] + [(name, value)];
    }
  }

  /** `params.toString()`, without the percent-encoding of names and values. */
  function Serialize(p: Params): string {
    if p == [] then ""
    else if |p| == 1 then p[0].0 + "=" + p[0].1
    else p[0].0 + "=" + p[0].1 + "&" + Serialize(p[1..])
  }

  /** `el.value !== "undefined" ? el.value : el.dataset.scopeValue`
      (src/Scope.js:316). The property is compared with the string
      "undefined", so `data-scope-value` is read only when the property is
      that very string. */
  function ElValue(el: Element): ValueProperty {
    if el.value != Has("undefined") then el.value
    else if "data-scope-value" in el.attrs then Has(el.attrs["data-scope-value"])
    else NoValue
  }

  /** The query parameters the request carries: the page's, with `value`
      set when the trigger has one. */
  function RequestParams(el: Element, search: Params): Params {
    match ElValue(el)
    case Has(v) => SetParam(search, "value", v)
    case NoValue => search
  }

  /** `fullUrl`: the absolute URL, followed by '?' and the parameters when
      the trigger has a value. */
  function FullUrl(el: Element, url: string, search: Params): (full: string)
    ensures ElValue(el).NoValue? ==> full == url
    ensures ElValue(el).Has? ==> |full| > |url| && full[..|url| + 1] == url + "?"
  {
    if ElValue(el).Has? then url + "?" + Serialize(RequestParams(el, search)) else url
  }

  /** `el.dataset.scopeTarget || this.dataset.target`. */
  function TargetOf(el: Element, scope: Element): (target: Option<string>)
    ensures Truthy(Attr(el, "data-scope-target")) ==> target == Attr(el, "data-scope-target")
    ensures !Truthy(Attr(el, "data-scope-target")) ==> target == Attr(scope, "data-target")
  {
    Or(Attr(el, "data-scope-target"), Attr(scope, "data-target"))
  }

  predicate IsTargeted(el: Element, scope: Element) {
    Truthy(TargetOf(el, scope)) && TargetOf(el, scope).value != "_self"
  }

  /** `el.dataset.scopeMethod || "GET"`. */
  function MethodOf(el: Element): (m: string)
    ensures m != ""
    ensures m != "GET" ==> Attr(el, "data-scope-method") == Some(m)
  {
    if Truthy(Attr(el, "data-scope-method")) then el.attrs["data-scope-method"] else "GET"
  }

  /** The state `history.pushState` receives: the scope's id and the URL. */
  datatype HistoryEntry = HistoryEntry(id: string, url: string)

  /** What `load()` does: set the `src` of the target scope, or fetch with a
      method and a body (null for anything but "POST"), after pushing a
      history entry or not; `markActive` is the active-class update links
      receive. */
  datatype Plan =
    | Delegate(target: string, url: string)
    | Fetch(url: string, httpMethod: string, body: Option<Params>, push: Option<HistoryEntry>, markActive: bool)

  function ResolveLoad(el: Element, scope: Element, url: string, search: Params): (plan: Plan)
    ensures IsTargeted(el, scope) <==> plan.Delegate?
    ensures plan.Delegate? ==> plan == Delegate(TargetOf(el, scope).value, FullUrl(el, url, search))
    ensures plan.Fetch? ==> plan.httpMethod == MethodOf(el) && plan.markActive == (el.name == "A")
    ensures plan.Fetch? ==>
              (plan.push.Some? <==>
                el.name == "A" && GetHistory(el, scope) && "id" in scope.attrs && ElValue(el) == NoValue)
    ensures plan.Fetch? && plan.push.Some? ==> plan.push.value == HistoryEntry(scope.attrs["id"], url)
    ensures plan.Fetch? ==> plan.url == if MethodOf(el) == "GET" then FullUrl(el, url, search) else url
    ensures plan.Fetch? ==> plan.body == if MethodOf(el) == "POST" then Some(RequestParams(el, search)) else None
  {
    var value := ElValue(el);
    var isLink := el.name == "A";
    var push := isLink && GetHistory(el, scope) && "id" in scope.attrs && value.NoValue?;
    var fullUrl := FullUrl(el, url, search);
    if IsTargeted(el, scope) then Delegate(TargetOf(el, scope).value, fullUrl)
    else
      var httpMethod := MethodOf(el);
      Fetch(
        if httpMethod == "GET" then fullUrl else url,
        httpMethod,
        if httpMethod == "POST" then Some(RequestParams(el, search)) else None,
        if push then Some(HistoryEntry(scope.attrs["id"], url)) else None,
        isLink)
  }

  /** A trigger with a value always sends it as the single `value`
      parameter, never pushes history, and a GET carries it in the URL. */
  lemma ValueIsSentOnce(el: Element, scope: Element, url: string, search: Params)
    requires ElValue(el).Has?
    ensures CountNamed(RequestParams(el, search), "value") == 1
    ensures Lookup(RequestParams(el, search), "value") == Some(ElValue(el).text)
    ensures Without(RequestParams(el, search), "value") == Without(search, "value")
    ensures var plan := ResolveLoad(el, scope, url, search);
            plan.Fetch? ==>
              plan.push.None? &&
              (plan.httpMethod == "GET" ==> plan.url == url + "?" + Serialize(RequestParams(el, search)))
  {
  }

  /** `data-scope-value` is never read unless the `value` property is the
      string "undefined": on a link, whose property is undefined, the
      attribute changes nothing. */
  lemma ScopeValueAttributeIgnored(el: Element, scope: Element, url: string, search: Params, v: string)
    requires el.value != Has("undefined")
    ensures ResolveLoad(el.(attrs := el.attrs["data-scope-value" := v]), scope, url, search)
            == ResolveLoad(el, scope, url, search)
  {
    var el' := el.(attrs := el.attrs["data-scope-value" := v]);
    forall k | k != "data-scope-value" ensures Attr(el', k) == Attr(el, k) {
    }
    assert GetHistory(el', scope) == GetHistory(el, scope);
    assert TargetOf(el', scope) == TargetOf(el, scope);
    assert MethodOf(el') == MethodOf(el);
  }

  /** A targeted load is handed over whole: the initiator's method and
      history settings play no part, since the target scope always
      performs a plain GET of the full URL. */
  lemma TargetedLoadIgnoresMethodAndHistory(el: Element, scope: Element, url: string, search: Params, m: string, h: string)
    requires IsTargeted(el, scope)
    ensures var el' := el.(attrs := el.attrs["data-scope-method" := m]["data-scope-history" := h]);
            ResolveLoad(el', scope, url, search) == ResolveLoad(el, scope, url, search)
  {
    var el' := el.(attrs := el.attrs["data-scope-method" := m]["data-scope-history" := h]);
    assert Attr(el', "data-scope-target") == Attr(el, "data-scope-target");
    assert Attr(el', "data-scope-value") == Attr(el, "data-scope-value");
    assert ElValue(el') == ElValue(el);
    assert FullUrl(el', url, search) == FullUrl(el, url, search);
  }
}
