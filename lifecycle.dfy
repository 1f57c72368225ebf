/** The `Scope` element (src/Scope.js:210-674) as an object: its abort
    tokens and the module-level one, the header and response processing of
    `loadURL`, the listener bookkeeping of `listenToEvents`, and the entry
    points that start loads. Every `await` splits a method in two: the part
    before it starts the work, the caller (the browser's event loop) runs
    the part after it when the awaited value arrives. */
module Lifecycle {
  import opened Text
  import opened Attributes
  import opened Markup
  import opened Interception
  import opened Resolver
  import opened Document

  /** An `AbortController`, as far as its signal goes. */
  class Controller {
    var aborted: bool

    constructor ()
      ensures !aborted
    {
      aborted := false;
    }

    method Abort()
      modifies this
      ensures aborted
    {
      aborted := true;
    }
  }

  /** The field holding the latest controller of one kind, with the ghost
      history of all the controllers it ever held: all but the latest are
      aborted. */
  ghost predicate OneLive(current: Controller?, issued: seq<Controller>)
    reads issued
  {
    && (current == null <==> issued == [])
    && (current != null ==> current == issued[|issued| - 1])
    && forall i :: 0 <= i < |issued| - 1 ==> issued[i].aborted
  }

  /** At most one controller of a kind is not aborted: the current one. */
  lemma AtMostOneLive(current: Controller?, issued: seq<Controller>)
    requires OneLive(current, issued)
    ensures forall c :: c in issued && !c.aborted ==> c == current
  {
    forall c | c in issued && !c.aborted ensures c == current {
      var i :| 0 <= i < |issued| && issued[i] == c;
      assert i == |issued| - 1;
    }
  }

  /** The names of the response headers the component reads; an empty name
      switches the header off. */
  datatype Config = Config(statusHeader: string, titleHeader: string, reloadHeader: string, jsHeader: string, cssHeader: string)

  /** The defaults of src/Scope.js:20-42. */
  const Defaults := Config("X-Status", "X-Title", "X-Reload", "x-include-js", "x-include-css")

  /** Response headers by lower-case name. */
  type Headers = map<string, string>

  function LowerName(s: string): (r: string)
    ensures |r| == |s| && forall k :: 0 <= k < |s| ==> r[k] == LowerAscii(s[k])
  {
    if s == [] then [] else LowerName(s[..|s| - 1]) + [LowerAscii(s[|s| - 1])]
  }

  /** `if (config.x) { const v = response.headers.get(config.x); ... }`:
      None when the header is switched off or absent. `Headers.get` looks
      names up without regard to ASCII case. */
  function Header(name: string, headers: Headers): Option<string> {
    if name == "" then None
    else if LowerName(name) in headers then Some(headers[LowerName(name)])
    else None
  }

  /** The reads ignore the case of the configured name. */
  lemma HeaderIgnoresCase(name: string, other: string, headers: Headers)
    requires |name| == |other| && forall k :: 0 <= k < |name| ==> LowerAscii(name[k]) == LowerAscii(other[k])
    ensures Header(name, headers) == Header(other, headers)
  {
    assert LowerName(name) == LowerName(other);
  }

  /** The observable effects outside the document. */
  datatype Effect =
    | StatusMessage(message: string, code: int)
    | Reload
    | PushState(entry: HistoryEntry)
    | SrcSet(target: string, url: string)
    | OnLoad(scope: nat)

  /** The effects of `processHeaders` (src/Scope.js:385-420): the status
      handler, then the reload, each when its header is non-empty. */
  function HeaderEffects(config: Config, headers: Headers, code: int): (e: seq<Effect>)
    ensures Reload in e <==> Truthy(Header(config.reloadHeader, headers))
    ensures var status := Header(config.statusHeader, headers);
            Truthy(status) ==> StatusMessage(status.value, code) in e
    ensures var status := Header(config.statusHeader, headers);
            forall x :: x in e ==> x == Reload || (Truthy(status) && x == StatusMessage(status.value, code))
    ensures |e| <= 2 && (|e| == 2 ==> e[0].StatusMessage? && e[1] == Reload)
  {
    var status := Header(config.statusHeader, headers);
    (if Truthy(status) then [StatusMessage(status.value, code)] else []) +
    (if Truthy(Header(config.reloadHeader, headers)) then [Reload] else [])
  }

  /** The list a js or css header names: the value split on every comma,
      nothing trimmed; no list for an empty or absent header. */
  function IncludeList(name: string, headers: Headers): (list: seq<string>)
    ensures |list| > 0 <==> Truthy(Header(name, headers))
    ensures Truthy(Header(name, headers)) ==> Join(list, ',') == Header(name, headers).value
    ensures forall i :: 0 <= i < |list| ==> ',' !in list[i]
  {
    var v := Header(name, headers);
    if Truthy(v) then JoinSplit(v.value, ','); Split(v.value, ',') else []
  }

  /** The document after the js header, then the css header. The reload
      header plays no part: a reload does not stop the includes. */
  function HeaderAssets(config: Config, headers: Headers, l: Live): Live {
    LoadStylesSpec(LoadScriptsSpec(l, IncludeList(config.jsHeader, headers)), IncludeList(config.cssHeader, headers))
  }

  /** Loading an asset never lowers the number of matches of any selector. */
  lemma LoadKeepsMatches(l: Live, u: string, kind: string, q: Query)
    ensures Count(All(LoadScriptSpec(l, u, kind)), q) >= Count(All(l), q)
    ensures Count(All(LoadStyleSpec(l, u)), q) >= Count(All(l), q)
  {
    AppendCount(l, ExternalScript(u, kind), q);
    AppendCount(l, ExternalStyle(u), q);
  }

  lemma {:induction false} LoadScriptsPresent(l: Live, srcs: seq<string>, q: Query)
    ensures Count(All(LoadScriptsSpec(l, srcs)), q) >= Count(All(l), q)
    ensures forall k :: 0 <= k < |srcs| ==> Count(All(LoadScriptsSpec(l, srcs)), ScriptSrc(srcs[k])) >= 1
    decreases |srcs|
  {
    if srcs != [] {
      var init := srcs[..|srcs| - 1];
      var p := LoadScriptsSpec(l, init);
      var u := srcs[|srcs| - 1];
      LoadScriptsPresent(l, init, q);
      LoadKeepsMatches(p, u, "", q);
      forall k | 0 <= k < |srcs| ensures Count(All(LoadScriptsSpec(l, srcs)), ScriptSrc(srcs[k])) >= 1 {
        if k < |srcs| - 1 {
          LoadScriptsPresent(l, init, ScriptSrc(srcs[k]));
          LoadKeepsMatches(p, u, "", ScriptSrc(srcs[k]));
        } else {
          LoadScriptInsertIfAbsent(p, u, "", "");
        }
      }
    }
  }

  lemma {:induction false} LoadStylesPresent(l: Live, hrefs: seq<string>, q: Query)
    ensures Count(All(LoadStylesSpec(l, hrefs)), q) >= Count(All(l), q)
    ensures forall k :: 0 <= k < |hrefs| ==> Count(All(LoadStylesSpec(l, hrefs)), LinkHref(hrefs[k])) >= 1
    decreases |hrefs|
  {
    if hrefs != [] {
      var init := hrefs[..|hrefs| - 1];
      var p := LoadStylesSpec(l, init);
      var u := hrefs[|hrefs| - 1];
      LoadStylesPresent(l, init, q);
      LoadKeepsMatches(p, u, "", q);
      forall k | 0 <= k < |hrefs| ensures Count(All(LoadStylesSpec(l, hrefs)), LinkHref(hrefs[k])) >= 1 {
        if k < |hrefs| - 1 {
          LoadStylesPresent(l, init, LinkHref(hrefs[k]));
          LoadKeepsMatches(p, u, "", LinkHref(hrefs[k]));
        } else {
          LoadStyleInsertIfAbsent(p, u);
        }
      }
    }
  }

  /** After the headers, every script the js header names and every style
      sheet the css header names is in the document. */
  lemma HeaderIncludesPresent(config: Config, headers: Headers, l: Live)
    ensures var r := HeaderAssets(config, headers, l);
            var js := IncludeList(config.jsHeader, headers);
            forall k :: 0 <= k < |js| ==> Count(All(r), ScriptSrc(js[k])) >= 1
    ensures var r := HeaderAssets(config, headers, l);
            var css := IncludeList(config.cssHeader, headers);
            forall k :: 0 <= k < |css| ==> Count(All(r), LinkHref(css[k])) >= 1
  {
    var js := IncludeList(config.jsHeader, headers);
    var css := IncludeList(config.cssHeader, headers);
    var p := LoadScriptsSpec(l, js);
    LoadStylesPresent(p, css, LinkHref(""));
    forall k | 0 <= k < |js| ensures Count(All(HeaderAssets(config, headers, l)), ScriptSrc(js[k])) >= 1 {
      LoadScriptsPresent(l, js, ScriptSrc(js[k]));
      LoadStylesPresent(p, css, ScriptSrc(js[k]));
    }
  }

  /** The events `listenToEvents` adds: those of every `data-scope-on`
      descendant, concatenated in document order, duplicates kept. */
  function OverrideEvents(els: seq<Element>): seq<string> {
    if els == [] then [] else OverrideEvents(els[..|els| - 1]) + GetEvents(els[|els| - 1])
  }

  /** Every descendant contributes all its events, so the list has at least
      one entry per descendant. */
  lemma {:induction false} OverrideEventsCover(els: seq<Element>)
    ensures |OverrideEvents(els)| >= |els|
    ensures forall k, e :: 0 <= k < |els| && e in GetEvents(els[k]) ==> e in OverrideEvents(els)
    decreases |els|
  {
    if els != [] {
      var init := els[..|els| - 1];
      OverrideEventsCover(init);
      assert OverrideEvents(els) == OverrideEvents(init) + GetEvents(els[|els| - 1]);
      forall k, e | 0 <= k < |els| && e in GetEvents(els[k]) ensures e in OverrideEvents(els) {
        if k < |els| - 1 {
          assert els[k] == init[k];
        }
      }
    }
  }

  function EventSet(events: seq<string>): set<string> {
    set e | e in events
  }

  lemma EventSetConcat(a: seq<string>, b: seq<string>)
    ensures EventSet(a + b) == EventSet(a) + EventSet(b)
  {
    forall e | e in EventSet(a + b) ensures e in EventSet(a) + EventSet(b) {
      assert e in a + b;
    }
    forall e | e in EventSet(a) + EventSet(b) ensures e in EventSet(a + b) {
      assert e in a || e in b;
    }
  }

  /** The first loop of `listenToEvents`: `events.concat(getEvents(el))`
      for each `data-scope-on` descendant. */
  method OverrideEventList(els: seq<Element>) returns (evs: seq<string>)
    ensures evs == OverrideEvents(els)
  {
    evs := [];
    var i := 0;
    while i < |els|
      invariant 0 <= i <= |els|
      invariant evs == OverrideEvents(els[..i])
    {
      assert els[..i + 1][..i] == els[..i];
      evs := evs + GetEvents(els[i]);
      i := i + 1;
    }
    assert els[..i] == els;
  }

  /** The second loop of `listenToEvents`: `addEventListener` for each
      event of the list. */
  method AddListeners(listening: set<string>, evs: seq<string>) returns (ls: set<string>)
    ensures ls == listening + EventSet(evs)
  {
    ls := listening;
    var j := 0;
    while j < |evs|
      invariant 0 <= j <= |evs|
      invariant ls == listening + EventSet(evs[..j])
    {
      assert evs[..j + 1] == evs[..j] + [evs[j]];
      EventSetConcat(evs[..j], [evs[j]]);
      assert EventSet([evs[j]]) == {evs[j]};
      ls := ls + {evs[j]};
      j := j + 1;
    }
    assert evs[..j] == evs;
  }

  /** A request as `fetch` receives it. */
  datatype Request = Request(url: string, httpMethod: string, body: Option<Params>, signal: Controller)

  /** How a load began: the target scope's `src` was set, the target did not
      exist (`getElementById` gave null and `setAttribute` threw), or a
      request went out. */
  datatype LoadStart = Delegated(target: string, url: string) | TargetMissing(target: string) | Requested(req: Request)

  /** The page and the module-level state all scopes share. */
  class Host {
    const page: Page
    var globalController: Controller?
    ghost var globalIssued: seq<Controller>
    var effects: seq<Effect>

    constructor (page: Page)
      ensures this.page == page && globalController == null && globalIssued == [] && effects == []
    {
      this.page := page;
      globalController := null;
      globalIssued := [];
      effects := [];
    }

    /** The module-level controller is replaced by a new one (src/Scope.js:362-368),
        after the one it replaces, if any, has been aborted. */
    method SupersedeGlobal() returns (c: Controller)
      requires OneLive(globalController, globalIssued)
      modifies this, globalController
      ensures OneLive(globalController, globalIssued)
      ensures fresh(c) && !c.aborted && globalController == c && globalIssued == old(globalIssued) + [c]
      ensures old(globalController) != null ==> old(globalController).aborted
      ensures effects == old(effects)
    {
      if globalController != null {
        globalController.Abort();
      }
      c := new Controller();
      globalController := c;
      globalIssued := globalIssued + [c];
    }

    method Emit(e: Effect)
      modifies this
      ensures effects == old(effects) + [e]
      ensures globalController == old(globalController) && globalIssued == old(globalIssued)
    {
      effects := effects + [e];
    }

    /** `processHeaders` (src/Scope.js:385-420): status, title, reload, js,
        css, in that order and independently of each other. */
    method ProcessHeaders(config: Config, headers: Headers, code: int)
      modifies this, page
      ensures effects == old(effects) + HeaderEffects(config, headers, code)
      ensures var t := Header(config.titleHeader, headers);
              page.title == if Truthy(t) then t.value else old(page.title)
      ensures page.live == HeaderAssets(config, headers, old(page.live))
      ensures page.elements == old(page.elements)
      ensures globalController == old(globalController) && globalIssued == old(globalIssued)
    {
      var status := Header(config.statusHeader, headers);
      if Truthy(status) {
        Emit(StatusMessage(status.value, code));
      }
      var title := Header(config.titleHeader, headers);
      if Truthy(title) {
        page.SetTitle(title.value);
      }
      var reload := Header(config.reloadHeader, headers);
      if Truthy(reload) {
        Emit(Reload);
      }
      page.LoadScripts(IncludeList(config.jsHeader, headers));
      page.LoadStyles(IncludeList(config.cssHeader, headers));
    }
  }

  /** A `sco-pe` element. */
  class Scope {
    /** The identity `closest("sco-pe")` compares with. */
    const ident: nat
    const host: Host
    const loader: Debouncer<Element>
    var attrs: map<string, string>
    var innerHTML: string
    var content: Content
    var init: bool
    var events: seq<string>
    var listening: set<string>
    var abortController: Controller?
    ghost var issued: seq<Controller>

    ghost predicate Valid()
      reads this, host, issued, host.globalIssued
    {
      && OneLive(abortController, issued)
      && OneLive(host.globalController, host.globalIssued)
      && (forall c :: c in issued ==> c !in host.globalIssued)
      && listening <= EventSet(events)
    }

    /** The constructor (src/Scope.js:211-232), on an element whose
        attributes and content the page already holds. */
    constructor (ident: nat, host: Host, attrs: map<string, string>, innerHTML: string, content: Content)
      requires OneLive(host.globalController, host.globalIssued)
      ensures Valid() && fresh(loader) && loader.pending == None
      ensures this.ident == ident && this.host == host && this.attrs == attrs
      ensures this.innerHTML == innerHTML && this.content == content
      ensures !init && events == ["click", "submit"] && listening == {}
      ensures abortController == null && issued == []
    {
      this.ident := ident;
      this.host := host;
      this.attrs := attrs;
      this.innerHTML := innerHTML;
      this.content := content;
      init := false;
      events := ["click", "submit"];
      listening := {};
      abortController := null;
      issued := [];
      loader := new Debouncer<Element>();
    }

    /** The scope as an element, for the attribute readers. */
    function Self(): Element
      reads this
    {
      Element("SCO-PE", attrs, NoValue)
    }

    /** The scope's own controller is never the module-level one: they come
        from separate `new AbortController()` calls (src/Scope.js:366, 574). */
    lemma OwnIsNotGlobal()
      requires Valid()
      ensures abortController != null ==> abortController != host.globalController
    {
      if abortController != null {
        assert abortController == issued[|issued| - 1];
        if host.globalController != null {
          assert host.globalController in host.globalIssued;
          assert abortController in issued;
        }
      }
    }

    /** `abortLoading` (src/Scope.js:295-299). */
    method AbortLoading()
      requires Valid()
      modifies abortController
      ensures Valid()
      ensures abortController != null ==> abortController.aborted
      ensures forall c :: c in issued ==> c.aborted
      ensures GlobalKept()
    {
      OwnIsNotGlobal();
      if abortController != null {
        abortController.Abort();
      }
    }

    /** `listenToEvents` (src/Scope.js:599-613): the events of the
        `data-scope-on` descendants are appended, and a listener is added
        for every event in the list (adding the same listener twice has no
        effect, so the listeners form a set). */
    method ListenToEvents()
      requires Valid()
      modifies this
      ensures Valid()
      ensures events == old(events) + OverrideEvents(content.overrides)
      ensures listening == EventSet(events)
      ensures attrs == old(attrs) && content == old(content) && innerHTML == old(innerHTML) && init == old(init)
      ensures abortController == old(abortController) && issued == old(issued)
    {
      var added := OverrideEventList(content.overrides);
      var evs := events + added;
      EventSetConcat(events, added);
      var ls := AddListeners(listening, evs);
      assert ls == EventSet(evs);
      events := evs;
      listening := ls;
    }

    /** Nothing of the element's own state changed. */
    twostate predicate ScopeKept()
      reads this, abortController
    {
      && attrs == old(attrs) && innerHTML == old(innerHTML) && content == old(content) && init == old(init)
      && events == old(events) && listening == old(listening)
      && OwnKept()
    }

    /** The scope's own controller, its abort state and its history are as
        they were. */
    twostate predicate OwnKept()
      reads this, abortController
    {
      && abortController == old(abortController) && issued == old(issued)
      && (abortController != null ==> abortController.aborted == old(abortController.aborted))
    }

    /** The document's assets, title and elements are as they were. */
    twostate predicate PageKept()
      reads host.page
    {
      && host.page.live == old(host.page.live) && host.page.title == old(host.page.title)
      && host.page.elements == old(host.page.elements)
    }

    /** The module-level controller, its abort state and its history are
        as they were. */
    twostate predicate GlobalKept()
      reads host, host.globalController
    {
      && host.globalController == old(host.globalController) && host.globalIssued == old(host.globalIssued)
      && (host.globalController != null ==> host.globalController.aborted == old(host.globalController.aborted))
    }

    /** What `afterLoad` leaves behind: the events of the current content
        appended, a listener for each event, the `onLoad` hook called, and
        both kinds of controller untouched. */
    twostate predicate AfterLoadDone()
      reads this, host, host.globalController, abortController
    {
      && events == old(events) + OverrideEvents(content.overrides)
      && listening == EventSet(events)
      && host.effects == old(host.effects) + [OnLoad(ident)]
      && OwnKept() && GlobalKept()
    }

    /** `afterLoad` (src/Scope.js:584-597): listeners, then the `onLoad`
        hook. */
    method AfterLoad()
      requires Valid()
      modifies this, host
      ensures Valid() && AfterLoadDone() && PageKept()
      ensures attrs == old(attrs) && content == old(content) && innerHTML == old(innerHTML) && init == old(init)
    {
      ListenToEvents();
      host.Emit(OnLoad(ident));
    }

    /** `disconnectedCallback` (src/Scope.js:669-673): every listener goes;
        the events, the content and the controllers stay. */
    method Disconnected()
      requires Valid()
      modifies this
      ensures Valid() && listening == {} && events == old(events)
      ensures attrs == old(attrs) && innerHTML == old(innerHTML) && content == old(content) && init == old(init)
      ensures abortController == old(abortController) && issued == old(issued)
    {
      var i := 0;
      while i < |events|
        invariant 0 <= i <= |events|
        invariant listening == old(listening) - EventSet(events[..i])
        invariant events == old(events) && attrs == old(attrs) && content == old(content) && init == old(init)
        invariant innerHTML == old(innerHTML) && abortController == old(abortController) && issued == old(issued)
      {
        assert events[..i + 1] == events[..i] + [events[i]];
        EventSetConcat(events[..i], [events[i]]);
        assert EventSet([events[i]]) == {events[i]};
        listening := listening - {events[i]};
        i := i + 1;
      }
      assert events[..i] == events;
    }

    /** The part of `loadURL` (src/Scope.js:361-376) before `fetch`
        suspends. A request without a signal of its own goes out under a
        new module-level controller, and the one it supersedes is aborted. */
    method BeginLoadURL(url: string, httpMethod: string, body: Option<Params>, signal: Controller?) returns (req: Request)
      requires Valid()
      modifies host, host.globalController
      ensures Valid()
      ensures req.url == url && req.httpMethod == httpMethod && req.body == body
      ensures signal != null ==> req.signal == signal && GlobalKept()
      ensures signal == null ==>
                fresh(req.signal) && !req.signal.aborted && host.globalController == req.signal &&
                host.globalIssued == old(host.globalIssued) + [req.signal] &&
                (old(host.globalController) != null ==> old(host.globalController).aborted)
      ensures host.effects == old(host.effects)
    {
      if signal == null {
        var c := host.SupersedeGlobal();
        req := Request(url, httpMethod, body, c);
      } else {
        req := Request(url, httpMethod, body, signal);
      }
    }

    /** What `processHeaders` leaves behind: the status and reload effects,
        the title from the title header, the included assets; the elements
        and the module-level controller untouched. */
    twostate predicate HeadersDone(config: Config, headers: Headers, code: int)
      reads host, host.page, host.globalController
    {
      && host.effects == old(host.effects) + HeaderEffects(config, headers, code)
      && (var t := Header(config.titleHeader, headers);
          host.page.title == if Truthy(t) then t.value else old(host.page.title))
      && host.page.live == HeaderAssets(config, headers, old(host.page.live))
      && host.page.elements == old(host.page.elements)
      && GlobalKept()
    }

    /** The part of `loadURL` after `fetch` resolves (src/Scope.js:376-377):
        an aborted signal makes `fetch` reject, so nothing happens and false
        is returned; otherwise the headers are processed. */
    method OnResponse(req: Request, config: Config, headers: Headers, code: int) returns (ok: bool)
      requires Valid()
      modifies host, host.page
      ensures Valid()
      ensures ok == !req.signal.aborted
      ensures !ok ==> host.effects == old(host.effects) && PageKept() && GlobalKept()
      ensures ok ==> HeadersDone(config, headers, code)
    {
      if req.signal.aborted {
        return false;
      }
      host.ProcessHeaders(config, headers, code);
      ok := true;
    }

    /** What `processResponse` leaves behind. A parsed document updates the
        title, the assets and the scopes by id, and this element keeps its
        state (a replaced scope is a new element). A self-partial body
        becomes this element's content, followed by `afterLoad`, and the
        rest of the document is kept. */
    twostate predicate Processed(data: string, parse: string -> ParsedDocument, parseFragment: string -> Content)
      reads this, host, host.page, host.globalController, abortController
    {
      && (Classify(data) != SelfPartial ==>
            && host.page.live == ProcessScriptsAndStylesSpec(old(host.page.live), parse(data).assets)
            && host.page.elements == ReplaceAll(old(host.page.elements), parse(data).scopes)
            && host.page.title == (if parse(data).title.Some? then parse(data).title.value else old(host.page.title))
            && ScopeKept() && host.effects == old(host.effects))
      && (Classify(data) == SelfPartial ==>
            && innerHTML == data && content == parseFragment(data)
            && AfterLoadDone() && PageKept())
      && attrs == old(attrs) && init == old(init) && GlobalKept()
    }

    /** `processResponse` (src/Scope.js:525-569): a full document or a body
        with embedded scopes is parsed (`parse` stands for the browser's
        parser) and merged; any other body becomes this scope's content
        (`parseFragment` is what the `innerHTML` setter parses it into). */
    method ProcessResponse(data: string, parse: string -> ParsedDocument, parseFragment: string -> Content)
      requires Valid()
      modifies this, host, host.page
      ensures Valid() && Processed(data, parse, parseFragment)
    {
      if Classify(data) != SelfPartial {
        host.page.MergeDocument(parse(data));
      } else {
        innerHTML := data;
        content := parseFragment(data);
        AfterLoad();
      }
    }

    /** The rest of `loadURL` after `response.text()` resolves
        (src/Scope.js:378-379): nothing at all when the signal was aborted
        in the meantime, else the body is processed. */
    method OnBody(req: Request, data: string, parse: string -> ParsedDocument, parseFragment: string -> Content)
      returns (ok: bool)
      requires Valid()
      modifies this, host, host.page
      ensures Valid()
      ensures ok == !req.signal.aborted
      ensures !ok ==> ScopeKept() && host.effects == old(host.effects) && PageKept() && GlobalKept()
      ensures ok ==> Processed(data, parse, parseFragment)
    {
      if req.signal.aborted {
        return false;
      }
      ProcessResponse(data, parse, parseFragment);
      ok := true;
    }

    /** What the first half of `loadContent` leaves behind, for the `src`
        value it reads. It requests when `src` is truthy, unless `check` is
        set and the content is not empty. A request is a GET of `src` under
        a fresh own controller, which becomes the latest one issued; the
        listeners and effects stay. Without a request `afterLoad` runs.
        Either way the content, the document and the module-level
        controller stay. */
    twostate predicate ContentLoadBegun(src: Option<string>, check: bool, new req: Option<Request>)
      reads this, host, host.page, host.globalController, abortController
      reads if req.Some? then {req.value.signal} else {}
    {
      && (req.Some? <==> Truthy(src) && !(check && !IsNodeEmpty(old(content))))
      && (req.Some? ==>
            && req.value == Request(src.value, "GET", None, req.value.signal)
            && fresh(req.value.signal) && !req.value.signal.aborted
            && abortController == req.value.signal && issued == old(issued) + [req.value.signal]
            && events == old(events) && listening == old(listening) && host.effects == old(host.effects)
            && GlobalKept())
      && (req.None? ==> AfterLoadDone())
      && content == old(content) && innerHTML == old(innerHTML) && PageKept()
    }

    /** The part of `loadContent` (src/Scope.js:571-582) before it awaits.
        A new request aborts the previous own controller. */
    method BeginLoadContent(check: bool) returns (req: Option<Request>)
      requires Valid()
      modifies this, host, host.globalController, abortController
      ensures Valid()
      ensures ContentLoadBegun(Attr(old(Self()), "src"), check, req)
      ensures req.Some? && old(abortController) != null ==> old(abortController).aborted
      ensures attrs == old(attrs) && init == old(init)
    {
      var src := Attr(Self(), "src");
      var preventLoading := check && !IsNodeEmpty(content);
      if Truthy(src) && !preventLoading {
        AbortLoading();
        var c := new Controller();
        abortController := c;
        issued := issued + [c];
        var r := BeginLoadURL(src.value, "GET", None, c);
        req := Some(r);
      } else {
        AfterLoad();
        req := None;
      }
    }

    /** The part of `loadContent` after its `await`: `afterLoad` runs when
        `loadURL` completed, and nothing happens when it rejected. */
    method FinishLoadContent(completed: bool)
      requires Valid()
      modifies this, host
      ensures Valid() && PageKept() && GlobalKept()
      ensures completed ==> AfterLoadDone()
      ensures !completed ==> ScopeKept() && host.effects == old(host.effects)
      ensures attrs == old(attrs) && content == old(content) && innerHTML == old(innerHTML) && init == old(init)
    {
      if completed {
        AfterLoad();
      }
    }

    /** The timer task of `connectedCallback` (src/Scope.js:661-666):
        server-rendered content is kept, then the scope is initialised. */
    method ConnectedTask() returns (req: Option<Request>)
      requires Valid()
      modifies this, host, host.globalController, abortController
      ensures Valid() && init && attrs == old(attrs)
      ensures ContentLoadBegun(Attr(old(Self()), "src"), true, req)
      ensures req.Some? && old(abortController) != null ==> old(abortController).aborted
    {
      req := BeginLoadContent(true);
      init := true;
    }

    /** `setAttribute` on the scope, with `attributeChangedCallback`
        (src/Scope.js:637-654): only `src` is observed, and only once the
        scope is initialised does a change start `loadContent()`. */
    method SetAttribute(name: string, value: string) returns (req: Option<Request>)
      requires Valid()
      modifies this, host, host.globalController, abortController
      ensures Valid()
      ensures attrs == old(attrs)[name := value] && init == old(init)
      ensures name == "src" && init ==> ContentLoadBegun(Some(value), false, req)
      ensures !(name == "src" && init) ==>
                && req.None? && host.effects == old(host.effects) && PageKept() && GlobalKept()
                && innerHTML == old(innerHTML) && content == old(content)
                && events == old(events) && listening == old(listening) && OwnKept()
      ensures req.Some? && old(abortController) != null ==> old(abortController).aborted
    {
      attrs := attrs[name := value];
      if name == "src" && init {
        req := BeginLoadContent(false);
      } else {
        req := None;
      }
    }

    /** The decision of `load` for a trigger: `resolve` is
        `new URL(action, location.href).href` and `search` the page's query
        parameters. */
    function PlanFor(el: Element, resolve: Option<string> -> string, search: Params): Plan
      reads this
    {
      ResolveLoad(el, Self(), resolve(GetAction(el)), search)
    }

    /** What `load` leaves behind for a plan. A delegation to an existing
        scope sets its `src` and nothing else; one to a missing scope
        changes nothing. A fetch pushes history when the plan says so and
        goes out under a fresh module-level controller. The assets and the
        title stay. */
    twostate predicate LoadDone(plan: Plan, new start: LoadStart)
      reads host, host.page, host.globalController
      reads if start.Requested? then {start.req.signal} else {}
    {
      && (plan.Delegate? && plan.target in old(host.page.elements) ==>
            && start == Delegated(plan.target, plan.url)
            && host.page.elements == old(host.page.elements)[plan.target := old(host.page.elements)[plan.target].(src := Some(plan.url))]
            && host.effects == old(host.effects) + [SrcSet(plan.target, plan.url)]
            && GlobalKept())
      && (plan.Delegate? && plan.target !in old(host.page.elements) ==>
            && start == TargetMissing(plan.target)
            && host.page.elements == old(host.page.elements)
            && host.effects == old(host.effects)
            && GlobalKept())
      && (plan.Fetch? ==>
            && start.Requested?
            && start.req == Request(plan.url, plan.httpMethod, plan.body, start.req.signal)
            && fresh(start.req.signal) && !start.req.signal.aborted
            && host.globalController == start.req.signal
            && host.globalIssued == old(host.globalIssued) + [start.req.signal]
            && host.effects == old(host.effects) + (if plan.push.Some? then [PushState(plan.push.value)] else [])
            && host.page.elements == old(host.page.elements))
      && host.page.live == old(host.page.live) && host.page.title == old(host.page.title)
    }

    /** `load` (src/Scope.js:304-355) up to the `fetch`. */
    method Load(el: Element, resolve: Option<string> -> string, search: Params) returns (start: LoadStart)
      requires Valid()
      modifies host, host.page, host.globalController
      ensures Valid() && OwnKept()
      ensures LoadDone(PlanFor(el, resolve, search), start)
      ensures start.Requested? && old(host.globalController) != null ==> old(host.globalController).aborted
    {
      OwnIsNotGlobal();
      var plan := PlanFor(el, resolve, search);
      match plan
      case Delegate(target, url) =>
        if target !in host.page.elements {
          return TargetMissing(target);
        }
        host.page.SetSrc(target, url);
        host.Emit(SrcSet(target, url));
        start := Delegated(target, url);
      case Fetch(url, httpMethod, body, push, markActive) =>
        if push.Some? {
          host.Emit(PushState(push.value));
        }
        var req := BeginLoadURL(url, httpMethod, body, null);
        start := Requested(req);
    }

    /** `handleEvent` (src/Scope.js:241-293) with the user's answer to the
        confirmation prompt: a click loads at once, any other event goes
        through the debounced function, and an ignored or declined event
        changes nothing. */
    method HandleEventOn(ev: Event, isExternal: string -> bool, confirmed: bool, resolve: Option<string> -> string, search: Params)
      returns (start: Option<LoadStart>)
      requires Valid()
      modifies host, host.page, host.globalController, loader
      ensures Valid() && OwnKept()
      ensures var run := Proceed(HandleEvent(ident, Self(), ev, isExternal), confirmed);
              && (run.None? ==>
                    && start.None? && loader.pending == old(loader.pending)
                    && host.effects == old(host.effects) && PageKept() && GlobalKept())
              && (run.Some? && run.value.1 == Debounced ==>
                    && start.None? && loader.pending == Some(run.value.0)
                    && host.effects == old(host.effects) && PageKept() && GlobalKept())
              && (run.Some? && run.value.1 == Immediate ==>
                    && start.Some? && loader.pending == old(loader.pending)
                    && LoadDone(PlanFor(run.value.0, resolve, search), start.value))
    {
      var d := HandleEvent(ident, Self(), ev, isExternal);
      var run := Proceed(d, confirmed);
      match run
      case None =>
        start := None;
      case Some((trigger, mode)) =>
        if mode == Immediate {
          var s := Load(trigger, resolve, search);
          start := Some(s);
        } else {
          loader.Call(trigger);
          start := None;
        }
    }

    /** The debounce timer expires: the last pending trigger is loaded, and
        with none pending nothing happens. */
    method DebounceFired(resolve: Option<string> -> string, search: Params) returns (start: Option<LoadStart>)
      requires Valid()
      modifies host, host.page, host.globalController, loader
      ensures Valid() && OwnKept() && loader.pending == None
      ensures old(loader.pending).None? ==>
                start.None? && host.effects == old(host.effects) && PageKept() && GlobalKept()
      ensures old(loader.pending).Some? ==>
                start.Some? && LoadDone(PlanFor(old(loader.pending).value, resolve, search), start.value)
    {
      var run := loader.Fire();
      match run
      case None =>
        start := None;
      case Some(trigger) =>
        var s := Load(trigger, resolve, search);
        start := Some(s);
    }
  }
}
