/** The live document as the merge of a response sees it: its script, style
    and link elements, its title and its elements by id. This module holds
    the asset de-duplication rules of `_loadScript`, `_loadStyle` and
    `processScriptsAndStyles` (src/Scope.js:435-520), the title update of
    `processHead` (src/Scope.js:425-433) and the scope replacement of
    `processResponse` (src/Scope.js:543-563), first as functions on values,
    then as the methods of `Page` that perform them in place. */
module Document {
  import opened Text
  import opened Hash
  import opened Attributes
  import opened Markup

  /** The script, style and link elements of the live document, those of
      the head and those of the body, in document order, and the log of
      the elements inserted so far: an inserted script runs, an inserted
      link or style applies. */
  datatype Live = Live(head: seq<Asset>, body: seq<Asset>, inserted: seq<Asset>)

  /** The assets in document order. */
  function All(l: Live): seq<Asset> {
    l.head + l.body
  }

  /** The selectors the component queries with: `script[src="u"]`,
      `link[href="u"]`, `script[id="i"]` and `style[id="i"]`. */
  datatype Query = ScriptSrc(src: string) | LinkHref(href: string) | ScriptId(sid: string) | StyleId(tid: string)

  predicate Matches(a: Asset, q: Query) {
    match q
    case ScriptSrc(u) => a.tag == Script && a.src == Some(u)
    case LinkHref(u) => a.tag == Link && a.href == Some(u)
    case ScriptId(i) => a.tag == Script && a.id == Some(i)
    case StyleId(i) => a.tag == Style && a.id == Some(i)
  }

  /** How many elements a selector matches. */
  function Count(s: seq<Asset>, q: Query): nat {
    if s == [] then 0 else Count(s[..|s| - 1], q) + (if Matches(s[|s| - 1], q) then 1 else 0)
  }

  function FirstMatchFrom(s: seq<Asset>, q: Query, i: nat): (r: Option<nat>)
    requires i <= |s|
    ensures r.Some? ==> i <= r.value < |s| && Matches(s[r.value], q)
    ensures r.Some? ==> forall k :: i <= k < r.value ==> !Matches(s[k], q)
    ensures r.None? ==> forall k :: i <= k < |s| ==> !Matches(s[k], q)
    decreases |s| - i
  {
    if i == |s| then None else if Matches(s[i], q) then Some(i) else FirstMatchFrom(s, q, i + 1)
  }

  /** `document.querySelector(selector)`: the position of the first match
      in document order. */
  function FirstMatch(s: seq<Asset>, q: Query): (r: Option<nat>)
    ensures r.Some? ==> r.value < |s| && Matches(s[r.value], q) && forall k :: 0 <= k < r.value ==> !Matches(s[k], q)
    ensures r.None? ==> forall k :: 0 <= k < |s| ==> !Matches(s[k], q)
  {
    FirstMatchFrom(s, q, 0)
  }

  /** The first match is the one position that matches with no match
      before it. */
  lemma {:induction false} FirstMatchIs(s: seq<Asset>, q: Query, from: nat, i: nat)
    requires from <= i < |s| && Matches(s[i], q)
    requires forall k :: from <= k < i ==> !Matches(s[k], q)
    ensures FirstMatchFrom(s, q, from) == Some(i)
    decreases i - from
  {
    if from < i {
      FirstMatchIs(s, q, from + 1, i);
    }
  }

  lemma {:induction false} CountConcat(s: seq<Asset>, t: seq<Asset>, q: Query)
    ensures Count(s + t, q) == Count(s, q) + Count(t, q)
    decreases |t|
  {
    if t == [] {
      assert s + t == s;
    } else {
      CountConcat(s, t[..|t| - 1], q);
      assert (s + t)[..|s + t| - 1] == s + t[..|t| - 1];
    }
  }

  lemma CountSingle(a: Asset, q: Query)
    ensures Count([a], q) == if Matches(a, q) then 1 else 0
  {
    assert [a][..0] == [];
  }

  lemma {:induction false} CountZero(s: seq<Asset>, q: Query)
    ensures Count(s, q) == 0 <==> forall k :: 0 <= k < |s| ==> !Matches(s[k], q)
    decreases |s|
  {
    if s != [] {
      CountZero(s[..|s| - 1], q);
    }
  }

  /** A selector finds an element exactly when it matches at least one. */
  lemma FoundIffCounted(s: seq<Asset>, q: Query)
    ensures FirstMatch(s, q).Some? <==> Count(s, q) > 0
  {
    CountZero(s, q);
  }

  lemma {:induction false} CountReplace(s: seq<Asset>, i: nat, a: Asset, q: Query)
    requires i < |s| && Matches(s[i], q) == Matches(a, q)
    ensures Count(s[i := a], q) == Count(s, q)
    decreases |s|
  {
    if i == |s| - 1 {
      assert s[i := a][..|s| - 1] == s[..|s| - 1];
    } else {
      CountReplace(s[..|s| - 1], i, a, q);
      assert s[i := a][..|s| - 1] == s[..|s| - 1][i := a];
    }
  }

  /** `document.head.appendChild(a)`. */
  function Append(l: Live, a: Asset): (r: Live)
    ensures All(r) == l.head + [a] + l.body && r.inserted == l.inserted + [a]
  {
    Live(l.head + [a], l.body, l.inserted + [a])
  }

  /** `existing.replaceWith(a)`, for the element at position `i`. */
  function ReplaceWith(l: Live, i: nat, a: Asset): (r: Live)
    requires i < |All(l)|
    ensures All(r) == All(l)[i := a] && |r.head| == |l.head| && r.inserted == l.inserted + [a]
  {
    if i < |l.head| then
      assert (l.head[i := a] + l.body) == (l.head + l.body)[i := a];
      Live(l.head[i := a], l.body, l.inserted + [a])
    else
      assert (l.head + l.body[i - |l.head| := a]) == (l.head + l.body)[i := a];
      Live(l.head, l.body[i - |l.head| := a], l.inserted + [a])
  }

  /** An append adds one match of `q` exactly when the new element matches. */
  lemma AppendCount(l: Live, a: Asset, q: Query)
    ensures Count(All(Append(l, a)), q) == Count(All(l), q) + (if Matches(a, q) then 1 else 0)
  {
    CountConcat(l.head + [a], l.body, q);
    CountConcat(l.head, [a], q);
    CountConcat(l.head, l.body, q);
    CountSingle(a, q);
  }

  // ---- _loadScript and _loadStyle ----

  /** `type || "text/javascript"`. */
  function ScriptKind(kind: string): string {
    if kind == "" then "text/javascript" else kind
  }

  /** The element `_loadScript` creates. */
  function ExternalScript(src: string, kind: string): Asset {
    Asset(Script, Some(src), None, None, None, ScriptKind(kind), "")
  }

  /** The element `_loadStyle` creates. */
  function ExternalStyle(href: string): Asset {
    Asset(Link, None, Some(href), None, Some("stylesheet"), "", "")
  }

  /** `_loadScript(src, type)` (src/Scope.js:435-448); the empty `kind`
      stands for a missing type. */
  function LoadScriptSpec(l: Live, src: string, kind: string): Live {
    if FirstMatch(All(l), ScriptSrc(src)).Some? then l else Append(l, ExternalScript(src, kind))
  }

  /** `_loadStyle(href)` (src/Scope.js:450-460). */
  function LoadStyleSpec(l: Live, href: string): Live {
    if FirstMatch(All(l), LinkHref(href)).Some? then l else Append(l, ExternalStyle(href))
  }

  /** External scripts are inserted if absent: a present `script[src]`
      leaves the document as it is; an absent one is appended to the head,
      once. Either way exactly one more request changes nothing. */
  lemma LoadScriptInsertIfAbsent(l: Live, src: string, kind: string, kind': string)
    ensures var r := LoadScriptSpec(l, src, kind);
            Count(All(r), ScriptSrc(src)) == (if Count(All(l), ScriptSrc(src)) == 0 then 1 else Count(All(l), ScriptSrc(src)))
    ensures Count(All(l), ScriptSrc(src)) > 0 ==> LoadScriptSpec(l, src, kind) == l
    ensures Count(All(l), ScriptSrc(src)) == 0 ==> LoadScriptSpec(l, src, kind) == Append(l, ExternalScript(src, kind))
    ensures LoadScriptSpec(LoadScriptSpec(l, src, kind), src, kind') == LoadScriptSpec(l, src, kind)
  {
    FoundIffCounted(All(l), ScriptSrc(src));
    AppendCount(l, ExternalScript(src, kind), ScriptSrc(src));
    FoundIffCounted(All(LoadScriptSpec(l, src, kind)), ScriptSrc(src));
  }

  /** The same rule for external style sheets and `link[href]`, whatever
      the `rel` of the link already there. */
  lemma LoadStyleInsertIfAbsent(l: Live, href: string)
    ensures var r := LoadStyleSpec(l, href);
            Count(All(r), LinkHref(href)) == (if Count(All(l), LinkHref(href)) == 0 then 1 else Count(All(l), LinkHref(href)))
    ensures Count(All(l), LinkHref(href)) > 0 ==> LoadStyleSpec(l, href) == l
    ensures Count(All(l), LinkHref(href)) == 0 ==> LoadStyleSpec(l, href) == Append(l, ExternalStyle(href))
    ensures LoadStyleSpec(LoadStyleSpec(l, href), href) == LoadStyleSpec(l, href)
  {
    FoundIffCounted(All(l), LinkHref(href));
    AppendCount(l, ExternalStyle(href), LinkHref(href));
    FoundIffCounted(All(LoadStyleSpec(l, href)), LinkHref(href));
  }

  /** `split(",").forEach((src) => this._loadScript(src))`. */
  function LoadScriptsSpec(l: Live, srcs: seq<string>): Live {
    if srcs == [] then l else LoadScriptSpec(LoadScriptsSpec(l, srcs[..|srcs| - 1]), srcs[|srcs| - 1], "")
  }

  /** `split(",").forEach((href) => this._loadStyle(href))`. */
  function LoadStylesSpec(l: Live, hrefs: seq<string>): Live {
    if hrefs == [] then l else LoadStyleSpec(LoadStylesSpec(l, hrefs[..|hrefs| - 1]), hrefs[|hrefs| - 1])
  }

  // ---- tagging the live inline scripts and styles ----

  /** `script:not([src]):not([id]),style:not([id])`. */
  predicate NeedsTag(a: Asset) {
    (a.tag == Script && a.src.None? && a.id.None?) || (a.tag == Style && a.id.None?)
  }

  /** `nodeName.toLowerCase()`. */
  function TagName(t: AssetTag): string {
    match t
    case Script => "script"
    case Style => "style"
    case Link => "link"
  }

  /** The id computed from an inline element's content. */
  function ContentId(t: AssetTag, content: string): string {
    TagName(t) + "-" + HashString(content)
  }

  function Tagged(a: Asset): Asset {
    if NeedsTag(a) then a.(id := Some(ContentId(a.tag, a.content))) else a
  }

  function TagSeq(s: seq<Asset>): (r: seq<Asset>)
    ensures |r| == |s| && forall k :: 0 <= k < |s| ==> r[k] == Tagged(s[k])
  {
    if s == [] then [] else TagSeq(s[..|s| - 1]) + [Tagged(s[|s| - 1])]
  }

  /** The first loop of `processScriptsAndStyles` (src/Scope.js:464-470). */
  function TagAll(l: Live): Live {
    Live(TagSeq(l.head), TagSeq(l.body), l.inserted)
  }

  /** Tagging gives every untagged inline script and every id-less style
      the id `<tag>-<hash of innerHTML>`, keeps every other element (and
      every other attribute) as it is, and leaves nothing to tag. */
  lemma TagAllSpec(l: Live)
    ensures var t := TagAll(l);
            |All(t)| == |All(l)| && |t.head| == |l.head| && t.inserted == l.inserted &&
            forall k :: 0 <= k < |All(l)| ==> All(t)[k] == Tagged(All(l)[k])
    ensures forall k :: 0 <= k < |All(l)| ==>
              var a := All(l)[k];
              var b := All(TagAll(l))[k];
              !NeedsTag(b) &&
              b == a.(id := b.id) &&
              (NeedsTag(a) ==> b.id == Some(ContentId(a.tag, a.content))) &&
              (!NeedsTag(a) ==> b == a)
  {
    var t := TagAll(l);
    forall k | 0 <= k < |All(l)| ensures All(t)[k] == Tagged(All(l)[k]) {
      if k < |l.head| {
        assert All(t)[k] == t.head[k];
      } else {
        assert All(t)[k] == t.body[k - |l.head|];
      }
    }
  }

  /** Tagging twice is tagging once. */
  lemma TagAllIdempotent(l: Live)
    ensures TagAll(TagAll(l)) == TagAll(l)
  {
    var t := TagAll(l);
    assert TagSeq(t.head) == t.head;
    assert TagSeq(t.body) == t.body;
  }

  // ---- merging an incoming script or style ----

  /** `script.getAttribute("id") || `script-${hash}``, and the same for
      styles. */
  function InlineId(a: Asset, t: AssetTag): string {
    if Truthy(a.id) then a.id.value else ContentId(t, a.content)
  }

  /** The element the inline-script branch creates. */
  function InlineScript(s: Asset): Asset {
    Asset(Script, None, None, Some(InlineId(s, Script)), None, ScriptKind(s.kind), s.content)
  }

  /** The element the inline-style branch creates. */
  function InlineStyle(st: Asset): Asset {
    Asset(Style, None, None, Some(InlineId(st, Style)), None, "", st.content)
  }

  /** One turn of the script loop (src/Scope.js:473-499): an inline script
      is skipped only when its explicit id is already live; otherwise the
      first live script with its id is replaced, or a new one is appended. */
  function MergeScriptSpec(l: Live, s: Asset): Live {
    if Truthy(s.src) then LoadScriptSpec(l, s.src.value, ScriptKind(s.kind))
    else
      var existing := FirstMatch(All(l), ScriptId(InlineId(s, Script)));
      if existing.Some? && Truthy(s.id) then l
      else if existing.Some? then ReplaceWith(l, existing.value, InlineScript(s))
      else Append(l, InlineScript(s))
  }

  /** One turn of the style loop (src/Scope.js:501-519): an inline style is
      inserted only when no style carries its id. */
  function MergeStyleSpec(l: Live, st: Asset): Live {
    if Truthy(st.href) then LoadStyleSpec(l, st.href.value)
    else if FirstMatch(All(l), StyleId(InlineId(st, Style))).Some? then l
    else Append(l, InlineStyle(st))
  }

  /** An inline script whose own id is already live is skipped. */
  lemma ExplicitIdScriptSkipped(l: Live, s: Asset)
    requires !Truthy(s.src) && Truthy(s.id) && Count(All(l), ScriptId(s.id.value)) > 0
    ensures MergeScriptSpec(l, s) == l
  {
    FoundIffCounted(All(l), ScriptId(s.id.value));
  }

  /** Any other inline script is (re)inserted and runs: afterwards the first
      live script with its id is the new one, as many scripts carry the id
      as before (one if none did), and the document grows only when none
      did. */
  lemma InlineScriptInstalled(l: Live, s: Asset)
    requires !Truthy(s.src)
    requires !(Truthy(s.id) && Count(All(l), ScriptId(s.id.value)) > 0)
    ensures var r := MergeScriptSpec(l, s);
            var q := ScriptId(InlineId(s, Script));
            && r.inserted == l.inserted + [InlineScript(s)]
            && Count(All(r), q) == (if Count(All(l), q) == 0 then 1 else Count(All(l), q))
            && FirstMatch(All(r), q).Some?
            && All(r)[FirstMatch(All(r), q).value] == InlineScript(s)
            && |All(r)| == |All(l)| + (if Count(All(l), q) == 0 then 1 else 0)
  ensures var r := MergeScriptSpec(l, s);
          var q := ScriptId(InlineId(s, Script));
          Count(All(l), q) == 0 ==> r == Append(l, InlineScript(s))
  ensures var r := MergeScriptSpec(l, s);
          var q := ScriptId(InlineId(s, Script));
          Count(All(l), q) > 0 ==>
            && FirstMatch(All(l), q).Some?
            && All(r) == All(l)[FirstMatch(All(l), q).value := InlineScript(s)]
            && |r.head| == |l.head|
  {
    var q := ScriptId(InlineId(s, Script));
    var r := MergeScriptSpec(l, s);
    var a := InlineScript(s);
    FoundIffCounted(All(l), q);
    FoundIffCounted(All(r), q);
    match FirstMatch(All(l), q)
    case Some(i) =>
      assert r == ReplaceWith(l, i, a);
      CountReplace(All(l), i, a, q);
      forall k | 0 <= k < i ensures !Matches(All(r)[k], q) {
        assert All(r)[k] == All(l)[k];
      }
      FirstMatchIs(All(r), q, 0, i);
    case None =>
      assert r == Append(l, a);
      AppendCount(l, a, q);
      forall k | 0 <= k < |l.head| ensures !Matches(All(r)[k], q) {
        assert All(r)[k] == All(l)[k];
      }
      FirstMatchIs(All(r), q, 0, |l.head|);
  }

  /** A repeated id-less inline script is not skipped: when the live
      document holds an untagged inline script with the same content, the
      first script carrying the shared content id (the tagged copy, or an
      earlier script with that id) is replaced in place by a new element,
      which runs again, and the number of assets stays the same. */
  lemma RepeatedInlineScriptRunsAgain(l: Live, s: Asset, k: nat)
    requires k < |All(l)|
    requires All(l)[k].tag == Script && All(l)[k].src.None? && All(l)[k].id.None?
    requires All(l)[k].content == s.content
    requires !Truthy(s.src) && !Truthy(s.id)
    ensures var t := TagAll(l);
            var r := MergeScriptSpec(t, s);
            r.inserted == l.inserted + [InlineScript(s)] && |All(r)| == |All(l)|
  ensures var t := TagAll(l);
          var q := ScriptId(InlineId(s, Script));
          && Matches(All(t)[k], q)
          && FirstMatch(All(t), q).Some? && FirstMatch(All(t), q).value <= k
          && All(MergeScriptSpec(t, s)) == All(t)[FirstMatch(All(t), q).value := InlineScript(s)]
  {
    var t := TagAll(l);
    TagAllSpec(l);
    var q := ScriptId(InlineId(s, Script));
    assert Matches(All(t)[k], q);
    CountZero(All(t), q);
    InlineScriptInstalled(t, s);
  }

  /** An inline style whose id is live is never replaced, whatever its new
      content; otherwise exactly one style with that id is appended. */
  lemma InlineStyleInsertIfAbsent(l: Live, st: Asset)
    requires !Truthy(st.href)
    ensures var q := StyleId(InlineId(st, Style));
            Count(All(l), q) > 0 ==> MergeStyleSpec(l, st) == l
    ensures var q := StyleId(InlineId(st, Style));
            Count(All(l), q) == 0 ==>
              MergeStyleSpec(l, st) == Append(l, InlineStyle(st)) && Count(All(MergeStyleSpec(l, st)), q) == 1
  {
    var q := StyleId(InlineId(st, Style));
    FoundIffCounted(All(l), q);
    AppendCount(l, InlineStyle(st), q);
  }

  /** The elements of a parsed document the two loops visit: every script,
      and every style or `link[rel="stylesheet"]`. In an HTML document the
      selector compares `rel` without regard to ASCII case. */
  predicate IsIncomingStyle(a: Asset) {
    a.tag == Style || (a.tag == Link && a.rel.Some? && EqualsIgnoringCase(a.rel.value, "stylesheet"))
  }

  function MergeScriptsSpec(l: Live, assets: seq<Asset>): Live {
    if assets == [] then l
    else
      var p := MergeScriptsSpec(l, assets[..|assets| - 1]);
      var a := assets[|assets| - 1];
      if a.tag == Script then MergeScriptSpec(p, a) else p
  }

  function MergeStylesSpec(l: Live, assets: seq<Asset>): Live {
    if assets == [] then l
    else
      var p := MergeStylesSpec(l, assets[..|assets| - 1]);
      var a := assets[|assets| - 1];
      if IsIncomingStyle(a) then MergeStyleSpec(p, a) else p
  }

  /** `processScriptsAndStyles(doc)` on the assets of the parsed document. */
  function ProcessScriptsAndStylesSpec(l: Live, assets: seq<Asset>): Live {
    MergeStylesSpec(MergeScriptsSpec(TagAll(l), assets), assets)
  }

  /** The document never shrinks: every merge step keeps the number of
      assets (a replaced script is swapped one for one) or adds one, and
      only extends the insertion log. */
  predicate Grows(l: Live, r: Live) {
    |All(l)| <= |All(r)| && |l.inserted| <= |r.inserted| && r.inserted[..|l.inserted|] == l.inserted
  }

  lemma MergeScriptGrows(l: Live, s: Asset)
    ensures Grows(l, MergeScriptSpec(l, s))
  {
    var r := MergeScriptSpec(l, s);
    assert r == l || r.inserted[..|l.inserted|] == l.inserted;
  }

  lemma MergeStyleGrows(l: Live, st: Asset)
    ensures Grows(l, MergeStyleSpec(l, st))
  {
    var r := MergeStyleSpec(l, st);
    assert r == l || r.inserted[..|l.inserted|] == l.inserted;
  }

  lemma GrowsTransitive(a: Live, b: Live, c: Live)
    requires Grows(a, b) && Grows(b, c)
    ensures Grows(a, c)
  {
    assert c.inserted[..|a.inserted|] == c.inserted[..|b.inserted|][..|a.inserted|];
  }

  lemma {:induction false} MergeScriptsGrows(l: Live, assets: seq<Asset>)
    ensures Grows(l, MergeScriptsSpec(l, assets))
    decreases |assets|
  {
    if assets != [] {
      var p := MergeScriptsSpec(l, assets[..|assets| - 1]);
      MergeScriptsGrows(l, assets[..|assets| - 1]);
      MergeScriptGrows(p, assets[|assets| - 1]);
      GrowsTransitive(l, p, MergeScriptsSpec(l, assets));
    }
  }

  lemma {:induction false} MergeStylesGrows(l: Live, assets: seq<Asset>)
    ensures Grows(l, MergeStylesSpec(l, assets))
    decreases |assets|
  {
    if assets != [] {
      var p := MergeStylesSpec(l, assets[..|assets| - 1]);
      MergeStylesGrows(l, assets[..|assets| - 1]);
      MergeStyleGrows(p, assets[|assets| - 1]);
      GrowsTransitive(l, p, MergeStylesSpec(l, assets));
    }
  }

  /** The whole merge never lowers the number of assets and only appends to
      the log of inserted elements. */
  lemma ProcessScriptsAndStylesGrows(l: Live, assets: seq<Asset>)
    ensures Grows(l, ProcessScriptsAndStylesSpec(l, assets))
  {
    TagAllSpec(l);
    MergeScriptsGrows(TagAll(l), assets);
    MergeStylesGrows(MergeScriptsSpec(TagAll(l), assets), assets);
    GrowsTransitive(l, TagAll(l), MergeScriptsSpec(TagAll(l), assets));
    GrowsTransitive(l, MergeScriptsSpec(TagAll(l), assets), ProcessScriptsAndStylesSpec(l, assets));
  }

  // ---- replacing scopes by id ----

  /** A parsed `sco-pe` replaces the live element with its id when it has a
      non-empty id, it is not empty, and such an element exists. */
  predicate Replaces(m: map<string, Fragment>, f: Fragment, id: string) {
    f.id == Some(id) && id != "" && !IsNodeEmpty(f.content) && id in m
  }

  /** One turn of the replacement loop (src/Scope.js:545-563). */
  function ReplaceOne(m: map<string, Fragment>, f: Fragment): (r: map<string, Fragment>)
    ensures r.Keys == m.Keys
  {
    if f.id.None? || f.id.value == "" then m
    else if IsNodeEmpty(f.content) then m
    else if f.id.value !in m then m
    else m[f.id.value := f]
  }

  function ReplaceAll(m: map<string, Fragment>, fs: seq<Fragment>): (r: map<string, Fragment>)
    ensures r.Keys == m.Keys
  {
    if fs == [] then m else ReplaceOne(ReplaceAll(m, fs[..|fs| - 1]), fs[|fs| - 1])
  }

  /** One turn on a map with the same ids as the original one. */
  lemma ReplaceOneAt(m: map<string, Fragment>, p: map<string, Fragment>, f: Fragment, id: string)
    requires p.Keys == m.Keys && id in m
    ensures ReplaceOne(p, f)[id] == if Replaces(m, f, id) then f else p[id]
  {
  }

  /** The outcome of the replacement loop for each live id: no element
      appears or disappears (the ensures of `ReplaceAll`); an id no eligible
      fragment names keeps its element. */
  lemma {:induction false} ReplaceAllUntouched(m: map<string, Fragment>, fs: seq<Fragment>, id: string)
    requires id in m
    requires forall k :: 0 <= k < |fs| ==> !Replaces(m, fs[k], id)
    ensures ReplaceAll(m, fs)[id] == m[id]
    decreases |fs|
  {
    if fs != [] {
      var init := fs[..|fs| - 1];
      ReplaceAllUntouched(m, init, id);
      ReplaceOneAt(m, ReplaceAll(m, init), fs[|fs| - 1], id);
    }
  }

  /** Otherwise the element is the last eligible fragment with that id:
      skipped fragments, before or after it, do not stop it. */
  lemma {:induction false} ReplaceAllLastWins(m: map<string, Fragment>, fs: seq<Fragment>, id: string, k: nat)
    requires id in m
    requires k < |fs| && Replaces(m, fs[k], id)
    requires forall j :: k < j < |fs| ==> !Replaces(m, fs[j], id)
    ensures ReplaceAll(m, fs)[id] == fs[k]
    decreases |fs|
  {
    var init := fs[..|fs| - 1];
    ReplaceOneAt(m, ReplaceAll(m, init), fs[|fs| - 1], id);
    if k < |fs| - 1 {
      ReplaceAllLastWins(m, init, id, k);
    }
  }

  // ---- the live document as an object ----

  /** The document a scope merges responses into. */
  class Page {
    var live: Live
    var title: string
    var elements: map<string, Fragment>

    constructor (live0: Live, title0: string, elements0: map<string, Fragment>)
      ensures live == live0 && title == title0 && elements == elements0
    {
      live := live0;
      title := title0;
      elements := elements0;
    }

    /** `document.title = title`. */
    method SetTitle(t: string)
      modifies this
      ensures title == t && live == old(live) && elements == old(elements)
    {
      title := t;
    }

    /** `getElementById(target).setAttribute("src", url)`, on an element
        that exists. */
    method SetSrc(target: string, url: string)
      requires target in elements
      modifies this
      ensures elements == old(elements)[target := old(elements)[target].(src := Some(url))]
      ensures live == old(live) && title == old(title)
    {
      elements := elements[target := elements[target].(src := Some(url))];
    }

    /** `processHead` (src/Scope.js:425-433): the parsed head's `title`
        element, when there is one, sets the title, even to "". */
    method ProcessHead(docTitle: Option<string>)
      modifies this
      ensures title == (if docTitle.Some? then docTitle.value else old(title))
      ensures live == old(live) && elements == old(elements)
    {
      if docTitle.Some? {
        title := docTitle.value;
      }
    }

    /** `_loadScript` (src/Scope.js:435-448). */
    method LoadScript(src: string, kind: string)
      modifies this
      ensures live == LoadScriptSpec(old(live), src, kind)
      ensures title == old(title) && elements == old(elements)
    {
      var existing := FirstMatch(All(live), ScriptSrc(src));
      if existing.Some? {
        return;
      }
      var script := ExternalScript(src, kind);
      live := Append(live, script);
    }

    /** `_loadStyle` (src/Scope.js:450-460). */
    method LoadStyle(href: string)
      modifies this
      ensures live == LoadStyleSpec(old(live), href)
      ensures title == old(title) && elements == old(elements)
    {
      var existing := FirstMatch(All(live), LinkHref(href));
      if existing.Some? {
        return;
      }
      var style := ExternalStyle(href);
      live := Append(live, style);
    }

    /** `_loadScript` for each source of a list, in order. */
    method LoadScripts(srcs: seq<string>)
      modifies this
      ensures live == LoadScriptsSpec(old(live), srcs)
      ensures title == old(title) && elements == old(elements)
    {
      var i := 0;
      while i < |srcs|
        invariant 0 <= i <= |srcs|
        invariant live == LoadScriptsSpec(old(live), srcs[..i])
        invariant title == old(title) && elements == old(elements)
      {
        assert srcs[..i + 1][..i] == srcs[..i];
        LoadScript(srcs[i], "");
        i := i + 1;
      }
      assert srcs[..i] == srcs;
    }

    /** `_loadStyle` for each address of a list, in order. */
    method LoadStyles(hrefs: seq<string>)
      modifies this
      ensures live == LoadStylesSpec(old(live), hrefs)
      ensures title == old(title) && elements == old(elements)
    {
      var i := 0;
      while i < |hrefs|
        invariant 0 <= i <= |hrefs|
        invariant live == LoadStylesSpec(old(live), hrefs[..i])
        invariant title == old(title) && elements == old(elements)
      {
        assert hrefs[..i + 1][..i] == hrefs[..i];
        LoadStyle(hrefs[i]);
        i := i + 1;
      }
      assert hrefs[..i] == hrefs;
    }

    /** The first loop of `processScriptsAndStyles`, over the head and then
        the body. */
    method TagInlineAssets()
      modifies this
      ensures live == TagAll(old(live))
      ensures title == old(title) && elements == old(elements)
    {
      var head := TagSequence(live.head);
      var body := TagSequence(live.body);
      live := Live(head, body, live.inserted);
    }

    /** One turn of the script loop (src/Scope.js:473-499). */
    method MergeScript(s: Asset)
      modifies this
      ensures live == MergeScriptSpec(old(live), s)
      ensures title == old(title) && elements == old(elements)
    {
      if Truthy(s.src) {
        LoadScript(s.src.value, ScriptKind(s.kind));
        return;
      }
      var hash := SimpleHash(s.content);
      var id := if Truthy(s.id) then s.id.value else "script-" + hash;
      assert id == InlineId(s, Script);
      var existing := FirstMatch(All(live), ScriptId(id));
      if existing.Some? && Truthy(s.id) {
        return;
      }
      var script := InlineScript(s);
      if existing.Some? {
        live := ReplaceWith(live, existing.value, script);
      } else {
        live := Append(live, script);
      }
    }

    /** One turn of the style loop (src/Scope.js:501-519). */
    method MergeStyle(st: Asset)
      modifies this
      ensures live == MergeStyleSpec(old(live), st)
      ensures title == old(title) && elements == old(elements)
    {
      if Truthy(st.href) {
        LoadStyle(st.href.value);
        return;
      }
      var hash := SimpleHash(st.content);
      var id := if Truthy(st.id) then st.id.value else "style-" + hash;
      assert id == InlineId(st, Style);
      var existing := FirstMatch(All(live), StyleId(id));
      if existing.Some? {
        return;
      }
      live := Append(live, InlineStyle(st));
    }

    /** The script loop of `processScriptsAndStyles` (src/Scope.js:473-499). */
    method MergeScripts(assets: seq<Asset>)
      modifies this
      ensures live == MergeScriptsSpec(old(live), assets)
      ensures title == old(title) && elements == old(elements)
    {
      var i := 0;
      while i < |assets|
        invariant 0 <= i <= |assets|
        invariant live == MergeScriptsSpec(old(live), assets[..i])
        invariant title == old(title) && elements == old(elements)
      {
        assert assets[..i + 1][..i] == assets[..i];
        if assets[i].tag == Script {
          MergeScript(assets[i]);
        }
        i := i + 1;
      }
      assert assets[..i] == assets;
    }

    /** The style loop of `processScriptsAndStyles` (src/Scope.js:501-519). */
    method MergeStyles(assets: seq<Asset>)
      modifies this
      ensures live == MergeStylesSpec(old(live), assets)
      ensures title == old(title) && elements == old(elements)
    {
      var i := 0;
      while i < |assets|
        invariant 0 <= i <= |assets|
        invariant live == MergeStylesSpec(old(live), assets[..i])
        invariant title == old(title) && elements == old(elements)
      {
        assert assets[..i + 1][..i] == assets[..i];
        if IsIncomingStyle(assets[i]) {
          MergeStyle(assets[i]);
        }
        i := i + 1;
      }
      assert assets[..i] == assets;
    }

    /** `processScriptsAndStyles` (src/Scope.js:462-520). */
    method ProcessScriptsAndStyles(assets: seq<Asset>)
      modifies this
      ensures live == ProcessScriptsAndStylesSpec(old(live), assets)
      ensures title == old(title) && elements == old(elements)
    {
      TagInlineAssets();
      MergeScripts(assets);
      MergeStyles(assets);
    }

    /** The replacement loop of `processResponse` (src/Scope.js:544-563). */
    method ReplaceScopes(scopes: seq<Fragment>)
      modifies this
      ensures elements == ReplaceAll(old(elements), scopes)
      ensures live == old(live) && title == old(title)
    {
      var i := 0;
      while i < |scopes|
        invariant 0 <= i <= |scopes|
        invariant elements == ReplaceAll(old(elements), scopes[..i])
        invariant live == old(live) && title == old(title)
      {
        assert scopes[..i + 1][..i] == scopes[..i];
        var newScope := scopes[i];
        if newScope.id.None? || newScope.id.value == "" {
          // a scope without id
        } else if IsNodeEmpty(newScope.content) {
          // an empty scope
        } else if newScope.id.value !in elements {
          // no matching live element
        } else {
          elements := elements[newScope.id.value := newScope];
        }
        i := i + 1;
      }
      assert scopes[..i] == scopes;
    }

    /** The parse-and-replace path of `processResponse` (src/Scope.js:535-563):
        title, then assets, then scopes. */
    method MergeDocument(doc: ParsedDocument)
      modifies this
      ensures title == (if doc.title.Some? then doc.title.value else old(title))
      ensures live == ProcessScriptsAndStylesSpec(old(live), doc.assets)
      ensures elements == ReplaceAll(old(elements), doc.scopes)
    {
      ProcessHead(doc.title);
      ProcessScriptsAndStyles(doc.assets);
      ReplaceScopes(doc.scopes);
    }
  }

  /** The tagging loop over one run of elements, hashing each element that
      needs an id. */
  method TagSequence(s: seq<Asset>) returns (r: seq<Asset>)
    ensures r == TagSeq(s)
  {
    r := s;
    var i := 0;
    while i < |r|
      invariant 0 <= i <= |r| == |s|
      invariant forall k :: 0 <= k < i ==> r[k] == Tagged(s[k])
      invariant forall k :: i <= k < |r| ==> r[k] == s[k]
    {
      var el := r[i];
      if NeedsTag(el) {
        var hash := SimpleHash(el.content);
        var id := TagName(el.tag) + "-" + hash;
        r := r[i := el.(id := Some(id))];
      }
      i := i + 1;
    }
    assert r == TagSeq(s);
  }
}
