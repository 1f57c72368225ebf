/** How `processResponse` (src/Scope.js:525-569) classifies a response body,
    and the abstract view of markup the merge works on: parsing itself is
    done by the browser and is supplied to the model by its caller. */
module Markup {
  import opened Text
  import opened Attributes

  /** The parsed children of an element, as far as the component looks at
      them: the text content, whether there is a first element child, and,
      in document order, the descendants that carry `data-scope-on`. */
  datatype Content = Content(text: string, hasElementChild: bool, overrides: seq<Element>)

  /** An element found by id in a document: a scope root of a parsed
      response, or the live element `getElementById` returns. */
  datatype Fragment = Fragment(id: Option<string>, src: Option<string>, content: Content)

  /** What the browser's parser yields for a response body: the text of the
      head's `title` element if there is one, the script, style and link
      elements in document order, and the `sco-pe` elements in document
      order. */
  datatype ParsedDocument = ParsedDocument(title: Option<string>, assets: seq<Asset>, scopes: seq<Fragment>)

  datatype AssetTag = Script | Style | Link

  /** A script, style or link element: its tag, its `src`, `href`, `id` and
      `rel` attributes (None when absent), its `type` property ("" when the
      attribute is absent) and its `innerHTML`. */
  datatype Asset = Asset(
    tag: AssetTag, src: Option<string>, href: Option<string>, id: Option<string>,
    rel: Option<string>, kind: string, content: string)

  /** `isNodeEmpty` (src/Scope.js:125-127). */
  predicate IsNodeEmpty(c: Content) {
    Trim(c.text) == "" && !c.hasElementChild
  }

  /** An element is empty exactly when its text is all white space (in
      JavaScript's sense) and it has no element child. */
  lemma IsNodeEmptyIff(c: Content)
    ensures IsNodeEmpty(c) <==> AllSpace(c.text) && !c.hasElementChild
  {
    TrimEmptyIff(c.text);
  }

  // ---- the regular expression /<!doctype\s+html[\s>]/i ----

  predicate SpaceRun(s: string, from: int, to: int) {
    0 <= from <= to <= |s| && forall k :: from <= k < to ==> IsSpace(s[k])
  }

  /** The match the regular expression describes: "<!doctype" at `i`, in
      any case, one or more white-space characters up to `j`, "html" at `j`
      in any case, then a white-space character or '>'. */
  ghost predicate DoctypeMatch(s: string, i: int, j: int) {
    && OccursAtIgnoringCase(s, "<!doctype", i)
    && i + 9 < j && SpaceRun(s, i + 9, j)
    && OccursAtIgnoringCase(s, "html", j)
    && j + 4 < |s| && (IsSpace(s[j + 4]) || s[j + 4] == '>')
  }

  /** The end of the run of white space that starts at `k`. */
  function SkipSpaces(s: string, k: nat): (r: nat)
    requires k <= |s|
    ensures k <= r <= |s| && SpaceRun(s, k, r) && (r == |s| || !IsSpace(s[r]))
    decreases |s| - k
  {
    if k < |s| && IsSpace(s[k]) then SkipSpaces(s, k + 1) else k
  }

  predicate DoctypeAt(s: string, i: nat) {
    OccursAtIgnoringCase(s, "<!doctype", i) &&
    var j := SkipSpaces(s, i + 9);
    j > i + 9 && OccursAtIgnoringCase(s, "html", j) && j + 4 < |s| && (IsSpace(s[j + 4]) || s[j + 4] == '>')
  }

  function HasDoctypeFrom(s: string, i: nat): bool
    decreases |s| - i
  {
    if i >= |s| then false else DoctypeAt(s, i) || HasDoctypeFrom(s, i + 1)
  }

  /** `data.match(/<!doctype\s+html[\s>]/i)` is non-null. */
  predicate IsFullDocument(data: string) {
    HasDoctypeFrom(data, 0)
  }

  lemma DoctypeAtIff(s: string, i: nat)
    ensures DoctypeAt(s, i) <==> exists j :: DoctypeMatch(s, i, j)
  {
    if DoctypeAt(s, i) {
      assert DoctypeMatch(s, i, SkipSpaces(s, i + 9));
    }
    if j :| DoctypeMatch(s, i, j) {
      assert LowerAscii(s[j + 0]) == "html"[0] == 'h';
      assert !IsSpace(s[j]);
      assert SkipSpaces(s, i + 9) == j;
    }
  }

  lemma {:induction false} HasDoctypeFromIff(s: string, i: nat)
    ensures HasDoctypeFrom(s, i) <==> exists k :: i <= k < |s| && DoctypeAt(s, k)
    decreases |s| - i
  {
    if i < |s| {
      HasDoctypeFromIff(s, i + 1);
    }
  }

  /** The scanner agrees with the regular expression: a body counts as a
      full document exactly when the pattern matches somewhere in it. */
  lemma IsFullDocumentIff(data: string)
    ensures IsFullDocument(data) <==> exists i, j :: DoctypeMatch(data, i, j)
  {
    HasDoctypeFromIff(data, 0);
    if IsFullDocument(data) {
      var k :| 0 <= k < |data| && DoctypeAt(data, k);
      DoctypeAtIff(data, k);
    }
    if i, j :| DoctypeMatch(data, i, j) {
      DoctypeAtIff(data, i);
      assert 0 <= i < |data| && DoctypeAt(data, i);
    }
  }

  /** `data.indexOf("<sco-pe") !== -1`: the test is case-sensitive. */
  predicate ContainsScope(data: string) {
    IndexOf(data, "<sco-pe") != -1
  }

  /** The merge strategy a body selects. Full documents and bodies with
      embedded scopes both take the parse-and-replace path. */
  datatype Classification = FullDocument | MultiScopePartial | SelfPartial

  function Classify(data: string): (c: Classification)
    ensures c == FullDocument <==> exists i, j :: DoctypeMatch(data, i, j)
    ensures c == MultiScopePartial <==>
              (!exists i, j :: DoctypeMatch(data, i, j)) && exists i :: OccursAt(data, "<sco-pe", i)
    ensures c == SelfPartial <==>
              (!exists i, j :: DoctypeMatch(data, i, j)) && !exists i :: OccursAt(data, "<sco-pe", i)
  {
    IsFullDocumentIff(data);
    if IsFullDocument(data) then FullDocument
    else if ContainsScope(data) then MultiScopePartial
    else SelfPartial
  }

  /** The doctype test ignores case: "<!DOCTYPE html>" starts a full document. */
  lemma UpperCaseDoctype(rest: string)
    ensures Classify("<!DOCTYPE html>" + rest) == FullDocument
  {
    var s := "<!DOCTYPE html>" + rest;
    assert OccursAtIgnoringCase(s, "<!doctype", 0);
    assert SpaceRun(s, 9, 10);
    assert OccursAtIgnoringCase(s, "html", 10);
    assert DoctypeMatch(s, 0, 10);
  }
}
