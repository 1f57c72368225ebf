# sco-pe: a verified model of the `<sco-pe>` element

`<sco-pe>` is a custom element (src/Scope.js) that turns links, buttons and forms
inside it into partial page loads. A click, a submit or another watched event on a
trigger inside a scope runs through a filter. The element then builds a request:
its URL, method, body and history decision. Or it hands the load to another
scope. The response is merged back into the page. A full HTML document, or a body
that contains `sco-pe` elements, is parsed: the title is updated, head assets are
de-duplicated and matching scopes are replaced by id. Any other body becomes the
scope's own content. Abort controllers make sure that a new load supersedes the
previous one of the same kind.

The Dafny project models this core in eight modules:

- `Text`: the JavaScript string built-ins the component relies on. These are
  `trim` and its white-space set, `split(",")` (proved inverse to `Join`),
  `indexOf`, and ASCII case folding.
- `Hash`: `simpleHash`, modelled in JavaScript's signed 32-bit arithmetic over
  UTF-16 code units. It is proved equal to the unsigned fold
  `h := (31·h + unit) mod 2^32`, and its base-36 printer is proved injective.
- `Attributes`: `getEvents`, `getAction`, `parseBool`, `getHistory`, `getAnchor`
  and `isAnchorURL`, all on an abstract element record.
- `Markup`: `isNodeEmpty` and the response classification. The doctype test
  `/<!doctype\s+html[\s>]/i` is written as an explicit scanner and proved equal
  to the match the pattern describes.
- `Interception`: the `handleEvent` filter as a decision function, the
  confirmation gate, and `debounce` as a one-slot class.
- `Resolver`: the URL, value, method, history and target decision of `load()`,
  including `URLSearchParams.set`.
- `Document`: the live document's scripts, styles and links, its title and its
  elements by id. It holds the insert-if-absent and replace rules of
  `_loadScript`, `_loadStyle` and `processScriptsAndStyles`, and the
  replacement of scopes by id. Each rule is stated as a function on values and
  performed in place by the methods of class `Page`.
- `Lifecycle`: the abort controllers (the module-level one and each scope's own),
  `processHeaders`, `processResponse`, `loadURL`, `loadContent`,
  `listenToEvents`, `disconnectedCallback`, `attributeChangedCallback`, and the
  entry points that start loads. These are the classes `Host` and `Scope`.

JavaScript's `await` is modelled by splitting a method at each suspension
point. For `loadURL` these are `BeginLoadURL` (up to `fetch`), `OnResponse`
(headers) and `OnBody` (the response text). For `loadContent` they are
`BeginLoadContent` and `FinishLoadContent`. An aborted signal makes the later
halves do nothing, as the rejected `fetch` or `text()` promise does.

Where the component's documented behaviour and its code differ, the model
follows the code:

- The reload header (src/Scope.js:398-403) does not end `processHeaders`. The js
  and css headers are still handled after it, and `loadURL` still processes the
  body.
- Delegating to a target id that no element has makes `getElementById` return
  null, and `setAttribute` then throws (src/Scope.js:328). The model returns
  `TargetMissing` and changes nothing.
- `el.value !== "undefined"` (src/Scope.js:316) compares with the string
  "undefined". So `data-scope-value` is read only when the `value` property is
  that very string. On a link, whose `value` is undefined, the attribute has no
  effect (`Resolver.ScopeValueAttributeIgnored`).
- `getHistory` consults the scope's `data-history`, not its
  `data-scope-history` (src/Scope.js:106).
- `afterLoad` can run twice for one `loadContent`: once inside
  `processResponse` on the self path (src/Scope.js:567) and once at the end of
  `loadContent` (src/Scope.js:581).

## Model

| member | source | states |
|---|---|---|
| Text.TrimEmptyIff | src/Scope.js:126 | `textContent.trim() === ""` holds exactly when every character is JavaScript white space |
| Text.Split | src/Scope.js:57-58 | `split(",")` yields at least one piece and no piece contains a comma |
| Text.JoinSplit | src/Scope.js:58 | joining the pieces of `split(",")` with commas gives back the original string |
| Text.SplitJoin | src/Scope.js:407-416 | splitting comma-joined, comma-free pieces gives back exactly those pieces |
| Text.FirstIndex | src/Scope.js:153 | the index of the first occurrence of a character, or -1 exactly when it does not occur |
| Text.IndexOf | src/Scope.js:530 | `indexOf` returns the first position where the pattern occurs, or -1 exactly when it occurs nowhere |
| Hash.HashCode | src/Scope.js:171-179 | the fold of `h := (31·h + unit) mod 2^32` from 0 over the code units stays below 2^32 |
| Hash.ToInt32 | src/Scope.js:175-176 | ECMAScript ToInt32 lands in the signed 32-bit range and agrees with its argument modulo 2^32 |
| Hash.JsStepAgrees | src/Scope.js:175-176 | one step `hash = (hash << 5) - hash + char; hash &= hash` stays a signed 32-bit integer and equals `31·hash + char` modulo 2^32 |
| Hash.Base36 | src/Scope.js:178 | `toString(36)` yields one or more lower-case base-36 digits without a leading zero |
| Hash.Base36RoundTrip | src/Scope.js:178 | reading the base-36 numeral back gives the number printed |
| Hash.Base36Injective | src/Scope.js:178 | two numbers print alike exactly when they are equal |
| Hash.SimpleHash | src/Scope.js:171-179 | the loop in signed 32-bit arithmetic returns the base-36 rendering of the unsigned fold over the UTF-16 code units |
| Hash.HashString | src/Scope.js:171-179 | defines the hash as the base-36 numeral of the unsigned fold over the UTF-16 code units; its shape is stated by `Hash.HashShape` |
| Hash.HashOfEmpty | src/Scope.js:171-179 | the hash of the empty string is "0" |
| Hash.HashShape | src/Scope.js:171-179 | every hash has one to seven base-36 digits and denotes the unsigned 32-bit fold value |
| Attributes.ParseBoolOnStrings | src/Scope.js:93-95 | on strings, only "1" and "true" are true; undefined, "TRUE", " true" and 2 are not |
| Attributes.ParseBool | src/Scope.js:93-95 | membership in ["1", "true", true, 1]; on strings stated by `Attributes.ParseBoolOnStrings` |
| Attributes.GetEvents | src/Scope.js:53-59 | a form watches only "submit"; otherwise `data-scope-on` split on commas, or "click" when it is missing or empty |
| Attributes.GetEventsKeepsSpaces | src/Scope.js:57-58 | pieces are not trimmed: "a, b" gives "a" and " b" |
| Attributes.GetAction | src/Scope.js:65-71 | `action`, else `data-scope-action`, else `href`, where an empty value falls through |
| Attributes.GetActionFirstNonEmpty | src/Scope.js:65-71 | the action is non-empty exactly when one of the three attributes is, and it is then one of them |
| Attributes.GetHistoryRules | src/Scope.js:102-110 | the trigger's `data-scope-history` wins, then the scope's `data-history`, else history is on; values are read through `parseBool` |
| Attributes.GetHistoryIgnoresScopeHistoryAttribute | src/Scope.js:106 | the scope's `data-scope-history` has no influence |
| Attributes.GetHistory | src/Scope.js:102-110 | the history decision, whose rules `Attributes.GetHistoryRules` states |
| Attributes.GetAnchor | src/Scope.js:149-157 | there is an anchor exactly when the URL contains '#', and it is the text after the first '#' |
| Attributes.IsAnchorURL | src/Scope.js:163-165 | an action is an anchor URL exactly when `getAnchor` finds a fragment |
| Markup.IsNodeEmptyIff | src/Scope.js:125-127 | an element is empty exactly when its text is all white space and it has no element child |
| Markup.IsNodeEmpty | src/Scope.js:125-127 | the emptiness test, characterised by `Markup.IsNodeEmptyIff` |
| Markup.SkipSpaces | src/Scope.js:527 | the `\s+` run ends at the first character that is not white space |
| Markup.IsFullDocumentIff | src/Scope.js:527 | the scanner reports a full document exactly when `/<!doctype\s+html[\s>]/i` matches somewhere |
| Markup.Classify | src/Scope.js:527-532 | parse-and-replace for a doctype match or for the case-sensitive substring "<sco-pe", else the self-partial path |
| Markup.UpperCaseDoctype | src/Scope.js:527 | "<!DOCTYPE html>" starts a full document: the test ignores case |
| Interception.HandleEvent | src/Scope.js:241-293 | an event is handled exactly when it is this scope's, the scope is not disabled, a trigger exists, the type is watched and the action is non-empty, internal and without '#'; clicks load at once, the rest debounced; confirm is set by `data-scope-confirm` |
| Interception.ForeignOrDisabledIgnored | src/Scope.js:243-250 | events of nested scopes and of disabled scopes are not prevented |
| Interception.AnchorActionsIgnored | src/Scope.js:267-271 | actions with a '#' and external actions are ignored |
| Interception.FormsHandleOnlySubmit | src/Scope.js:54-55 | a form trigger is handled for "submit" only, through the debounced path |
| Interception.DefaultTriggersHandleOnlyClick | src/Scope.js:277-281 | without `data-scope-on` a trigger is handled for "click" only, at once |
| Interception.Proceed | src/Scope.js:284-291 | a load runs exactly when the event is handled and there is no prompt or it was accepted |
| Interception.DeclinedConfirmationLoadsNothing | src/Scope.js:284-288 | a declined prompt starts no load although the default was prevented |
| Interception.Debouncer.Call | src/Scope.js:80-82 | each call replaces the pending arguments |
| Interception.Debouncer.Fire | src/Scope.js:82-85 | the timer runs the pending arguments once and clears them |
| Interception.Burst | src/Scope.js:78-87 | any number of calls in one window run only the last arguments, once; no call runs nothing |
| Resolver.SetParam | src/Scope.js:318 | `URLSearchParams.set`: afterwards exactly one `value` pair, holding the value, with all other pairs unchanged and in order; the new pair takes the place of the first existing one, and is appended when there was none |
| Resolver.ElValue | src/Scope.js:316 | the trigger's value: its `value` property, or `data-scope-value` when the property is the string "undefined" |
| Resolver.RequestParams | src/Scope.js:314-318 | the page's query parameters, with `value` set when the trigger has one |
| Resolver.FullUrl | src/Scope.js:308-319 | the URL itself without a value, else the URL followed by '?' and the parameters |
| Resolver.TargetOf | src/Scope.js:325 | the trigger's non-empty `data-scope-target`, else the scope's `data-target` |
| Resolver.MethodOf | src/Scope.js:346 | the method is never empty, and anything but "GET" is the trigger's `data-scope-method` |
| Resolver.ResolveLoad | src/Scope.js:304-355 | delegation exactly when the target is set and not "_self", with the full URL; otherwise history is pushed exactly for links with history on, a scope id and no value; GET uses the full URL; the body is the parameters only for POST |
| Resolver.ValueIsSentOnce | src/Scope.js:316-321 | a trigger value is sent as the single `value` parameter, never pushes history, and a GET carries it in the URL |
| Resolver.ScopeValueAttributeIgnored | src/Scope.js:316 | `data-scope-value` changes nothing unless the `value` property is the string "undefined" |
| Resolver.TargetedLoadIgnoresMethodAndHistory | src/Scope.js:323-330 | a targeted load is decided before the method and the history flag are read: whatever `data-scope-method` and `data-scope-history` say, the plan is the same delegation |
| Document.FirstMatch | src/Scope.js:439-451 | `querySelector` gives the first element in document order that matches, or none when nothing matches |
| Document.FoundIffCounted | src/Scope.js:439-442 | a selector finds an element exactly when it matches at least one |
| Document.LoadScriptInsertIfAbsent | src/Scope.js:435-448 | a present `script[src]` leaves the document unchanged; an absent one is appended to the head once; a repeat changes nothing |
| Document.LoadStyleInsertIfAbsent | src/Scope.js:450-460 | the same rule for `link[href]` |
| Document.LoadScriptSpec | src/Scope.js:435-448 | `_loadScript` on the live assets, characterised by `Document.LoadScriptInsertIfAbsent` |
| Document.LoadStyleSpec | src/Scope.js:450-460 | `_loadStyle` on the live assets, characterised by `Document.LoadStyleInsertIfAbsent` |
| Document.TagSeq | src/Scope.js:464-470 | every element is replaced by its tagged form, in place |
| Document.TagAllSpec | src/Scope.js:464-470 | untagged inline scripts and id-less styles get the id `<tag>-<simpleHash(innerHTML)>`; everything else is kept; nothing is left to tag |
| Document.TagAllIdempotent | src/Scope.js:464-470 | tagging twice is tagging once |
| Document.ExplicitIdScriptSkipped | src/Scope.js:479-485 | an inline script whose own id is live is skipped |
| Document.InlineScriptInstalled | src/Scope.js:476-495 | any other inline script is inserted and runs: with no script carrying its id it is appended to the head, otherwise it replaces the first such script in place; the count of that id becomes max(1, before) |
| Document.RepeatedInlineScriptRunsAgain | src/Scope.js:464-495 | an id-less script with the same content as a live untagged one replaces, in place, the first script with the shared content id (the tagged copy or an earlier one), and runs again without growing the document |
| Document.InlineStyleInsertIfAbsent | src/Scope.js:501-515 | an inline style whose id is live is never replaced, whatever its content; otherwise exactly one is appended |
| Document.MergeScriptSpec | src/Scope.js:476-497 | one turn of the script loop, characterised by `Document.ExplicitIdScriptSkipped` and `Document.InlineScriptInstalled` |
| Document.MergeStyleSpec | src/Scope.js:502-518 | one turn of the style loop, characterised by `Document.InlineStyleInsertIfAbsent` |
| Document.ProcessScriptsAndStylesSpec | src/Scope.js:462-520 | tagging, then the script loop, then the style loop; see `Document.ProcessScriptsAndStylesGrows` |
| Document.ProcessScriptsAndStylesGrows | src/Scope.js:462-520 | the number of assets never drops, since a replaced script is swapped one for one, and the log of inserted elements is only extended |
| Document.ReplaceOne | src/Scope.js:545-563 | a replacement keeps the key set of the flat id map (ids nested in the replaced scope are not tracked) |
| Document.ReplaceAll | src/Scope.js:544-563 | the replacement loop keeps the set of live ids |
| Document.ReplaceAllUntouched | src/Scope.js:546-559 | an id no eligible fragment names keeps its element |
| Document.ReplaceAllLastWins | src/Scope.js:544-563 | otherwise the element is the last fragment with that id that has a non-empty id, is not empty and finds a live element; skipped fragments do not stop it |
| Document.Page.LoadScript | src/Scope.js:435-448 | performs `_loadScript` in place |
| Document.Page.LoadStyle | src/Scope.js:450-460 | performs `_loadStyle` in place |
| Document.Page.LoadScripts | src/Scope.js:404-411 | loads every script of the js header list in order, as `LoadScriptsSpec` folds `_loadScript` |
| Document.Page.LoadStyles | src/Scope.js:412-419 | loads every style sheet of the css header list in order, as `LoadStylesSpec` folds `_loadStyle` |
| Document.Page.TagInlineAssets | src/Scope.js:464-470 | tags the live head and body in place, as `TagAll` describes |
| Document.Page.ProcessHead | src/Scope.js:425-433 | a parsed `title` element sets the title, even to the empty string |
| Document.Page.MergeScript | src/Scope.js:473-499 | one turn of the script loop, hashing the content, in place |
| Document.Page.MergeStyle | src/Scope.js:501-519 | one turn of the style loop, in place |
| Document.Page.MergeScripts | src/Scope.js:473-499 | merges every incoming script in document order, skipping the other assets |
| Document.Page.MergeStyles | src/Scope.js:501-519 | merges every incoming style and style-sheet link in document order |
| Document.Page.ProcessScriptsAndStyles | src/Scope.js:462-520 | tags, then merges all scripts, then all styles and style-sheet links, in document order |
| Document.Page.ReplaceScopes | src/Scope.js:544-563 | the loop leaves the live elements as `ReplaceAll` describes |
| Document.Page.MergeDocument | src/Scope.js:535-563 | title, then assets, then scopes |
| Document.TagSequence | src/Scope.js:464-470 | the hashing loop tags exactly as `TagSeq` describes |
| Lifecycle.AtMostOneLive | src/Scope.js:361-369 | of all the controllers of one kind, only the current one can be un-aborted |
| Lifecycle.HeaderIgnoresCase | src/Scope.js:387-414 | header names are looked up regardless of ASCII case |
| Lifecycle.Header | src/Scope.js:386-389 | a header read: nothing when the configured name is empty or the header absent, found regardless of ASCII case (`Lifecycle.HeaderIgnoresCase`) |
| Lifecycle.HeaderEffects | src/Scope.js:386-403 | the status handler runs exactly for a non-empty status header, with its value and the response code, and the reload exactly for a non-empty reload header, status first; there is no other effect |
| Lifecycle.HeaderIncludesPresent | src/Scope.js:404-419 | after the headers, every listed script and style sheet is in the document |
| Lifecycle.IncludeList | src/Scope.js:404-419 | a non-empty header gives a non-empty list of comma-free pieces that join back to its value; otherwise the list is empty |
| Lifecycle.OverrideEventsCover | src/Scope.js:601-608 | every `data-scope-on` descendant contributes all its events |
| Lifecycle.OverrideEvents | src/Scope.js:601-608 | the descendants' events concatenated in document order, covered by `Lifecycle.OverrideEventsCover` |
| Lifecycle.OverrideEventList | src/Scope.js:601-608 | the concatenation loop computes `OverrideEvents` |
| Lifecycle.AddListeners | src/Scope.js:610-612 | listeners are added for exactly the events listed |
| Lifecycle.Host.SupersedeGlobal | src/Scope.js:364-368 | the previous global controller is aborted and a fresh live one installed |
| Lifecycle.Host.Emit | src/Scope.js:388-401 | an outside effect (status handler, reload, history, hook) is appended to the log, the controllers untouched |
| Lifecycle.Host.ProcessHeaders | src/Scope.js:385-420 | status, title, reload, js, css in that order; a reload does not stop the includes |
| Lifecycle.Scope.OwnIsNotGlobal | src/Scope.js:571-576 | a scope's own controller is never the module-level one, so aborting one kind leaves the other alone |
| Lifecycle.Scope.AbortLoading | src/Scope.js:295-299 | afterwards every controller the scope ever held is aborted, and the global controller's state is untouched |
| Lifecycle.Scope.ListenToEvents | src/Scope.js:599-613 | events only grow, by the descendants' events; listeners are exactly the events listed |
| Lifecycle.Scope.AfterLoad | src/Scope.js:584-597 | the descendants' events are appended and listened to, then the `onLoad` hook runs; content, controllers and the document are kept |
| Lifecycle.Scope.Disconnected | src/Scope.js:669-673 | no listener is left; the events, the content, the attributes and the controllers are kept |
| Lifecycle.Scope.BeginLoadURL | src/Scope.js:361-376 | without a signal the request takes a fresh global controller and the old one is aborted; with one, the global is untouched |
| Lifecycle.Scope.OnResponse | src/Scope.js:376-377 | an aborted request changes neither the effects nor the document nor the global controller; otherwise the headers set the effects, the title and the assets |
| Lifecycle.Scope.ProcessResponse | src/Scope.js:525-569 | a full document or a body with scopes sets the title, merges the assets and replaces scopes by id, leaving this scope's own state and the effects alone; any other body becomes the content and `afterLoad` runs, leaving the document alone |
| Lifecycle.Scope.OnBody | src/Scope.js:378-379 | an aborted request changes nothing at all; otherwise the body is processed as `processResponse` does |
| Lifecycle.Scope.BeginLoadContent | src/Scope.js:571-582 | a GET of `src` goes out under a fresh own controller, the previous one aborted, exactly when `src` is non-empty and not both `check` holds and the content is not empty; otherwise `afterLoad` runs at once; the global controller, its abort state included, and the document are kept |
| Lifecycle.Scope.FinishLoadContent | src/Scope.js:577-581 | `afterLoad` runs, with its listeners and `onLoad` hook, when the load completed, and nothing changes otherwise; the global controller and the document are kept |
| Lifecycle.Scope.ConnectedTask | src/Scope.js:661-666 | the outcome of `loadContent(true)`: server-rendered content is kept and `afterLoad` runs, an empty scope with a `src` requests it under a fresh own controller; the global request is never aborted; the scope is then initialised |
| Lifecycle.Scope.SetAttribute | src/Scope.js:637-654 | the attribute is set; a `src` change on an initialised scope is the outcome of `loadContent()` with the new value, so an empty one runs `afterLoad` and a request aborts the previous own controller; anything else changes nothing more, and neither controller is aborted |
| Lifecycle.Scope.Load | src/Scope.js:304-355 | performs the resolved plan: set the target's `src`, fail on a missing target changing nothing, or push history and fetch under a fresh global controller; a delegation leaves the global request live, and the scope's own request, the title and the assets are always kept |
| Lifecycle.Scope.HandleEventOn | src/Scope.js:241-293 | ignored and declined events change nothing, neither controller aborted; clicks perform `load` for the trigger at once; other events become the pending call of the debounced loader and change nothing else |
| Lifecycle.Scope.DebounceFired | src/Scope.js:229-231 | the timer performs `load` for the last pending trigger once; with none pending nothing changes, neither controller aborted |

## Left out

- Transport: `fetch`, `Response`, `response.text()` and network failures are not modelled. The caller supplies the status, the headers and the body, and says whether the awaited step completed.
- Parsing: `DOMParser` (src/Scope.js:116-119) and the `innerHTML` setter are function parameters (`parse`, `parseFragment`) that return abstract records: title, assets, scopes and content.
- URL machinery: `new URL(...)`, `document.baseURI` and the origin comparison (src/Scope.js:133-143, 307) are the parameters `resolve` and `isExternal`.
- Attributes.IsAnchorURL: tests the '#' on the action text rather than on the expanded URL. The two agree because URL resolution keeps a fragment exactly when the text has one.
- Resolver.Serialize: does not percent-encode names and values as `URLSearchParams.toString()` does.
- History: `history.pushState` and the `popstate` listener (src/Scope.js:191-208) appear only as a `PushState` effect.
- Timers: the `setTimeout` of `connectedCallback` and the debounce delay are not modelled. Only the debouncer's last-call-wins slot is kept, and the caller decides when the timer fires.
- Lifecycle.Scope.HandleEventOn: takes the prompt's answer as an argument and applies it at once. The promise-based `confirmHandler` resolves later.
- UI callbacks: `alert` (the default status handler) and `onLoad` are recorded as effects. `configure` (src/Scope.js:237-239) becomes the `Config` argument, with the defaults of src/Scope.js:20-42.
- CSS classes: the `active` class on links and the `scope-loading`/`scope-loaded` classes (src/Scope.js:340-345, 587-596, 657) are not modelled. The plan only carries `markActive`.
- `fetchSelf` (src/Scope.js:620-631) is unused and not modelled. `log` (src/Scope.js:184-188) only writes to the console.
- Selectors are modelled as exact attribute matches. Ids or URLs containing quotes, which would break the selectors the code builds, are not considered.
- Lifecycle.Header: keeps one value per header name. `Headers.get` joins repeated headers with ", ".
- The element map: the page's elements by id form a flat map. Nested ids inside a replaced subtree, and scripts that arrive inside replaced scopes, are not tracked. The callbacks of replaced scope instances (a disconnect for the old one, a connect and load for the new one) are not simulated, and neither is the reaction of a delegated target to its new `src`, which the model records as a `SrcSet` effect. A scope's own content is not linked to its entry in the page's map.
- Lifecycle.Scope.ProcessResponse: on the self-partial path the fragment's scripts, styles and links do not join the page's live assets. In the browser they become part of the document and later merges and tagging would see them.
- Strings: a Dafny string is a sequence of Unicode scalar values. It cannot hold the lone surrogates a JavaScript string can, which matters for `Hash.Utf16`, and `Text.IndexOf` counts code points, not UTF-16 units.
- Active links: `afterLoad`'s comparison of each link with `document.location` (src/Scope.js:587-592) is UI and left out, like the classes above.
