# SvelteKit client router, modelled in Dafny

This project models the client-side navigation controller of SvelteKit, the
`Router` class of `packages/kit/src/runtime/client/router.js`, and proves
properties of that model.

The router decides whether a URL belongs to the app (`owns`) and resolves it
to the matching routes (`parse`). It rewrites the pathname under the app's
trailing-slash policy and keeps a counter of in-flight navigations that
drives the `sveltekit:navigation-start` and `sveltekit:navigation-end`
window events. It keeps the browser history and its per-entry state bag in
step with what the renderer shows. Its click, popstate, scroll, mousemove
and touchstart listeners decide when to take over from the browser.

Layout, one module per file:

- `strings.dfy` (`Strings`): the JavaScript string operations the router
  relies on: `startsWith`, `endsWith`, `split('/').pop()`, `split('#')[0]`
  and `split(/\s+/)` with `includes`.
- `sequences.dfy` (`Sequences`): counting the occurrences of an element,
  shared by the counter and the route filter.
- `urls.dfy` (`Urls`): the parts of a `URL` the router reads, and `href`.
- `trailing.dfy` (`TrailingSlash`): the pathname rewrite under `never`,
  `always` and `ignore`.
- `matcher.dfy` (`Matcher`): `owns` and `parse`. The router's configuration
  carries `decodeURI` and `pattern.test` as function values.
- `counter.dfy` (`Counter`): the `navigating` counter and its events as a
  pure state machine over the two halves of `_navigate`.
- `history.dfy` (`History`): the browser's session history as a class with
  a list of entries and an index; the state bag and its scroll record.
- `listeners.dfy` (`Listeners`): the click listener's chain of early returns
  as a decision function returning one of four actions.
- `router.dfy` (`ClientRouter`): the `Router` class. It holds the counter,
  the `enabled` flag, the event log, the renderer call log, the pending
  deferred pushes, the two timer slots, and the history it shares with the
  browser.

`_navigate` is split at its `await` into `BeginNavigate` (parse, counter
increment, trailing-slash rewrite, history replacement, renderer call) and
`FinishNavigate` (counter decrement). A redirect raised while rendering runs
a whole navigation between the two halves of another one.

Three consequences of the code as written:

- There is no `try`/`finally` around the renderer's await (router.js lines
  283-288), so a navigation whose renderer call rejects leaves the counter
  raised for good, and no end event is dispatched after it.
  `Counter.RejectedNavigationWedges` states this.
- `info.path` is decoded from the pathname before the trailing-slash
  rewrite, and only `info.url` is replaced afterwards. Under `always`, with
  base `/app`, `/app/posts/5` is written back as `/app/posts/5/` while
  `info.path` stays `/posts/5` (`ClientRouter.AlwaysExample`).
- `never` removes a single `/` per call, so a path ending in `//` changes
  again on a second call. `TrailingSlash.NeverIdempotentIff` gives the exact
  condition under which a second call is a no-op.

A URL keeps its query and fragment as optional parts, because the router
reads them in two ways. The `search` and `hash` getters (lines 142, 171, 197,
221 and 280) return the empty string both for a missing part and for an empty
one (`/page?`, `/page#`). `href` (lines 140-141, 161) keeps a bare `?` or `#`.
So a link `<a href="#">` on `/page` is a different href from the location,
and it gets a deferred push (`Listeners.BareFragmentLinkDefers`).

## Model

| member | source | states |
|---|---|---|
| Strings.LastSegment | packages/kit/src/runtime/client/router.js:276 | the result is a suffix of the path holding no `/`, and is the whole path or preceded by a `/` |
| Strings.BeforeHash | packages/kit/src/runtime/client/router.js:161 | the result is a prefix holding no `#`, and is the whole string or followed by a `#` |
| Strings.BeforeHashAppend | packages/kit/src/runtime/client/router.js:161 | cutting at the first `#` skips a front part that holds none |
| Strings.SplitWhitespace | packages/kit/src/runtime/client/router.js:149 | splitting yields at least one part, and no part holds whitespace |
| Strings.HasTokenIff | packages/kit/src/runtime/client/router.js:149-151 | the split `rel` includes a token exactly when the token occurs in `rel` delimited by whitespace or the string ends |
| Urls.GettersIff | packages/kit/src/runtime/client/router.js:142 | the `search` and `hash` getters are empty exactly for a missing or empty part, and otherwise hold the part behind its marker as `href` shows it |
| Urls.HrefWithoutHashParts | packages/kit/src/runtime/client/router.js:161 | for a parsed URL, the href before `#` is origin, path and query (a bare `?` kept), and the href is that plus the fragment with its `#` |
| Urls.SameDocumentDiffersInHash | packages/kit/src/runtime/client/router.js:160-166 | two URLs whose hrefs differ but agree before `#` differ in their fragment |
| Urls.FromParts | packages/kit/src/runtime/client/router.js:280 | parsing origin, path and two getter values gives a URL with that origin and path whose getters return the same values |
| Urls.FromPartsHref | packages/kit/src/runtime/client/router.js:280 | the href of that URL is the concatenated string, so an empty getter leaves no marker behind |
| Urls.BareFragmentDiffersInHrefOnly | packages/kit/src/runtime/client/router.js:141-142 | a URL with an empty fragment has the same getters as the one without, but its href ends in an extra `#` |
| TrailingSlash.Normalize | packages/kit/src/runtime/client/router.js:271-278 | the rewrite removes or appends at most one `/`, and `ignore` leaves the path alone |
| TrailingSlash.NormalizeFixedPoints | packages/kit/src/runtime/client/router.js:273-277 | the rewrite leaves a path unchanged exactly when it already has the shape its policy asks for |
| TrailingSlash.NeverStripsOneSlash | packages/kit/src/runtime/client/router.js:273-274 | `never` removes exactly one trailing `/` unless the path is `/`, and otherwise changes nothing |
| TrailingSlash.NeverLeavesSlashOnlyFromDouble | packages/kit/src/runtime/client/router.js:274 | after `never` a trailing `/` remains only on `/` or when the input ended in `//` |
| TrailingSlash.NeverIdempotentIff | packages/kit/src/runtime/client/router.js:273-274 | a second `never` rewrite is a no-op exactly when the path is not three or more characters ending in `//` |
| TrailingSlash.NeverNotIdempotentOnDoubleSlash | packages/kit/src/runtime/client/router.js:274 | `/a//` becomes `/a/` and then `/a` |
| TrailingSlash.AlwaysAppendsSlash | packages/kit/src/runtime/client/router.js:275-277 | under `always` a path whose last segment has no `.` ends in `/` afterwards, a file path is unchanged, and the input is kept as a prefix |
| TrailingSlash.AlwaysIdempotent | packages/kit/src/runtime/client/router.js:275-277 | a second `always` rewrite is a no-op |
| Matcher.OwnsIff | packages/kit/src/runtime/client/router.js:184-186 | a URL is owned exactly when its origin is the app's and its pathname is the base followed by anything |
| Matcher.OwnsIgnoresSegmentBoundary | packages/kit/src/runtime/client/router.js:185 | with base `/app`, `/application` is owned |
| Matcher.RawPath | packages/kit/src/runtime/client/router.js:194 | the raw path is non-empty, and is the remainder after the base or `/` when the remainder is empty |
| Matcher.Matching | packages/kit/src/runtime/client/router.js:198 | the filtered routes are no more than the table and every one accepts the path |
| Matcher.MatchingIsSubsequence | packages/kit/src/runtime/client/router.js:198 | the filtered routes keep the table's order |
| Matcher.MatchingMembers | packages/kit/src/runtime/client/router.js:198 | a route is kept exactly when it is in the table and its pattern accepts the path |
| Matcher.MatchingCounts | packages/kit/src/runtime/client/router.js:198 | every copy of an accepted route is kept and no copy of a rejected one, so the filter is determined even when the table repeats a route |
| Matcher.Parse | packages/kit/src/runtime/client/router.js:192-203 | parsing fails as not owned exactly when `owns` is false, fails to decode exactly when `decodeURI` fails on the raw path, and otherwise gives `id = pathname + search` (the getter), the URL as given, the decoded path and the matching routes |
| Matcher.IdDropsBareQuery | packages/kit/src/runtime/client/router.js:197 | `/p?` and `/p` get the same `id`, since the `search` getter drops a bare `?` |
| Counter.RunDepth | packages/kit/src/runtime/client/router.js:266-288 | after any run the counter is its start value plus begins minus finishes |
| Counter.RunAlternates | packages/kit/src/runtime/client/router.js:266-288 | events alternate, opening with a start from an idle router and an end from a busy one, and the last is a start exactly when the counter ends non-zero |
| Counter.BalancedCountsEqual | packages/kit/src/runtime/client/router.js:266-288 | when begins and finishes pair up, the counter returns to its start value and start and end events are equally many |
| Counter.BalancedFromIdle | packages/kit/src/runtime/client/router.js:266-288 | from an idle router a balanced run ends idle, with alternating events opening with a start and equally many of each |
| Counter.RunAboveSilent | packages/kit/src/runtime/client/router.js:266-288 | a run from one more than before ends one higher and dispatches nothing |
| Counter.RejectedNavigationWedges | packages/kit/src/runtime/client/router.js:283-288 | after a navigation whose renderer call rejects, any balanced activity leaves the counter at one and no end event is ever dispatched |
| Counter.StepKeepsConsistent | packages/kit/src/runtime/client/router.js:266-288 | each half of `_navigate` keeps the event log alternating, with a start last exactly while a navigation is outstanding |
| Counter.RunKeepsConsistent | packages/kit/src/runtime/client/router.js:266-288 | every feasible run keeps the event log consistent with the counter |
| History.WithScroll | packages/kit/src/runtime/client/router.js:88-91 | the merged state has the old keys plus the scroll key, holds the new position there, and keeps every other key's value |
| History.ScrollOf | packages/kit/src/runtime/client/router.js:178 | a scroll position is read exactly when the state holds a scroll record under the scroll key, and it is that record's position |
| History.ScrollRoundTrip | packages/kit/src/runtime/client/router.js:88-92 | a position written by the scroll listener is read back unchanged |
| History.BrowserHistory.PushState | packages/kit/src/runtime/client/router.js:168 | pushing drops the entries after the current one, appends the new entry and makes it current |
| History.BrowserHistory.ReplaceState | packages/kit/src/runtime/client/router.js:281 | replacing changes only the current entry and keeps the length and index |
| History.BrowserHistory.Traverse | packages/kit/src/runtime/client/router.js:175 | back/forward moves the index and keeps the entries |
| Listeners.DecideClick | packages/kit/src/runtime/client/router.js:125-173 | a click is passed through when not eligible; it is only prevented exactly when the link's href is the location's and the `hash` getter of the location is empty; it is a deferred push exactly when an owned, non-opting-out link differs only after `#`; otherwise it pushes and navigates exactly when the link is owned, does not opt out and leads to another document |
| Listeners.HashOnlyClickNeverNavigates | packages/kit/src/runtime/client/router.js:160-166 | a link differing from the location only in its fragment never starts a navigation |
| Listeners.BareFragmentLinkDefers | packages/kit/src/runtime/client/router.js:141-165 | a primary click on `<a href="#">` from a location without a fragment queues a deferred push of that href and does not prevent the default |
| Listeners.BareFragmentLocationPrevents | packages/kit/src/runtime/client/router.js:141-142 | a primary click on a link to the current href when the location ends in a bare `#` only prevents the default, since the `hash` getter is empty |
| Listeners.ExternalRelOptsOut | packages/kit/src/runtime/client/router.js:149-153 | `rel="nofollow external"` hands the link to the browser |
| Listeners.ExternallyIsNoToken | packages/kit/src/runtime/client/router.js:149-153 | `rel="externally"` does not, since only a whole token counts |
| ClientRouter.NormalizedUrl | packages/kit/src/runtime/client/router.js:271-280 | the rewritten URL keeps the origin and the `search` and `hash` getter values and carries the rewritten pathname |
| ClientRouter.NormalizedHref | packages/kit/src/runtime/client/router.js:280 | the href of the rewritten URL is origin, rewritten pathname, `search` and `hash` concatenated, so a bare `?` or `#` is dropped |
| ClientRouter.NormalizedUrlIdempotent | packages/kit/src/runtime/client/router.js:271-281 | navigating again to the URL written into the history writes the same URL, except under `never` on a path ending in `//` |
| ClientRouter.AlwaysExample | packages/kit/src/runtime/client/router.js:260-280 | with base `/app` and `always`, `/app/posts/5` resolves with path `/posts/5` while the history gets `/app/posts/5/` |
| ClientRouter.Router.constructor | packages/kit/src/runtime/client/router.js:40-58 | the router starts enabled and idle, and the current entry gets its state or `{}` with its URL and the history's length and index kept |
| ClientRouter.Router.Enable | packages/kit/src/runtime/client/router.js:230-232 | the router is enabled |
| ClientRouter.Router.Disable | packages/kit/src/runtime/client/router.js:234-236 | the router is disabled |
| ClientRouter.Router.BeginNavigate | packages/kit/src/runtime/client/router.js:259-283 | an unparsable URL fails with nothing changed; otherwise the counter and events advance as one begin, the current entry alone is replaced by the rewritten URL with state `{}`, and the renderer gets the parsed info with only its URL rewritten |
| ClientRouter.Router.FinishNavigate | packages/kit/src/runtime/client/router.js:285-288 | the counter and events advance as one finish, keeping the event log consistent with the counter |
| ClientRouter.Router.Prefetch | packages/kit/src/runtime/client/router.js:242-250 | prefetch fails exactly when parsing does and otherwise only calls the renderer's `load` with the parsed info |
| ClientRouter.Router.Goto | packages/kit/src/runtime/client/router.js:212-228 | `enabled`, the deferred pushes and both timers are kept; when disabled or not owned, the page is left through `location.href` with the history, counter, events and renderer calls unchanged; otherwise one entry is pushed after the current one, or the current one is replaced with every other entry kept, then a navigation runs whose history write discards the caller's state and whose renderer call gets the parsed info with only its URL rewritten, and a path that fails to decode leaves the caller's entry with the counter, events and renderer calls unchanged |
| ClientRouter.Router.PushAndNavigateTo | packages/kit/src/runtime/client/router.js:168-171 | one entry with state `{}` is pushed and `_navigate` runs with the URL's `hash` getter and `keepfocus` false; the counter, events, current entry and renderer calls follow the parse outcome, and the flags, timers and deferred pushes are kept |
| ClientRouter.Router.HandleClick | packages/kit/src/runtime/client/router.js:125-173 | the click listener carries out the decision: `preventDefault` exactly for the prevent and navigate outcomes, a deferred push queued exactly for a hash-only link, and for a navigation exactly one pushed entry followed by `_navigate` with `keepfocus` false, one begin of the counter and events, and the parsed info with its URL rewritten; `enabled`, `location.href` assignments and both timers are kept |
| ClientRouter.Router.RunPendingPush | packages/kit/src/runtime/client/router.js:164 | the deferred push of a hash-only click pushes its URL with state `{}` |
| ClientRouter.Router.HandlePopstate | packages/kit/src/runtime/client/router.js:175-180 | popstate navigates exactly when the new entry has a state and the router is enabled, pushing nothing; a navigation that resolves advances the counter and events by one begin, replaces the current entry by the rewritten location, and hands the renderer the location's parsed info with its URL rewritten, the stored scroll position and no hash; otherwise nothing changes |
| ClientRouter.Router.OnScroll | packages/kit/src/runtime/client/router.js:83-85 | a scroll arms the scroll timer |
| ClientRouter.Router.FireScrollTimer | packages/kit/src/runtime/client/router.js:85-94 | the timer merges the scroll position into the current entry's state, keeping its URL and the history's length and index |
| ClientRouter.Router.TriggerPrefetch | packages/kit/src/runtime/client/router.js:98-103 | a prefetch runs exactly for an anchor with an href and `sveltekit:prefetch`, and only the renderer's `load` is called |
| ClientRouter.Router.OnMouseMove | packages/kit/src/runtime/client/router.js:109-111 | a mouse move re-arms the hover timer for the anchor under the pointer |
| ClientRouter.Router.FireHoverTimer | packages/kit/src/runtime/client/router.js:111-122 | the hover timer runs the prefetch trigger for its anchor |
| ClientRouter.ClickToOtherPage | packages/kit/src/runtime/client/router.js:135-173 | a primary click on an owned, non-opting-out link to another document pushes and navigates |
| ClientRouter.ClickThrough | packages/kit/src/runtime/client/router.js:135-173 | such a click keeps the router enabled, keeps every entry up to the current one and moves one entry forward |
| ClientRouter.CaptureThenLeave | packages/kit/src/runtime/client/router.js:83-94 | a scroll captured on a fresh router's first entry stays in that entry's state after a click to another page |
| ClientRouter.ScrollRestoredOnBack | packages/kit/src/runtime/client/router.js:83-180 | a position captured on a page, then a click to another page and a step back, reaches the renderer unchanged |
| ClientRouter.NavigateThenRedirect | packages/kit/src/runtime/client/router.js:212-283 | a navigation and the `goto` redirect raised during it raise the counter by two and dispatch at most the one start event |
| ClientRouter.RedirectDispatchesOnce | packages/kit/src/runtime/client/router.js:259-289 | from an idle router, a navigation that redirects through `goto` and then both finish dispatch exactly one start and one end event and leave the router idle |

## Left out

- `packages/kit/src/runtime/client/utils.js` is not part of this model: `resolve_path` and `get_base_uri` resolve against the document's base URI. `goto` takes the resolved `Url` as a parameter.
- `scroll_state`, `find_anchor` and `get_href` (router.js lines 3-29) read the DOM. Their results are parameters: a scroll position, an abstract anchor record and its parsed `Url`.
- `Href` leaves out a URL's username and password, which the router never reads; two URLs differing only in them are the same `Url` here.
- A URL's `origin` is kept as one string; host parsing, default ports and percent-encoding by the URL parser are not modelled.
- `decodeURI` and each route's regular expression are foreign calls. They are function values in the configuration, and decoding failure is an error outcome.
- The renderer is an outside collaborator. Its calls are recorded in a log, and whether its promise settles is the caller's choice of calling `FinishNavigate`.
- Promise semantics are not modelled: `goto`'s never-settling promise is the `LeftApp` outcome, and a thrown error is a `Failed` result.
- Timer durations (200 ms, 20 ms, zero) are not modelled. Each timer is a slot armed by its listener and a method that fires it.
- The `sveltekit:trigger_prefetch` re-dispatch and `composedPath` are not modelled: the hover timer keeps the anchor its event would find.
- `scrollRestoration` toggling (router.js lines 61-76), the `tabindex` attribute and the renderer back-link `renderer.router = this` are browser or wiring side effects.
- The browser's own fragment navigation after a hash-only click is not modelled; only the deferred `pushState` is.
- `goto` pushes its unresolved `href`. The model pushes the resolved URL, which names the same location.
- `new URL(...)` on the rewritten string (line 280) is `Urls.FromParts`: the parts are taken as given, without re-parsing a `?` or `#` that a pathname might hold.
- History.ScrollOf: a value under the scroll key that is not a scroll record (data a caller of `goto` stored there) reads as no position.
- ClientRouter.Router.HandleClick: when navigation fails to decode, the rejected promise is not modelled; the contract states the pushed entry and the unchanged counter.
- `pageXOffset` and `pageYOffset` are JavaScript numbers and may be fractional; a `ScrollPosition` keeps them as integers. The router only stores and passes them on.
