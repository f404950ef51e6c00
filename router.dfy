/** The `Router` class of router.js: the navigation counter, the history
    bookkeeping around `_navigate` and `goto`, `prefetch`, `enable` and
    `disable`, and the effect of each listener `init_listeners` installs.
    The renderer is an outside collaborator: its calls are appended to a
    log, and the await inside `_navigate` splits it into `BeginNavigate`
    and `FinishNavigate`. */
module ClientRouter {
  import opened Strings
  import opened Urls
  import opened TrailingSlash
  import opened Matcher
  import opened Counter
  import opened History
  import opened Listeners

  /** A call the router makes on the renderer. */
  datatype RendererCall =
    | HandleNavigation(
        info: NavigationInfo,
        chain: seq<string>,
        initial: bool,
        hash: Option<string>,
        scroll: Option<ScrollPosition>,
        keepfocus: bool)
    | Load(info: NavigationInfo)

  /** What `goto` returns: a navigation that went through `_navigate`, or a
      full page load through `location.href`, whose promise never settles. */
  datatype GotoOutcome = Navigated(resolution: Resolution) | LeftApp(href: string)

  /** The single pending `mousemove` timeout and the anchor its event will
      find when it fires. */
  datatype HoverTimer = NoHover | HoverPending(anchor: Option<Anchor>)

  /** `new URL(url.origin + pathname + url.search + url.hash)`, where
      `pathname` is rewritten under the trailing-slash policy: the getters
      are concatenated, so an empty query or fragment loses its marker. */
  function NormalizedUrl(cfg: Config, url: Url): (r: Url)
    ensures r.origin == url.origin && r.pathname == Normalize(cfg.trailingSlash, url.pathname)
    ensures Search(r) == Search(url) && Hash(r) == Hash(url)
  {
    FromParts(url.origin, Normalize(cfg.trailingSlash, url.pathname), Search(url), Hash(url))
  }

  /** The href of the rewritten URL is the string line 280 hands to
      `new URL`. */
  lemma NormalizedHref(cfg: Config, url: Url)
    ensures Href(NormalizedUrl(cfg, url))
         == url.origin + Normalize(cfg.trailingSlash, url.pathname) + Search(url) + Hash(url)
  {
    FromPartsHref(url.origin, Normalize(cfg.trailingSlash, url.pathname), Search(url), Hash(url));
  }

  /** The fixed-up URL `_navigate` writes into the history is a fixed
      point: navigating to it again leaves the history URL as it is. */
  lemma {:induction false} NormalizedUrlIdempotent(cfg: Config, url: Url)
    requires cfg.trailingSlash != Never || !(|url.pathname| >= 3 && EndsWith(url.pathname, "//"))
    ensures NormalizedUrl(cfg, NormalizedUrl(cfg, url)) == NormalizedUrl(cfg, url)
  {
    match cfg.trailingSlash
    case Never => NeverIdempotentIff(url.pathname);
    case Always => AlwaysIdempotent(url.pathname);
    case Ignore =>
  }

  /** The example of an app mounted at `/app` with `trailing_slash:
      'always'`: `/app/posts/5` is written back as `/app/posts/5/`, while
      the path handed to the renderer is computed before that rewrite and
      stays `/posts/5`. */
  lemma AlwaysExample(cfg: Config, url: Url)
    requires cfg.base == "/app" && cfg.trailingSlash == Always
    requires cfg.decode("/posts/5") == Some("/posts/5")
    requires url == Url(cfg.origin, "/app/posts/5", None, None)
    ensures Parse(cfg, url).Resolved?
    ensures Parse(cfg, url).info.path == "/posts/5"
    ensures NormalizedUrl(cfg, url).pathname == "/app/posts/5/"
  {
    ExamplePathSplits(cfg.base, url.pathname);
    ExamplePathGetsSlash(url.pathname);
  }

  /** `/app/posts/5` lies under `/app`, with `/posts/5` after it. */
  lemma ExamplePathSplits(base: string, pathname: string)
    requires base == "/app" && pathname == "/app/posts/5"
    ensures StartsWith(pathname, base) && pathname[|base|..] == "/posts/5"
  {
    assert pathname[..4] == base;
  }

  /** `/app/posts/5` neither ends in `/` nor names a file. */
  lemma ExamplePathGetsSlash(pathname: string)
    requires pathname == "/app/posts/5"
    ensures Normalize(Always, pathname) == pathname + "/"
  {
    assert LastSegment(pathname) == "5" by {
      assert pathname[..|pathname| - 1] == "/app/posts/";
    }
    assert !NamesFile(pathname) && !EndsWith(pathname, "/");
  }

  class Router {
    const config: Config
    const history: BrowserHistory
    /** `this.navigating` */
    var navigating: nat
    /** `this.enabled` */
    var enabled: bool
    /** The `sveltekit:navigation-start`/`-end` events dispatched on `window`. */
    var signals: seq<Signal>
    /** Every call made on the renderer, in order. */
    var rendererCalls: seq<RendererCall>
    /** Hash-only clicks whose zero-delay `pushState` has not run yet. */
    var pendingPushes: seq<Url>
    /** Whether the 200 ms `scroll_timer` is pending. */
    var scrollTimerArmed: bool
    /** The 20 ms `mousemove_timeout`. */
    var hoverTimer: HoverTimer
    /** The href assigned to `location.href` by `goto`, if any. */
    var leftFor: Option<string>

    /** The history has a current entry, and the navigation events the
        window has seen agree with the counter. */
    ghost predicate Valid()
      reads this, history
    {
      history.Valid() && Consistent(navigating, signals)
    }

    /** `location`: the URL of the current history entry. */
    function Location(): Url
      reads this, history
      requires Valid()
    {
      history.Current().url
    }

    /** The constructor gives the current entry a state bag, keeping the
        one it has (`history.state || {}`). */
    constructor (config: Config, history: BrowserHistory)
      requires history.Valid()
      modifies history
      ensures Valid() && this.config == config && this.history == history
      ensures navigating == 0 && enabled
      ensures signals == [] && rendererCalls == [] && pendingPushes == []
      ensures !scrollTimerArmed && hoverTimer == NoHover && leftFor == None
      ensures history.index == old(history.index)
      ensures history.entries == old(history.entries)[old(history.index) :=
        Entry(old(history.Current().url), Some(StateOrEmpty(old(history.Current().state))))]
    {
      this.config := config;
      this.history := history;
      navigating := 0;
      enabled := true;
      signals := [];
      rendererCalls := [];
      pendingPushes := [];
      scrollTimerArmed := false;
      hoverTimer := NoHover;
      leftFor := None;
      new;
      var current := history.Current();
      history.ReplaceState(Entry(current.url, Some(StateOrEmpty(current.state))));
    }

    method Enable()
      modifies this`enabled
      ensures enabled
    {
      enabled := true;
    }

    method Disable()
      modifies this`enabled
      ensures !enabled
    {
      enabled := false;
    }

    /** `_navigate` up to the await of `renderer.handle_navigation`. It
        throws before touching anything when `parse` fails. Otherwise it
        dispatches the start event if the router was idle, increments the
        counter, replaces the current entry by the normalised URL with the
        state `{}` (the history keeps its length and index), and calls the
        renderer with `info`, whose `url` is the normalised URL but whose
        `path` was decoded from the URL as given. */
    method BeginNavigate(url: Url, scroll: Option<ScrollPosition>, keepfocus: bool, chain: seq<string>, hash: Option<string>)
      returns (r: Resolution)
      requires Valid()
      modifies this, history
      ensures Valid()
      ensures r.Failed? ==> r == Parse(config, url) && unchanged(this) && unchanged(history)
      ensures r.Resolved? ==>
        && Parse(config, url).Resolved?
        && r.info == Parse(config, url).info.(url := NormalizedUrl(config, url))
        && navigating == Next(old(navigating), Begin)
        && signals == old(signals) + Head(old(navigating), Begin)
        && history.index == old(history.index)
        && history.entries == old(history.entries)[old(history.index) := Entry(r.info.url, Some(map[]))]
        && rendererCalls == old(rendererCalls) + [HandleNavigation(r.info, chain, false, hash, scroll, keepfocus)]
        && enabled == old(enabled) && pendingPushes == old(pendingPushes) && leftFor == old(leftFor)
        && scrollTimerArmed == old(scrollTimerArmed) && hoverTimer == old(hoverTimer)
    {
      var parsed := Parse(config, url);
      if parsed.Failed? {
        return parsed;
      }
      var info := parsed.info.(url := NormalizedUrl(config, url));
      StepKeepsConsistent(navigating, signals, Begin);
      history.ReplaceState(Entry(info.url, Some(map[])));
      signals := signals + BeginSignals(navigating);
      navigating := navigating + 1;
      rendererCalls := rendererCalls + [HandleNavigation(info, chain, false, hash, scroll, keepfocus)];
      r := Resolved(info);
    }

    /** `_navigate` after the renderer's promise resolves: decrement the
        counter and dispatch the end event if it reached zero. When the
        promise rejects this never runs (there is no `finally`). */
    method FinishNavigate()
      requires Valid() && navigating > 0
      modifies this`navigating, this`signals
      ensures Valid()
      ensures navigating == Next(old(navigating), Finish)
      ensures signals == old(signals) + Head(old(navigating), Finish)
    {
      StepKeepsConsistent(navigating, signals, Finish);
      navigating := navigating - 1;
      signals := signals + FinishSignals(navigating);
    }

    /** `prefetch(url)`: throws for a URL the app does not own (or whose
        path does not decode); otherwise only calls `renderer.load`. */
    method Prefetch(url: Url) returns (r: Resolution)
      modifies this`rendererCalls
      ensures r == Parse(config, url)
      ensures rendererCalls == old(rendererCalls) + (if r.Resolved? then [Load(r.info)] else [])
    {
      r := Parse(config, url);
      if r.Resolved? {
        rendererCalls := rendererCalls + [Load(r.info)];
      }
    }

    /** `goto(href, opts, chain)`, with `url` the resolved `href`. When
        enabled and the URL is owned, one entry carrying `state` is pushed
        (or the current one replaced), then `_navigate` runs. Otherwise the
        page is left through `location.href` and the renderer is not
        called. */
    method Goto(url: Url, noscroll: bool, replaceState: bool, keepfocus: bool, state: StateMap,
                chain: seq<string>, scrollNow: ScrollPosition)
      returns (r: GotoOutcome)
      requires Valid()
      modifies this, history
      ensures Valid()
      ensures enabled == old(enabled) && pendingPushes == old(pendingPushes)
      ensures scrollTimerArmed == old(scrollTimerArmed) && hoverTimer == old(hoverTimer)
      ensures !(old(enabled) && Owns(config, url)) ==>
        && r == LeftApp(Href(url))
        && leftFor == Some(Href(url))
        && unchanged(history)
        && rendererCalls == old(rendererCalls) && navigating == old(navigating) && signals == old(signals)
      ensures old(enabled) && Owns(config, url) ==>
        && r.Navigated?
        && (r.resolution.Resolved? <==> Parse(config, url).Resolved?)
        && leftFor == old(leftFor)
        && history.index == (if replaceState then old(history.index) else old(history.index) + 1)
        && |history.entries| == (if replaceState then old(|history.entries|) else old(history.index) + 2)
        && history.entries[..old(history.index)] == old(history.entries[..history.index])
        && (!replaceState ==> history.entries[old(history.index)] == old(history.Current()))
        && (replaceState ==> history.entries[old(history.index) + 1..] == old(history.entries[history.index + 1..]))
        && (r.resolution.Failed? ==>
              && r.resolution.error == DecodeError
              && history.Current() == Entry(url, Some(state))
              && navigating == old(navigating) && signals == old(signals)
              && rendererCalls == old(rendererCalls))
        && (r.resolution.Resolved? ==>
              && r.resolution.info == Parse(config, url).info.(url := NormalizedUrl(config, url))
              && history.Current() == Entry(NormalizedUrl(config, url), Some(map[]))
              && navigating == old(navigating) + 1
              && signals == old(signals) + BeginSignals(old(navigating))
              && rendererCalls == old(rendererCalls) +
                   [HandleNavigation(r.resolution.info, chain, false, Some(Hash(url)),
                                     if noscroll then Some(scrollNow) else None, keepfocus)])
    {
      if enabled && Owns(config, url) {
        if replaceState {
          history.ReplaceState(Entry(url, Some(state)));
        } else {
          history.PushState(Entry(url, Some(state)));
        }
        var res := BeginNavigate(url, if noscroll then Some(scrollNow) else None, keepfocus, chain, Some(Hash(url)));
        r := Navigated(res);
      } else {
        leftFor := Some(Href(url));
        r := LeftApp(Href(url));
      }
    }

    /** The last step of the click listener for a link to another page:
        push an entry with state `{}`, then run `_navigate` with the
        link's hash and `keepfocus` false. */
    method PushAndNavigateTo(url: Url, noscroll: bool, scrollNow: ScrollPosition)
      requires Valid()
      modifies this, history
      ensures Valid()
      ensures enabled == old(enabled) && pendingPushes == old(pendingPushes) && leftFor == old(leftFor)
      ensures scrollTimerArmed == old(scrollTimerArmed) && hoverTimer == old(hoverTimer)
      ensures history.index == old(history.index) + 1
      ensures |history.entries| == old(history.index) + 2
      ensures history.entries[..history.index] == old(history.entries[..history.index + 1])
      ensures Parse(config, url).Failed? ==>
        && rendererCalls == old(rendererCalls) && navigating == old(navigating)
        && signals == old(signals)
        && history.Current() == Entry(url, Some(map[]))
      ensures Parse(config, url).Resolved? ==>
        && navigating == old(navigating) + 1
        && signals == old(signals) + BeginSignals(old(navigating))
        && history.Current() == Entry(NormalizedUrl(config, url), Some(map[]))
        && rendererCalls == old(rendererCalls) +
             [HandleNavigation(Parse(config, url).info.(url := NormalizedUrl(config, url)),
                               [], false, Some(Hash(url)), if noscroll then Some(scrollNow) else None, false)]
    {
      history.PushState(Entry(url, Some(map[])));
      var _ := BeginNavigate(url, if noscroll then Some(scrollNow) else None, false, [], Some(Hash(url)));
    }

    /** The `click` listener: carries out `DecideClick` and reports whether
        it called `event.preventDefault()`. */
    method HandleClick(click: Click, anchor: Option<Anchor>, scrollNow: ScrollPosition)
      returns (prevented: bool)
      requires Valid()
      modifies this, history
      ensures Valid()
      ensures var action := DecideClick(config, old(enabled), click, anchor, old(Location()));
        && prevented == (action == PreventDefaultOnly || action.PushAndNavigate?)
        && enabled == old(enabled) && leftFor == old(leftFor)
        && scrollTimerArmed == old(scrollTimerArmed) && hoverTimer == old(hoverTimer)
        && pendingPushes == old(pendingPushes) + (if action.DeferredPush? then [action.url] else [])
        && (!action.PushAndNavigate? ==>
              && unchanged(history) && navigating == old(navigating)
              && rendererCalls == old(rendererCalls) && signals == old(signals))
        && (action.PushAndNavigate? ==>
              && history.index == old(history.index) + 1
              && |history.entries| == old(history.index) + 2
              && history.entries[..history.index] == old(history.entries[..history.index + 1])
              && (Parse(config, action.url).Failed? ==>
                    && rendererCalls == old(rendererCalls) && navigating == old(navigating)
                    && signals == old(signals)
                    && history.Current() == Entry(action.url, Some(map[])))
              && (Parse(config, action.url).Resolved? ==>
                    && navigating == old(navigating) + 1
                    && signals == old(signals) + BeginSignals(old(navigating))
                    && history.Current() == Entry(NormalizedUrl(config, action.url), Some(map[]))
                    && rendererCalls == old(rendererCalls) +
                         [HandleNavigation(Parse(config, action.url).info.(url := NormalizedUrl(config, action.url)),
                                           [], false, Some(Hash(action.url)),
                                           if action.noscroll then Some(scrollNow) else None, false)]))
    {
      var action := DecideClick(config, enabled, click, anchor, Location());
      match action
      case PassThrough =>
        prevented := false;
      case PreventDefaultOnly =>
        prevented := true;
      case DeferredPush(url) =>
        pendingPushes := pendingPushes + [url];
        prevented := false;
      case PushAndNavigate(url, noscroll) =>
        PushAndNavigateTo(url, noscroll, scrollNow);
        prevented := true;
    }

    /** The zero-delay timeout of a hash-only click fires. */
    method RunPendingPush()
      requires Valid() && pendingPushes != []
      modifies this`pendingPushes, history
      ensures Valid()
      ensures pendingPushes == old(pendingPushes[1..])
      ensures history.entries == old(history.entries[..history.index + 1]) + [Entry(old(pendingPushes[0]), Some(map[]))]
      ensures history.index == old(history.index) + 1
    {
      history.PushState(Entry(pendingPushes[0], Some(map[])));
      pendingPushes := pendingPushes[1..];
    }

    /** The `popstate` listener, run after the browser has moved to another
        entry: when that entry has a state and the router is enabled,
        navigate to `location` with the stored scroll position, pushing
        nothing. */
    method HandlePopstate() returns (r: Option<Resolution>)
      requires Valid()
      modifies this, history
      ensures Valid()
      ensures r.Some? <==> old(history.Current().state).Some? && old(enabled)
      ensures r.None? ==> unchanged(this) && unchanged(history)
      ensures r.Some? ==> r.value.Resolved? == Parse(config, old(Location())).Resolved?
      ensures |history.entries| == old(|history.entries|) && history.index == old(history.index)
      ensures enabled == old(enabled) && pendingPushes == old(pendingPushes) && leftFor == old(leftFor)
      ensures scrollTimerArmed == old(scrollTimerArmed) && hoverTimer == old(hoverTimer)
      ensures r.Some? && r.value.Failed? ==>
        r.value == Parse(config, old(Location())) && unchanged(this) && unchanged(history)
      ensures r.Some? && r.value.Resolved? ==>
        && r.value.info == Parse(config, old(Location())).info.(url := NormalizedUrl(config, old(Location())))
        && navigating == old(navigating) + 1
        && signals == old(signals) + BeginSignals(old(navigating))
        && history.entries == old(history.entries)[old(history.index) :=
             Entry(NormalizedUrl(config, old(Location())), Some(map[]))]
        && rendererCalls == old(rendererCalls) +
             [HandleNavigation(r.value.info, [], false, None,
                               ScrollOf(old(history.Current().state).value), false)]
    {
      var current := history.Current();
      if current.state.Some? && enabled {
        var res := BeginNavigate(current.url, ScrollOf(current.state.value), false, [], None);
        r := Some(res);
      } else {
        r := None;
      }
    }

    /** The `scroll` listener: clear and re-arm the single scroll timer. */
    method OnScroll()
      modifies this`scrollTimerArmed
      ensures scrollTimerArmed
    {
      scrollTimerArmed := true;
    }

    /** The scroll timer fires: merge the scroll position into the current
        entry's state bag, leaving its URL, the other keys, the history's
        length and index as they were. */
    method FireScrollTimer(position: ScrollPosition)
      requires Valid() && scrollTimerArmed
      modifies this`scrollTimerArmed, history
      ensures Valid() && !scrollTimerArmed
      ensures history.index == old(history.index) && |history.entries| == old(|history.entries|)
      ensures history.entries == old(history.entries)[old(history.index) :=
        Entry(old(history.Current().url), Some(WithScroll(old(history.Current().state), position)))]
    {
      scrollTimerArmed := false;
      var current := history.Current();
      history.ReplaceState(Entry(current.url, Some(WithScroll(current.state, position))));
    }

    /** `trigger_prefetch`: prefetch the anchor's URL when it carries
        `sveltekit:prefetch`. */
    method TriggerPrefetch(anchor: Option<Anchor>) returns (r: Option<Resolution>)
      modifies this`rendererCalls
      ensures r.Some? <==> anchor.Some? && anchor.value.href.Some? && anchor.value.prefetch
      ensures r.Some? ==> r.value == Parse(config, anchor.value.href.value)
      ensures r.None? ==> rendererCalls == old(rendererCalls)
      ensures r.Some? ==>
        rendererCalls == old(rendererCalls) + (if r.value.Resolved? then [Load(r.value.info)] else [])
    {
      if anchor.Some? && anchor.value.href.Some? && anchor.value.prefetch {
        var res := Prefetch(anchor.value.href.value);
        r := Some(res);
      } else {
        r := None;
      }
    }

    /** The `mousemove` listener: clear and re-arm the single hover timer
        for the anchor under the pointer. */
    method OnMouseMove(anchor: Option<Anchor>)
      modifies this`hoverTimer
      ensures hoverTimer == HoverPending(anchor)
    {
      hoverTimer := HoverPending(anchor);
    }

    /** The hover timer fires and re-dispatches the event, which reaches
        `trigger_prefetch`. */
    method FireHoverTimer() returns (r: Option<Resolution>)
      requires hoverTimer.HoverPending?
      modifies this`hoverTimer, this`rendererCalls
      ensures hoverTimer == NoHover
      ensures var a := old(hoverTimer).anchor;
        && (r.Some? <==> a.Some? && a.value.href.Some? && a.value.prefetch)
        && (r.Some? ==> r.value == Parse(config, a.value.href.value))
        && rendererCalls == old(rendererCalls) + (if r.Some? && r.value.Resolved? then [Load(r.value.info)] else [])
    {
      var a := hoverTimer.anchor;
      hoverTimer := NoHover;
      r := TriggerPrefetch(a);
    }
  }

  /** A plain link to an owned page of another document pushes and
      navigates. */
  lemma ClickToOtherPage(config: Config, link: Anchor, location: Url)
    requires link.href.Some? && Owns(config, link.href.value) && !OptsOut(link)
    requires HrefWithoutHash(link.href.value) != HrefWithoutHash(location)
    ensures DecideClick(config, true, PrimaryClick, Some(link), location)
         == PushAndNavigate(link.href.value, link.noscroll)
  {
    assert Href(link.href.value) != Href(location);
  }

  /** A click on a plain link to another page of the app keeps every
      entry up to the current one and moves one entry forward. */
  method ClickThrough(router: Router, link: Anchor)
    requires router.Valid() && router.enabled
    requires link.href.Some? && Owns(router.config, link.href.value) && !OptsOut(link)
    requires HrefWithoutHash(link.href.value) != HrefWithoutHash(router.Location())
    modifies router, router.history
    ensures router.Valid() && router.enabled
    ensures router.history.index == old(router.history.index) + 1
    ensures router.history.entries[..router.history.index] == old(router.history.entries[..router.history.index + 1])
  {
    ClickToOtherPage(router.config, link, router.Location());
    var _ := router.HandleClick(PrimaryClick, Some(link), ScrollPosition(0, 0));
  }

  /** The first half of the scroll round trip: a fresh router on `start`
      captures the scroll position, then a click on a link to `next`
      pushes a second entry. */
  method CaptureThenLeave(config: Config, start: Url, next: Url, position: ScrollPosition)
    returns (router: Router)
    requires Owns(config, next) && HrefWithoutHash(next) != HrefWithoutHash(start)
    ensures fresh(router) && fresh(router.history)
    ensures router.Valid() && router.enabled && router.config == config
    ensures router.history.index == 1
    ensures router.history.entries[0] == Entry(start, Some(WithScroll(Some(map[]), position)))
  {
    var history := new BrowserHistory(Entry(start, None));
    router := new Router(config, history);
    router.OnScroll();
    router.FireScrollTimer(position);
    var saved := history.Current();
    ClickThrough(router, Anchor(Some(next), false, "", "", false, false));
    assert history.entries[..1] == [saved];
  }

  /** Capturing the scroll position at (120, 400) on an entry, clicking
      through to another page, then going back delivers (120, 400) to the
      renderer. */
  method ScrollRestoredOnBack(config: Config, start: Url, next: Url) returns (calls: seq<RendererCall>)
    requires Owns(config, start) && Owns(config, next)
    requires config.decode(RawPath(config, start)).Some?
    requires HrefWithoutHash(next) != HrefWithoutHash(start)
    ensures calls != [] && calls[|calls| - 1].HandleNavigation?
    ensures calls[|calls| - 1].scroll == Some(ScrollPosition(120, 400))
  {
    var position := ScrollPosition(120, 400);
    var router := CaptureThenLeave(config, start, next, position);
    router.history.Traverse(0);
    ScrollRoundTrip(Some(map[]), position);
    var r := router.HandlePopstate();
    calls := router.rendererCalls;
  }

  /** The first halves of a navigation and of the redirect its rendering
      raises through `goto`: the counter rises by two and the start event
      is dispatched at most once. */
  method NavigateThenRedirect(router: Router, first: Url, target: Url)
    requires router.Valid() && router.enabled
    requires Parse(router.config, first).Resolved? && Parse(router.config, target).Resolved?
    modifies router, router.history
    ensures router.Valid() && router.navigating == old(router.navigating) + 2
    ensures router.signals == old(router.signals) + BeginSignals(old(router.navigating))
  {
    var r := router.BeginNavigate(first, None, false, [], Some(Hash(first)));
    var g := router.Goto(target, false, true, false, map[], [Href(first)], ScrollPosition(0, 0));
    assert router.navigating > 1;
  }

  /** A navigation started on an idle router whose rendering redirects
      through `goto` before its own await resumes: both halves of each
      nest, the counter returns to zero, and the window sees one start and
      one end event. */
  method RedirectDispatchesOnce(router: Router, first: Url, target: Url)
    requires router.Valid() && router.enabled && router.navigating == 0
    requires Parse(router.config, first).Resolved? && Parse(router.config, target).Resolved?
    modifies router, router.history
    ensures router.Valid() && router.navigating == 0
    ensures router.signals == old(router.signals) + [NavigationStart, NavigationEnd]
  {
    NavigateThenRedirect(router, first, target);
    router.FinishNavigate();
    router.FinishNavigate();
    assert router.signals == old(router.signals) + [NavigationStart] + [NavigationEnd];
  }
}
