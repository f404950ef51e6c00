/** The decision the `click` listener makes (router.js lines 125-173),
    over an abstract event and the nearest enclosing anchor. */
module Listeners {
  import opened Strings
  import opened Urls
  import opened Matcher

  /** The fields of the `MouseEvent` the listener reads. */
  datatype Click = Click(
    button: int,
    which: int,
    metaKey: bool,
    ctrlKey: bool,
    shiftKey: bool,
    altKey: bool,
    defaultPrevented: bool)

  /** The `<a>` (HTML or SVG) found on the event's path: its resolved href
      (`None` when the attribute is missing), its `download`,
      `rel`, `target`, `sveltekit:noscroll` and `sveltekit:prefetch`
      attributes. */
  datatype Anchor = Anchor(
    href: Option<Url>,
    download: bool,
    rel: string,
    target: string,
    noscroll: bool,
    prefetch: bool)

  /** What the listener does: nothing; only `event.preventDefault()`; a
      `pushState({}, '', url)` deferred by a zero timeout (and the browser's
      own fragment navigation); or `pushState` followed by `_navigate` and
      `event.preventDefault()`. */
  datatype ClickAction =
    | PassThrough
    | PreventDefaultOnly
    | DeferredPush(url: Url)
    | PushAndNavigate(url: Url, noscroll: bool)

  /** A primary-button click without modifier keys, not yet handled, on an
      anchor with an href, while the router is enabled. */
  predicate Eligible(enabled: bool, click: Click, anchor: Option<Anchor>) {
    && enabled
    && click.button == 0 && click.which == 1
    && !(click.metaKey || click.ctrlKey || click.shiftKey || click.altKey)
    && !click.defaultPrevented
    && anchor.Some? && anchor.value.href.Some?
  }

  /** `download`, a `rel` token `external`, or a `target` hand the link to
      the browser. */
  predicate OptsOut(a: Anchor) {
    a.download || HasToken(a.rel, "external") || a.target != []
  }

  function DecideClick(cfg: Config, enabled: bool, click: Click, anchor: Option<Anchor>, location: Url): (action: ClickAction)
    ensures !Eligible(enabled, click, anchor) ==> action == PassThrough
    ensures action == PreventDefaultOnly <==>
      Eligible(enabled, click, anchor) && Href(anchor.value.href.value) == Href(location) && Hash(location) == []
    ensures action.DeferredPush? <==>
      && Eligible(enabled, click, anchor)
      && Href(anchor.value.href.value) != Href(location)
      && !OptsOut(anchor.value)
      && Owns(cfg, anchor.value.href.value)
      && HrefWithoutHash(anchor.value.href.value) == HrefWithoutHash(location)
    ensures action.PushAndNavigate? <==>
      && Eligible(enabled, click, anchor)
      && !OptsOut(anchor.value)
      && Owns(cfg, anchor.value.href.value)
      && HrefWithoutHash(anchor.value.href.value) != HrefWithoutHash(location)
    ensures action.DeferredPush? ==> action.url == anchor.value.href.value
    ensures action.PushAndNavigate? ==>
      action.url == anchor.value.href.value && action.noscroll == anchor.value.noscroll
  {
    if !Eligible(enabled, click, anchor) then PassThrough
    else
      var a := anchor.value;
      var url := a.href.value;
      if Href(url) == Href(location) then
        (if Hash(location) == [] then PreventDefaultOnly else PassThrough)
      else if OptsOut(a) then PassThrough
      else if !Owns(cfg, url) then PassThrough
      else if HrefWithoutHash(url) == HrefWithoutHash(location) then DeferredPush(url)
      else PushAndNavigate(url, a.noscroll)
  }

  /** A click on a parsed URL that differs from the current location only
      in its fragment never starts a navigation. */
  lemma HashOnlyClickNeverNavigates(cfg: Config, enabled: bool, click: Click, a: Anchor, location: Url)
    requires a.href.Some? && WellFormed(a.href.value) && WellFormed(location)
    requires a.href.value.(fragment := location.fragment) == location
    ensures !DecideClick(cfg, enabled, click, Some(a), location).PushAndNavigate?
  {
    HrefWithoutHashParts(a.href.value);
    HrefWithoutHashParts(location);
  }

  /** A primary-button click without modifier keys, not yet handled. */
  const PrimaryClick := Click(0, 1, false, false, false, false, false)

  /** `<a href="#">` on a page without a fragment: the hrefs differ only by
      the bare `#`, so the click is a deferred push and the browser's own
      fragment navigation goes ahead. */
  lemma BareFragmentLinkDefers(cfg: Config, a: Anchor, location: Url)
    requires WellFormed(location) && location.fragment == None && Owns(cfg, location)
    requires a.href == Some(location.(fragment := Some(""))) && !OptsOut(a)
    ensures DecideClick(cfg, true, PrimaryClick, Some(a), location) == DeferredPush(a.href.value)
  {
    var link := a.href.value;
    HrefWithoutHashParts(link);
    HrefWithoutHashParts(location);
    assert |Href(link)| == |Href(location)| + 1;
  }

  /** A click on the current URL when that URL ends in a bare `#`: the
      `location.hash` getter is empty, so only `preventDefault` runs. */
  lemma BareFragmentLocationPrevents(cfg: Config, a: Anchor, location: Url)
    requires location.fragment == Some("") && a.href == Some(location)
    ensures DecideClick(cfg, true, PrimaryClick, Some(a), location) == PreventDefaultOnly
  {
  }

  /** `rel="nofollow external"` hands the link to the browser. */
  lemma ExternalRelOptsOut(a: Anchor)
    requires a.rel == "nofollow external"
    ensures OptsOut(a)
  {
    ExternalIsSpaceless();
    assert a.rel[9..17] == "external";
    assert a.rel[8] == ' ';
    assert DelimitedAt(a.rel, "external", 9);
    HasTokenIff(a.rel, "external");
  }

  /** `rel="externally"` does not: only a whole whitespace-separated token
      counts. */
  lemma ExternallyIsNoToken(a: Anchor)
    requires a.rel == "externally" && !a.download && a.target == []
    ensures !OptsOut(a)
  {
    ExternalIsSpaceless();
    HasTokenIff(a.rel, "external");
  }

  lemma ExternalIsSpaceless()
    ensures Spaceless("external")
  {
    forall c | c in "external" ensures !IsSpace(c) {
      assert c in {'e', 'x', 't', 'r', 'n', 'a', 'l'};
    }
  }
}
