/** URL ownership and route resolution: `Router.owns` and `Router.parse`
    (router.js lines 183-203). */
module Matcher {
  import opened Strings
  import opened Urls
  import opened TrailingSlash
  import opened Sequences

  /** The source text of a route's regular expression. */
  type Pattern = string

  /** One entry of the client route table: its pattern and what the
      renderer needs to load it (component loaders, parameter parser),
      kept opaque here. */
  datatype Route = Route(pattern: Pattern, meta: string)

  /** What the router is built with, plus the two foreign calls it makes:
      `pattern.test(path)` and `decodeURI`, the latter failing (a
      `URIError`) on a malformed escape. `origin` is `location.origin`,
      which no same-document navigation changes. */
  datatype Config = Config(
    origin: string,
    base: string,
    routes: seq<Route>,
    trailingSlash: Policy,
    test: (Pattern, string) -> bool,
    decode: string -> Option<string>)

  /** `info` handed to the renderer: `id` keys its cache. */
  datatype NavigationInfo = NavigationInfo(id: string, routes: seq<Route>, url: Url, path: string)

  datatype NavError = NotOwned | DecodeError

  datatype Resolution = Resolved(info: NavigationInfo) | Failed(error: NavError)

  /** `owns(url)`: same origin, and `base` is a raw string prefix of the
      pathname (no check that the prefix ends at a segment boundary). */
  predicate Owns(cfg: Config, url: Url) {
    url.origin == cfg.origin && StartsWith(url.pathname, cfg.base)
  }

  /** Ownership as the existence of the rest of the path after `base`. */
  lemma OwnsIff(cfg: Config, url: Url)
    ensures Owns(cfg, url) <==>
      url.origin == cfg.origin && exists rest :: url.pathname == cfg.base + rest
  {
    if Owns(cfg, url) {
      assert url.pathname == cfg.base + url.pathname[|cfg.base|..];
    }
  }

  /** With base `/app`, `/application` is owned too. */
  lemma OwnsIgnoresSegmentBoundary(cfg: Config)
    requires cfg.base == "/app"
    ensures Owns(cfg, Url(cfg.origin, "/application", None, None))
  {
    assert "/application"[..4] == "/app";
  }

  /** `url.pathname.slice(base.length) || '/'`, before decoding. */
  function RawPath(cfg: Config, url: Url): (raw: string)
    requires Owns(cfg, url)
    ensures raw != []
    ensures url.pathname == cfg.base + raw || (url.pathname == cfg.base && raw == "/")
  {
    var rest := url.pathname[|cfg.base|..];
    assert url.pathname == cfg.base + rest;
    if rest == [] then "/" else rest
  }

  /** `routes.filter(([pattern]) => pattern.test(path))` */
  function Matching(routes: seq<Route>, test: (Pattern, string) -> bool, path: string): (r: seq<Route>)
    ensures |r| <= |routes|
    ensures forall k :: 0 <= k < |r| ==> test(r[k].pattern, path)
  {
    if routes == [] then []
    else if test(routes[0].pattern, path) then [routes[0]] + Matching(routes[1..], test, path)
    else Matching(routes[1..], test, path)
  }

  /** `xs` can be obtained from `ys` by deleting elements, so `xs` keeps the
      relative order of the elements of `ys` it holds. */
  predicate IsSubsequence<T(==)>(xs: seq<T>, ys: seq<T>)
    decreases |ys|
  {
    if xs == [] then true
    else if ys == [] then false
    else if xs[0] == ys[0] then IsSubsequence(xs[1..], ys[1..])
    else IsSubsequence(xs, ys[1..])
  }

  /** The filter keeps the registration order of the route table. */
  lemma {:induction false} MatchingIsSubsequence(routes: seq<Route>, test: (Pattern, string) -> bool, path: string)
    ensures IsSubsequence(Matching(routes, test, path), routes)
  {
    if routes != [] {
      MatchingIsSubsequence(routes[1..], test, path);
      var r := Matching(routes, test, path);
      if !test(routes[0].pattern, path) && r != [] {
        assert r == Matching(routes[1..], test, path);
        SubsequenceOfTail(r, routes);
      }
    }
  }

  lemma SubsequenceOfTail<T>(xs: seq<T>, ys: seq<T>)
    requires ys != [] && xs != [] && IsSubsequence(xs, ys[1..])
    ensures IsSubsequence(xs, ys)
    decreases |ys|, 0
  {
    if xs[0] == ys[0] {
      SubsequenceDropFirst(xs, ys[1..]);
    }
  }

  lemma {:induction false} SubsequenceDropFirst<T>(xs: seq<T>, ys: seq<T>)
    requires xs != [] && IsSubsequence(xs, ys)
    ensures IsSubsequence(xs[1..], ys)
    decreases |ys|, 1
  {
    if xs[0] == ys[0] {
      if xs[1..] != [] {
        SubsequenceDropFirst(xs[1..], ys[1..]);
        SubsequenceOfTail(xs[1..], ys);
      }
    } else {
      SubsequenceDropFirst(xs, ys[1..]);
      if xs[1..] != [] {
        SubsequenceOfTail(xs[1..], ys);
      }
    }
  }

  /** A route of the table is among the matching ones exactly when its
      pattern accepts the path. */
  lemma {:induction false} MatchingMembers(routes: seq<Route>, test: (Pattern, string) -> bool, path: string, route: Route)
    ensures route in Matching(routes, test, path) <==> route in routes && test(route.pattern, path)
  {
    if routes != [] {
      MatchingMembers(routes[1..], test, path, route);
      assert routes == [routes[0]] + routes[1..];
    }
  }

  /** The filter keeps every copy of an accepted route and no copy of a
      rejected one, so with the order above it is determined even for a
      table that lists a route twice. */
  lemma {:induction false} MatchingCounts(routes: seq<Route>, test: (Pattern, string) -> bool, path: string, route: Route)
    ensures Count(Matching(routes, test, path), route)
         == if test(route.pattern, path) then Count(routes, route) else 0
  {
    if routes != [] {
      MatchingCounts(routes[1..], test, path, route);
      if test(routes[0].pattern, path) {
        assert ([routes[0]] + Matching(routes[1..], test, path))[1..] == Matching(routes[1..], test, path);
      }
    }
  }

  /** `parse(url)`: `undefined` (here `Failed(NotOwned)`) for a URL the app
      does not own; a failing `decodeURI` throws (`Failed(DecodeError)`). */
  function Parse(cfg: Config, url: Url): (r: Resolution)
    ensures r == Failed(NotOwned) <==> !Owns(cfg, url)
    ensures r == Failed(DecodeError) <==> Owns(cfg, url) && cfg.decode(RawPath(cfg, url)).None?
    ensures r.Resolved? ==>
      && r.info.id == url.pathname + Search(url)
      && r.info.url == url
      && cfg.decode(RawPath(cfg, url)) == Some(r.info.path)
      && r.info.routes == Matching(cfg.routes, cfg.test, r.info.path)
  {
    if !Owns(cfg, url) then Failed(NotOwned)
    else match cfg.decode(RawPath(cfg, url))
      case None => Failed(DecodeError)
      case Some(path) =>
        Resolved(NavigationInfo(url.pathname + Search(url), Matching(cfg.routes, cfg.test, path), url, path))
  }

  /** `id` is built from the `search` getter, so a bare `?` is dropped:
      `/p?` and `/p` share their cache key. */
  lemma IdDropsBareQuery(cfg: Config, pathname: string)
    requires Parse(cfg, Url(cfg.origin, pathname, Some(""), None)).Resolved?
    ensures Parse(cfg, Url(cfg.origin, pathname, Some(""), None)).info.id == pathname
    ensures Parse(cfg, Url(cfg.origin, pathname, None, None)).info.id == pathname
  {
  }
}
