/** The parts of a WHATWG `URL` object the router reads. */
module Urls {
  import opened Strings

  /** A parsed URL: `url.origin`, `url.pathname`, and its query and
      fragment. A query or fragment is `None` when the URL has no `?` or no
      `#`, and `Some(text)` with the text after the marker otherwise, so an
      empty one (`/page?`, `/page#`) is `Some("")`. */
  datatype Url = Url(origin: string, pathname: string, query: Option<string>, fragment: Option<string>)

  /** What a URL parser produces: only the fragment may hold a `#`. */
  predicate WellFormed(u: Url) {
    && '#' !in u.origin && '#' !in u.pathname
    && (u.query.Some? ==> '#' !in u.query.value)
  }

  /** The `url.search` getter: empty for a missing or empty query,
      otherwise the query with its `?`. */
  function Search(u: Url): string {
    if u.query.Some? && u.query.value != [] then "?" + u.query.value else ""
  }

  /** The `url.hash` getter: empty for a missing or empty fragment,
      otherwise the fragment with its `#`. */
  function Hash(u: Url): string {
    if u.fragment.Some? && u.fragment.value != [] then "#" + u.fragment.value else ""
  }

  /** The getters are empty exactly for a missing or empty part, and
      otherwise hold the part behind its marker, which `href` then shows
      in the same way. */
  lemma GettersIff(u: Url)
    ensures Search(u) == [] <==> u.query == None || u.query == Some([])
    ensures Hash(u) == [] <==> u.fragment == None || u.fragment == Some([])
    ensures Search(u) != [] ==> Search(u) == "?" + u.query.value && QueryPart(u) == Search(u)
    ensures Hash(u) != [] ==> Hash(u) == "#" + u.fragment.value && FragmentPart(u) == Hash(u)
  {
  }

  /** The query as `href` serialises it: the `?` is kept even when the query
      is empty. */
  function QueryPart(u: Url): string {
    if u.query.Some? then "?" + u.query.value else ""
  }

  /** The fragment as `href` serialises it, `#` kept even when empty. */
  function FragmentPart(u: Url): string {
    if u.fragment.Some? then "#" + u.fragment.value else ""
  }

  /** `url.href` (and `url.toString()`, and `location.href`). */
  function Href(u: Url): string {
    u.origin + u.pathname + QueryPart(u) + FragmentPart(u)
  }

  /** `url.href.split('#')[0]` */
  function HrefWithoutHash(u: Url): string {
    BeforeHash(Href(u))
  }

  /** For a parsed URL, the href without its fragment is origin, path and
      query, and the href is that followed by the fragment. */
  lemma HrefWithoutHashParts(u: Url)
    requires WellFormed(u)
    ensures HrefWithoutHash(u) == u.origin + u.pathname + QueryPart(u)
    ensures Href(u) == HrefWithoutHash(u) + FragmentPart(u)
  {
    var front := u.origin + u.pathname + QueryPart(u);
    assert '#' !in front by {
      assert front == u.origin + u.pathname + QueryPart(u);
      if u.query.Some? {
        assert QueryPart(u) == ['?'] + u.query.value;
      }
    }
    assert Href(u) == front + FragmentPart(u);
    BeforeHashAppend(front, FragmentPart(u));
    assert FragmentPart(u) == [] || BeforeHash(FragmentPart(u)) == [];
  }

  /** Two parsed URLs whose hrefs differ but whose hrefs without fragment
      agree differ in their fragment alone. */
  lemma SameDocumentDiffersInHash(u: Url, v: Url)
    requires WellFormed(u) && WellFormed(v)
    requires HrefWithoutHash(u) == HrefWithoutHash(v) && Href(u) != Href(v)
    ensures u.fragment != v.fragment
  {
    HrefWithoutHashParts(u);
    HrefWithoutHashParts(v);
  }

  /** `new URL(origin + pathname + search + hash)` for getter values
      `search` and `hash` (each empty, or its marker followed by at least
      one character): an empty one leaves no marker behind. */
  function FromParts(origin: string, pathname: string, search: string, hash: string): (r: Url)
    requires search == [] || (|search| >= 2 && search[0] == '?')
    requires hash == [] || (|hash| >= 2 && hash[0] == '#')
    ensures r.origin == origin && r.pathname == pathname
    ensures Search(r) == search && Hash(r) == hash
  {
    var r := Url(origin, pathname,
                 if search == [] then None else Some(search[1..]),
                 if hash == [] then None else Some(hash[1..]));
    assert search != [] ==> search == "?" + search[1..];
    assert hash != [] ==> hash == "#" + hash[1..];
    r
  }

  /** Parsing the concatenated getter values gives back that string as
      `href`. */
  lemma FromPartsHref(origin: string, pathname: string, search: string, hash: string)
    requires search == [] || (|search| >= 2 && search[0] == '?')
    requires hash == [] || (|hash| >= 2 && hash[0] == '#')
    ensures Href(FromParts(origin, pathname, search, hash)) == origin + pathname + search + hash
  {
    assert search != [] ==> search == "?" + search[1..];
    assert hash != [] ==> hash == "#" + hash[1..];
  }

  /** A link to `#` from a page without a fragment: the getters of the two
      URLs agree, but their hrefs do not. */
  lemma BareFragmentDiffersInHrefOnly(origin: string, pathname: string)
    ensures var page := Url(origin, pathname, None, None);
      var link := Url(origin, pathname, None, Some(""));
      && Hash(link) == Hash(page) && Search(link) == Search(page)
      && Href(link) == Href(page) + "#"
  {
  }
}
