/** The trailing-slash rewrite `_navigate` applies to `url.pathname`
    before it replaces the history entry (router.js lines 271-278). */
module TrailingSlash {
  import opened Strings

  /** The app's `trailing_slash` setting. */
  datatype Policy = Never | Always | Ignore

  /** Under `always`, a path whose last `/`-separated segment holds a `.`
      names a file and keeps its shape. */
  predicate NamesFile(pathname: string) {
    '.' in LastSegment(pathname)
  }

  function Normalize(policy: Policy, pathname: string): (r: string)
    ensures r == pathname || r + "/" == pathname || r == pathname + "/"
    ensures policy == Ignore ==> r == pathname
  {
    match policy
    case Never =>
      if pathname != "/" && EndsWith(pathname, "/") then pathname[..|pathname| - 1] else pathname
    case Always =>
      if !NamesFile(pathname) && !EndsWith(pathname, "/") then pathname + "/" else pathname
    case Ignore =>
      pathname
  }

  /** The shape each policy asks for, stated without reference to the
      rewrite. */
  predicate Normalized(policy: Policy, pathname: string) {
    match policy
    case Never => pathname == "/" || !EndsWith(pathname, "/")
    case Always => EndsWith(pathname, "/") || NamesFile(pathname)
    case Ignore => true
  }

  /** The rewrite leaves a path alone exactly when the path already has the
      shape its policy asks for. */
  lemma NormalizeFixedPoints(policy: Policy, pathname: string)
    ensures Normalize(policy, pathname) == pathname <==> Normalized(policy, pathname)
  {
    if policy == Always && !Normalized(policy, pathname) {
      assert |Normalize(policy, pathname)| == |pathname| + 1;
    }
  }

  /** `never` removes exactly one trailing `/` unless the path is `/`. */
  lemma NeverStripsOneSlash(pathname: string)
    ensures var r := Normalize(Never, pathname);
      if pathname != "/" && EndsWith(pathname, "/") then r + "/" == pathname else r == pathname
  {
  }

  /** After `never`, a trailing `/` survives only on the root path or when
      the input ended in `//`. */
  lemma NeverLeavesSlashOnlyFromDouble(pathname: string)
    ensures var r := Normalize(Never, pathname);
      EndsWith(r, "/") ==> r == "/" || EndsWith(pathname, "//")
  {
    var r := Normalize(Never, pathname);
    if EndsWith(r, "/") && r != pathname {
      assert pathname == r + "/";
      assert pathname[|pathname| - 2..] == "//";
    }
  }

  /** `never` is idempotent except on paths of three or more characters
      that end in `//`, since it removes a single slash per application. */
  lemma NeverIdempotentIff(pathname: string)
    ensures Normalize(Never, Normalize(Never, pathname)) == Normalize(Never, pathname)
        <==> !(|pathname| >= 3 && EndsWith(pathname, "//"))
  {
    var r := Normalize(Never, pathname);
    if |pathname| >= 3 && EndsWith(pathname, "//") {
      assert r == pathname[..|pathname| - 1];
      assert r != "/";
      assert r[|r| - 1..] == "/";
      assert |Normalize(Never, r)| == |r| - 1;
    } else if r != pathname {
      assert pathname == r + "/";
      if EndsWith(r, "/") {
        assert pathname[|pathname| - 2..] == "//";
        assert |pathname| == 2;
        assert r == "/";
      }
    }
  }

  /** A concrete path on which a second `never` rewrite changes the result. */
  lemma NeverNotIdempotentOnDoubleSlash()
    ensures Normalize(Never, "/a//") == "/a/"
    ensures Normalize(Never, Normalize(Never, "/a//")) == "/a"
  {
    assert EndsWith("/a//", "/");
    assert EndsWith("/a/", "/");
  }

  /** `always`: a path whose last segment names no file ends in `/`
      afterwards, a file path is left unchanged. */
  lemma AlwaysAppendsSlash(pathname: string)
    ensures var r := Normalize(Always, pathname);
      (!NamesFile(pathname) ==> EndsWith(r, "/"))
      && (NamesFile(pathname) ==> r == pathname)
      && StartsWith(r, pathname)
  {
    var r := Normalize(Always, pathname);
    if r != pathname {
      assert r[|r| - 1..] == "/";
      assert r[..|pathname|] == pathname;
    }
  }

  /** `always` is idempotent. */
  lemma {:induction false} AlwaysIdempotent(pathname: string)
    ensures Normalize(Always, Normalize(Always, pathname)) == Normalize(Always, pathname)
  {
    var r := Normalize(Always, pathname);
    if r != pathname {
      assert r == pathname + "/";
      LastSegmentAfterSlash(pathname);
      assert r[|r| - 1..] == "/";
    }
  }
}
