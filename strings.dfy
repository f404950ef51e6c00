/** The few JavaScript string operations the router relies on, stated over
    `seq<char>`: `startsWith`, `endsWith`, `split('/').pop()`,
    `split('#')[0]` and `split(/\s+/)` followed by `includes`. */
module Strings {

  datatype Option<T> = None | Some(value: T)

  /** `s.startsWith(prefix)` */
  predicate StartsWith(s: string, prefix: string) {
    |prefix| <= |s| && s[..|prefix|] == prefix
  }

  /** `s.endsWith(suffix)` */
  predicate EndsWith(s: string, suffix: string) {
    |suffix| <= |s| && s[|s| - |suffix|..] == suffix
  }

  /** `s.split('/').pop()`: the text after the last `/`, or all of `s`
      when it holds no `/`. The contract says this is the longest suffix
      of `s` free of `/`. */
  function LastSegment(s: string): (seg: string)
    ensures EndsWith(s, seg)
    ensures '/' !in seg
    ensures seg == s || s[|s| - |seg| - 1] == '/'
    decreases |s|
  {
    if s == [] || s[|s| - 1] == '/' then []
    else LastSegment(s[..|s| - 1]) + [s[|s| - 1]]
  }

  lemma LastSegmentAfterSlash(s: string)
    ensures LastSegment(s + "/") == []
  {
  }

  /** `s.split('#')[0]`: everything before the first `#`. */
  function BeforeHash(s: string): (r: string)
    ensures StartsWith(s, r)
    ensures '#' !in r
    ensures r == s || s[|r|] == '#'
  {
    if s == [] || s[0] == '#' then []
    else [s[0]] + BeforeHash(s[1..])
  }

  /** A prefix free of `#` passes through `BeforeHash` unchanged. */
  lemma {:induction false} BeforeHashAppend(a: string, b: string)
    requires '#' !in a
    ensures BeforeHash(a + b) == a + BeforeHash(b)
  {
    if a == [] {
      assert a + b == b;
    } else {
      assert a[0] in a;
      assert (a + b)[1..] == a[1..] + b;
      BeforeHashAppend(a[1..], b);
      assert a == [a[0]] + a[1..];
    }
  }

  /** The characters matched by `\s` in a JavaScript regular expression. */
  predicate IsSpace(c: char) {
    c in SpaceChars
  }

  const SpaceChars: set<char> :=
    {' ', '\t', '\n', '\r', '\U{000B}', '\U{000C}', '\U{00A0}', '\U{1680}',
     '\U{2000}', '\U{2001}', '\U{2002}', '\U{2003}', '\U{2004}', '\U{2005}',
     '\U{2006}', '\U{2007}', '\U{2008}', '\U{2009}', '\U{200A}',
     '\U{2028}', '\U{2029}', '\U{202F}', '\U{205F}', '\U{3000}', '\U{FEFF}'}

  predicate Spaceless(t: string) {
    forall c :: c in t ==> !IsSpace(c)
  }

  /** The longest prefix of `s` that holds no whitespace. */
  function Word(s: string): (w: string)
    ensures StartsWith(s, w)
    ensures forall k :: 0 <= k < |w| ==> !IsSpace(s[k])
    ensures w == s || IsSpace(s[|w|])
  {
    if s == [] || IsSpace(s[0]) then [] else [s[0]] + Word(s[1..])
  }

  /** `s` with its leading run of whitespace removed. */
  function TrimStart(s: string): (r: string)
    ensures EndsWith(s, r)
    ensures r == [] || !IsSpace(r[0])
    ensures forall i :: 0 <= i < |s| - |r| ==> IsSpace(s[i])
  {
    if s != [] && IsSpace(s[0]) then TrimStart(s[1..]) else s
  }

  /** `s.split(/\s+/)`: every maximal run of whitespace separates two
      pieces, so a leading or trailing run yields an empty first or last
      piece, and the empty string yields `[""]`. */
  function SplitWhitespace(s: string): (parts: seq<string>)
    ensures |parts| >= 1
    ensures forall k :: 0 <= k < |parts| ==> Spaceless(parts[k])
    decreases |s|
  {
    var w := Word(s);
    if w == s then [s]
    else [w] + SplitWhitespace(TrimStart(s[|w|..]))
  }

  /** `s.split(/\s+/).includes(token)` */
  predicate HasToken(s: string, token: string) {
    token in SplitWhitespace(s)
  }

  /** `token` stands in `s` at index `i`, between whitespace or the ends of `s`. */
  predicate DelimitedAt(s: string, token: string, i: int) {
    0 <= i && i + |token| <= |s| && s[i..i + |token|] == token
    && (i == 0 || IsSpace(s[i - 1]))
    && (i + |token| == |s| || IsSpace(s[i + |token|]))
  }

  /** At index 0 a whitespace-free token is delimited exactly when it is
      the first word. */
  lemma DelimitedAtStart(s: string, token: string)
    requires token != [] && Spaceless(token)
    ensures DelimitedAt(s, token, 0) <==> token == Word(s)
  {
  }

  /** Delimitation survives dropping a prefix that ends in whitespace. */
  lemma DelimitedShift(s: string, off: nat, token: string, j: nat, i: nat)
    requires 0 < off <= |s| && IsSpace(s[off - 1]) && i == off + j
    ensures DelimitedAt(s[off..], token, j) <==> DelimitedAt(s, token, i)
  {
    var rest := s[off..];
    if j + |token| <= |rest| {
      assert rest[j..j + |token|] == s[i..i + |token|];
      if j > 0 { assert rest[j - 1] == s[i - 1]; }
      if j + |token| < |rest| { assert rest[j + |token|] == s[i + |token|]; }
    }
  }

  lemma ShiftRight(s: string, off: nat, token: string, j: int)
    requires 0 < off <= |s| && IsSpace(s[off - 1])
    requires DelimitedAt(s[off..], token, j)
    ensures DelimitedAt(s, token, off + j)
  {
    DelimitedShift(s, off, token, j, off + j);
  }

  /** Where the piece after the first word begins: just past the first
      run of whitespace. */
  lemma FirstGap(s: string) returns (off: nat)
    requires Word(s) != s
    ensures |Word(s)| < off <= |s| && IsSpace(s[off - 1])
    ensures s[off..] == TrimStart(s[|Word(s)|..])
  {
    var rest := TrimStart(s[|Word(s)|..]);
    off := |s| - |rest|;
    assert s[off..] == rest;
  }

  /** Splitting a string that does not start with its whole first word
      yields that word followed by the pieces of what comes after the
      whitespace run. */
  lemma SplitUnfold(s: string, t: string)
    requires Word(s) != s
    ensures t in SplitWhitespace(s) <==> t == Word(s) || t in SplitWhitespace(TrimStart(s[|Word(s)|..]))
  {
  }

  /** One step of `HasTokenSound`: a piece other than the first word is a
      piece of what follows the first whitespace run, and a token delimited
      there is delimited in `s`. */
  lemma SoundStep(s: string, token: string) returns (off: nat)
    requires HasToken(s, token) && token != Word(s)
    ensures 0 < off <= |s| && HasToken(s[off..], token)
    ensures forall j :: DelimitedAt(s[off..], token, j) ==> DelimitedAt(s, token, off + j)
  {
    off := FirstGap(s);
    SplitUnfold(s, token);
    forall j | DelimitedAt(s[off..], token, j)
      ensures DelimitedAt(s, token, off + j)
    {
      ShiftRight(s, off, token, j);
    }
  }

  /** Every non-empty piece of the split stands in `s` between whitespace. */
  lemma {:induction false} HasTokenSound(s: string, token: string)
    requires token != [] && HasToken(s, token)
    ensures exists i :: DelimitedAt(s, token, i)
    decreases |s|
  {
    if token == Word(s) {
      assert DelimitedAt(s, token, 0);
    } else {
      var off := SoundStep(s, token);
      HasTokenSound(s[off..], token);
      var j :| DelimitedAt(s[off..], token, j);
      assert DelimitedAt(s, token, off + j);
    }
  }

  /** A delimited token other than at index 0 starts after the first
      whitespace run. */
  lemma DelimitedPastFirstGap(s: string, token: string, i: nat)
    requires token != [] && Spaceless(token)
    requires DelimitedAt(s, token, i) && i > 0
    ensures |Word(s)| < i
    ensures Word(s) != s && i >= |s| - |TrimStart(s[|Word(s)|..])|
  {
    var w := Word(s);
    assert !IsSpace(s[i]) by {
      assert s[i] == token[0];
      assert token[0] in token;
    }
    assert |w| < i;
    var tail := s[|w|..];
    assert tail[i - |w|] == s[i];
  }

  /** One step of `HasTokenComplete`: a token delimited past the first
      whitespace run is delimited in what follows that run. */
  lemma CompleteStep(s: string, token: string, i: nat) returns (off: nat, j: nat)
    requires token != [] && Spaceless(token)
    requires DelimitedAt(s, token, i) && i > 0
    ensures 0 < off <= |s| && DelimitedAt(s[off..], token, j)
    ensures HasToken(s[off..], token) ==> HasToken(s, token)
  {
    DelimitedPastFirstGap(s, token, i);
    off := FirstGap(s);
    SplitUnfold(s, token);
    j := i - off;
    DelimitedShift(s, off, token, j, i);
  }

  /** Every whitespace-free token delimited in `s` is a piece of the split. */
  lemma {:induction false} HasTokenComplete(s: string, token: string, i: nat)
    requires token != [] && Spaceless(token)
    requires DelimitedAt(s, token, i)
    ensures HasToken(s, token)
    decreases |s|
  {
    if i == 0 {
      DelimitedAtStart(s, token);
      assert SplitWhitespace(s)[0] == Word(s);
    } else {
      var off, j := CompleteStep(s, token, i);
      HasTokenComplete(s[off..], token, j);
    }
  }

  /** A non-empty token without whitespace is one of the pieces of
      `s.split(/\s+/)` exactly when it stands in `s` between whitespace. */
  lemma HasTokenIff(s: string, token: string)
    requires token != [] && Spaceless(token)
    ensures HasToken(s, token) <==> exists i :: DelimitedAt(s, token, i)
  {
    if HasToken(s, token) {
      HasTokenSound(s, token);
    }
    if i :| DelimitedAt(s, token, i) {
      HasTokenComplete(s, token, i);
    }
  }
}
