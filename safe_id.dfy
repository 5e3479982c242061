/**
 Feed identifier builder: `safe_id` of common.py.

 The URL arrives already split into the six fragments `urlparse` returns, and the
 SHA-1 hex digest of the full URL arrives as a parameter (hashing is not modelled).
 The identifier is the network location followed by the path with every `/`
 turned into `_` and every `+` into `-`; when the URL has parameters or a query,
 one hex character of the digest is appended; finally every trailing `_` and `-`
 is stripped.
 */
module SafeId {

  /** The fragments `urlparse` splits a URL into. */
  datatype UrlParts = UrlParts(
    scheme: string, netloc: string, path: string,
    params: string, query: string, fragment: string)

  /** A character `hexdigest()` can produce: lower-case hexadecimal. */
  predicate IsHexChar(c: char) {
    '0' <= c <= '9' || 'a' <= c <= 'f'
  }

  /** What `sha1(...).hexdigest()` returns: 40 lower-case hex characters. */
  predicate IsHexDigest(d: string) {
    |d| == 40 && forall i :: 0 <= i < |d| ==> IsHexChar(d[i])
  }

  /** The characters `rstrip('_-')` removes. */
  predicate IsSeparator(c: char) {
    c == '_' || c == '-'
  }

  /** `s.replace(x, y)` for one-character `x` and `y`: every `x` becomes `y`. */
  function Replace(s: string, x: char, y: char): (r: string)
    ensures |r| == |s|
    ensures forall i :: 0 <= i < |s| ==> r[i] == (if s[i] == x then y else s[i])
  {
    if s == [] then [] else [if s[0] == x then y else s[0]] + Replace(s[1..], x, y)
  }

  /** `s.rstrip('_-')`: the longest prefix of `s` that does not end in a separator. */
  function RStrip(s: string): (r: string)
    ensures r <= s
    ensures r == [] || !IsSeparator(r[|r| - 1])
    ensures forall i :: |r| <= i < |s| ==> IsSeparator(s[i])
    decreases |s|
  {
    if s != [] && IsSeparator(s[|s| - 1]) then RStrip(s[..|s| - 1]) else s
  }

  /** The path with `/` replaced by `_` and then `+` replaced by `-`. */
  function SafePath(path: string): (r: string)
    ensures |r| == |path|
    ensures forall i :: 0 <= i < |path| ==>
              r[i] == (if path[i] == '/' then '_' else if path[i] == '+' then '-' else path[i])
    ensures forall i :: 0 <= i < |r| ==> r[i] != '/' && r[i] != '+'
  {
    Replace(Replace(path, '/', '_'), '+', '-')
  }

  /** A path that is one leading `/` and then no `/` or `+` becomes `_` and the rest. */
  lemma SafePathOfSimplePath(p: string)
    requires p != [] && p[0] == '/'
    requires forall i :: 1 <= i < |p| ==> p[i] != '/' && p[i] != '+'
    ensures SafePath(p) == "_" + p[1..]
  {
    var r := SafePath(p);
    forall i | 0 <= i < |r| ensures r[i] == ("_" + p[1..])[i] {
    }
  }

  /** The identifier before the digest character and the strip: netloc then the safe path. */
  function Base(u: UrlParts): string {
    u.netloc + SafePath(u.path)
  }

  /** `fragments.params or fragments.query`: true when either is a non-empty string. */
  predicate HasQuery(u: UrlParts) {
    u.params != [] || u.query != []
  }

  /** `safe_id(url)`, with `digest` the hex SHA-1 digest of the full URL. */
  function SafeIdOf(u: UrlParts, digest: string): (id: string)
    requires IsHexDigest(digest)
    ensures id == [] || !IsSeparator(id[|id| - 1])
  {
    var safe := Base(u) + (if HasQuery(u) then [digest[6]] else []);
    RStrip(safe)
  }

  /** Appending one non-separator character protects everything before it from the strip. */
  lemma RStripKeepsNonSeparatorEnd(s: string, c: char)
    requires !IsSeparator(c)
    ensures RStrip(s + [c]) == s + [c]
  {
  }

  /** A prefix that does not end in a separator survives the strip. */
  lemma {:induction false} RStripKeepsPrefix(a: string, b: string)
    requires a == [] || !IsSeparator(a[|a| - 1])
    ensures a <= RStrip(a + b)
    decreases |b|
  {
    if b != [] && IsSeparator(b[|b| - 1]) {
      assert (a + b)[..|a + b| - 1] == a + b[..|b| - 1];
      RStripKeepsPrefix(a, b[..|b| - 1]);
    }
  }

  /** Without parameters or query: the identifier is netloc + safe path with its
      trailing separators removed, and nothing more is removed. */
  lemma SafeIdWithoutQuery(u: UrlParts, digest: string)
    requires IsHexDigest(digest) && !HasQuery(u)
    ensures SafeIdOf(u, digest) <= Base(u)
    ensures forall i :: |SafeIdOf(u, digest)| <= i < |Base(u)| ==> IsSeparator(Base(u)[i])
  {
    assert Base(u) + [] == Base(u);
  }

  /** Without parameters or query, a netloc + safe path that does not end in a separator
      is the identifier itself. */
  lemma SafeIdWithoutQueryCleanEnd(u: UrlParts, digest: string)
    requires IsHexDigest(digest) && !HasQuery(u)
    requires Base(u) != [] && !IsSeparator(Base(u)[|Base(u)| - 1])
    ensures SafeIdOf(u, digest) == Base(u)
  {
    assert Base(u) + [] == Base(u);
  }

  /** With parameters or query: the unstripped netloc + safe path followed by exactly
      the seventh digest character, which is never stripped. */
  lemma SafeIdWithQuery(u: UrlParts, digest: string)
    requires IsHexDigest(digest) && HasQuery(u)
    ensures SafeIdOf(u, digest) == Base(u) + [digest[6]]
    ensures |SafeIdOf(u, digest)| == |Base(u)| + 1
    ensures IsHexChar(SafeIdOf(u, digest)[|Base(u)|])
  {
    assert IsHexChar(digest[6]);
    RStripKeepsNonSeparatorEnd(Base(u), digest[6]);
  }

  /** No `/` or `+` taken from the path survives: past the netloc, the identifier
      has only path characters already rewritten, or the hex digest character. */
  lemma SafeIdPathIsClean(u: UrlParts, digest: string)
    requires IsHexDigest(digest)
    ensures forall i :: |u.netloc| <= i < |SafeIdOf(u, digest)| ==>
              SafeIdOf(u, digest)[i] != '/' && SafeIdOf(u, digest)[i] != '+'
  {
    var id := SafeIdOf(u, digest);
    if HasQuery(u) {
      SafeIdWithQuery(u, digest);
      assert IsHexChar(digest[6]);
      forall i | |u.netloc| <= i < |id| ensures id[i] != '/' && id[i] != '+' {
        if i < |Base(u)| {
          assert id[i] == SafePath(u.path)[i - |u.netloc|];
        }
      }
    } else {
      SafeIdWithoutQuery(u, digest);
      forall i | |u.netloc| <= i < |id| ensures id[i] != '/' && id[i] != '+' {
        assert id[i] == Base(u)[i] == SafePath(u.path)[i - |u.netloc|];
      }
    }
  }

  /** The network location is copied unchanged to the front of the identifier,
      unless the strip reaches into it (only possible when it ends in a separator
      and nothing follows but separators). */
  lemma SafeIdKeepsNetloc(u: UrlParts, digest: string)
    requires IsHexDigest(digest)
    requires u.netloc == [] || !IsSeparator(u.netloc[|u.netloc| - 1])
    ensures u.netloc <= SafeIdOf(u, digest)
  {
    var tail := SafePath(u.path) + (if HasQuery(u) then [digest[6]] else []);
    assert Base(u) + (if HasQuery(u) then [digest[6]] else []) == u.netloc + tail;
    RStripKeepsPrefix(u.netloc, tail);
  }

  /** For every netloc, its stripped form is a prefix of the identifier: the strip can
      reach into the netloc only through its own trailing separators. */
  lemma SafeIdKeepsStrippedNetloc(u: UrlParts, digest: string)
    requires IsHexDigest(digest)
    ensures RStrip(u.netloc) <= SafeIdOf(u, digest)
  {
    var tail := SafePath(u.path) + (if HasQuery(u) then [digest[6]] else []);
    assert Base(u) + (if HasQuery(u) then [digest[6]] else []) == u.netloc + tail;
    RStripOfPrefix(u.netloc, tail);
  }

  /** Stripping `a` alone never removes more of it than stripping `a + b` does. */
  lemma RStripOfPrefix(a: string, b: string)
    ensures RStrip(a) <= RStrip(a + b)
  {
    var n := RStrip(a);
    var rest := a[|n|..] + b;
    assert a + b == n + rest;
    RStripKeepsPrefix(n, rest);
  }

  /** A string with no `/` and no `+` in it. */
  predicate NoSlashOrPlus(s: string) {
    forall i :: 0 <= i < |s| ==> s[i] != '/' && s[i] != '+'
  }

  /** The identifier is free of `/` and `+` exactly when the netloc is. */
  lemma SafeIdHasNoSlashOrPlus(u: UrlParts, digest: string)
    requires IsHexDigest(digest)
    ensures NoSlashOrPlus(SafeIdOf(u, digest)) <==> NoSlashOrPlus(u.netloc)
  {
    var id := SafeIdOf(u, digest);
    if NoSlashOrPlus(u.netloc) {
      var safe := Base(u) + (if HasQuery(u) then [digest[6]] else []);
      assert id <= safe;
      SafeIdPathIsClean(u, digest);
      forall i | 0 <= i < |id| ensures id[i] != '/' && id[i] != '+' {
        if i < |u.netloc| {
          assert id[i] == safe[i] == u.netloc[i];
        }
      }
    } else {
      var j :| 0 <= j < |u.netloc| && (u.netloc[j] == '/' || u.netloc[j] == '+');
      NetlocSlashOrPlusReachesId(u, digest, j);
    }
  }

  /** One character at a time: the identifier holds a `/` (or a `+`) exactly when the
      netloc does. */
  lemma SafeIdHasCharIff(u: UrlParts, digest: string, c: char)
    requires IsHexDigest(digest) && (c == '/' || c == '+')
    ensures (c in SafeIdOf(u, digest)) <==> (c in u.netloc)
  {
    var id := SafeIdOf(u, digest);
    if c in u.netloc {
      var j :| 0 <= j < |u.netloc| && u.netloc[j] == c;
      NetlocSlashOrPlusReachesId(u, digest, j);
    }
    if c in id {
      var i :| 0 <= i < |id| && id[i] == c;
      SafeIdPathIsClean(u, digest);
      var safe := Base(u) + (if HasQuery(u) then [digest[6]] else []);
      assert id <= safe;
      assert id[i] == safe[i] == u.netloc[i];
    }
  }

  /** A `/` or `+` in the netloc is never stripped: the strip stops at it, so it stays in
      the identifier at the same position. */
  lemma NetlocSlashOrPlusReachesId(u: UrlParts, digest: string, j: nat)
    requires IsHexDigest(digest)
    requires j < |u.netloc| && (u.netloc[j] == '/' || u.netloc[j] == '+')
    ensures j < |SafeIdOf(u, digest)| && SafeIdOf(u, digest)[j] == u.netloc[j]
  {
    var tail := SafePath(u.path) + (if HasQuery(u) then [digest[6]] else []);
    assert Base(u) + (if HasQuery(u) then [digest[6]] else []) == u.netloc + tail;
    RStripKeepsNonSeparator(u.netloc, tail, j);
  }

  /** A character that is not a separator stops the strip: it and all before it stay. */
  lemma RStripKeepsNonSeparator(a: string, b: string, j: nat)
    requires j < |a| && !IsSeparator(a[j])
    ensures j < |RStrip(a + b)| && RStrip(a + b)[j] == a[j]
  {
    var head, rest := a[..j + 1], a[j + 1..] + b;
    assert head + rest == a + b;
    RStripKeepsPrefix(head, rest);
  }

  /** The netloc is not rewritten: a `+` in it (as in a user-info part) reaches the identifier. */
  lemma NetlocPlusSurvives(u: UrlParts, digest: string)
    requires IsHexDigest(digest)
    requires u.netloc == "me+feeds@example.com" && u.path == "/rss" && u.params == "" && u.query == ""
    ensures SafeIdOf(u, digest) == "me+feeds@example.com_rss"
    ensures SafeIdOf(u, digest)[2] == '+'
  {
    SafePathOfSimplePath(u.path);
    assert Base(u) == "me+feeds@example.com_rss";
    SafeIdWithoutQueryCleanEnd(u, digest);
  }

  /** A root path adds nothing: the identifier is the netloc alone. */
  lemma RootPathGivesNetloc(u: UrlParts, digest: string)
    requires IsHexDigest(digest) && !HasQuery(u)
    requires u.path == "/" || u.path == ""
    requires u.netloc == [] || !IsSeparator(u.netloc[|u.netloc| - 1])
    ensures SafeIdOf(u, digest) == u.netloc
  {
    SafeIdKeepsNetloc(u, digest);
    SafeIdWithoutQuery(u, digest);
  }

  /** An empty netloc with a root path gives an empty identifier, although the URL is not empty. */
  lemma EmptyNetlocGivesEmptyId(u: UrlParts, digest: string)
    requires IsHexDigest(digest)
    requires u.netloc == "" && u.path == "/" && u.params == "" && u.query == ""
    ensures SafeIdOf(u, digest) == ""
  {
    RootPathGivesNetloc(u, digest);
  }

  /** `http://example.com/feed.xml` gives `example.com_feed.xml`. */
  lemma ExampleFeed(u: UrlParts, digest: string)
    requires IsHexDigest(digest)
    requires u.netloc == "example.com" && u.path == "/feed.xml" && u.params == "" && u.query == ""
    ensures SafeIdOf(u, digest) == "example.com_feed.xml"
  {
    SafePathOfSimplePath(u.path);
    assert Base(u) == "example.com_feed.xml";
    SafeIdWithoutQueryCleanEnd(u, digest);
  }

  /** `http://example.com/feed.xml?x=1` gives `example.com_feed.xml` and one hex digit. */
  lemma ExampleFeedWithQuery(u: UrlParts, digest: string)
    requires IsHexDigest(digest)
    requires u.netloc == "example.com" && u.path == "/feed.xml" && u.params == "" && u.query == "x=1"
    ensures SafeIdOf(u, digest) == "example.com_feed.xml" + [digest[6]]
    ensures IsHexChar(SafeIdOf(u, digest)[20])
  {
    SafePathOfSimplePath(u.path);
    assert Base(u) == "example.com_feed.xml";
    SafeIdWithQuery(u, digest);
  }

  /** Scheme and fragment never reach the identifier; without a query, neither does the
      digest, so URLs differing only in scheme or fragment get the same identifier. */
  lemma SchemeAndFragmentIgnored(u: UrlParts, scheme: string, fragment: string, d1: string, d2: string)
    requires IsHexDigest(d1) && IsHexDigest(d2) && !HasQuery(u)
    ensures SafeIdOf(u, d1) == SafeIdOf(u.(scheme := scheme, fragment := fragment), d2)
  {
  }
}
