/** The subset of Redis glob-style patterns (the MATCH argument of SCAN)
    that the catalog uses: `*` matches any run of characters, every other
    character matches itself.  The patterns built by the cache contain no
    `?`, `[` or `\`, so the other metacharacters are not modelled. */
module Glob {

  predicate Match(pattern: string, s: string)
    decreases |pattern| + |s|
  {
    if pattern == [] then s == []
    else if pattern[0] == '*' then Match(pattern[1..], s) || (s != [] && Match(pattern, s[1..]))
    else s != [] && s[0] == pattern[0] && Match(pattern[1..], s[1..])
  }

  predicate HasPrefix(s: string, p: string) {
    |p| <= |s| && s[..|p|] == p
  }

  /** Appending to a string keeps every prefix it had. */
  lemma PrefixExtend(s: string, p: string, t: string)
    requires HasPrefix(s, p)
    ensures HasPrefix(s + t, p)
  {
    assert (s + t)[..|p|] == s[..|p|];
  }

  /** A lone `*` matches every string. */
  lemma {:induction false} StarMatchesAll(s: string)
    ensures Match("*", s)
    decreases |s|
  {
    if s != [] {
      StarMatchesAll(s[1..]);
    }
  }

  /** A literal text followed by `*` matches exactly the strings that
      begin with that text. */
  lemma {:induction false} PrefixStar(p: string, s: string)
    requires '*' !in p
    ensures Match(p + "*", s) <==> HasPrefix(s, p)
    decreases |p|
  {
    if p == [] {
      assert p + "*" == "*";
      StarMatchesAll(s);
    } else {
      assert (p + "*")[0] == p[0];
      assert (p + "*")[1..] == p[1..] + "*";
      if s != [] {
        PrefixStar(p[1..], s[1..]);
        assert HasPrefix(s, p) <==> s[0] == p[0] && HasPrefix(s[1..], p[1..]) by {
          if |p| <= |s| {
            assert s[..|p|] == [s[0]] + s[1..][..|p| - 1];
            assert p == [p[0]] + p[1..];
          }
        }
      }
    }
  }
}
