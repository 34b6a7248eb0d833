/** Host normalisation shared by the quick ping and the latency test:
    `host.replace("https://", "").replace("http://", "").split("/")[0]`. */
module HostName {
  import opened Numbers

  const Https: string := "https://"
  const Http: string := "http://"

  /** `pat` occurs in `s` starting at index `i`. */
  predicate MatchAt(s: string, pat: string, i: int) {
    0 <= i && i + |pat| <= |s| && s[i..i + |pat|] == pat
  }

  predicate Contains(s: string, pat: string) {
    exists i | 0 <= i <= |s| :: MatchAt(s, pat, i)
  }

  /** Java's `s.replace(pat, "")`: scanning left to right, every occurrence of
      `pat` that does not overlap an earlier one is removed. */
  function Without(s: string, pat: string): (r: string)
    requires |pat| > 0
    ensures |r| <= |s|
    decreases |s|
  {
    if |s| < |pat| then s
    else if s[..|pat|] == pat then Without(s[|pat|..], pat)
    else [s[0]] + Without(s[1..], pat)
  }

  /** A text in which `pat` does not occur is left as it is. */
  lemma {:induction false} WithoutNoOccurrence(s: string, pat: string)
    requires |pat| > 0
    requires !Contains(s, pat)
    ensures Without(s, pat) == s
    decreases |s|
  {
    if |s| >= |pat| {
      assert !MatchAt(s, pat, 0);
      forall i | 0 <= i <= |s| - 1 ensures !MatchAt(s[1..], pat, i) {
        NoMatchAfterFirst(s, pat, i);
      }
      WithoutNoOccurrence(s[1..], pat);
      assert s == [s[0]] + s[1..];
    }
  }

  /** The scheme-stripped text that is then split on '/'. */
  function Stripped(endpoint: string): string {
    Without(Without(endpoint, Https), Http)
  }

  /** The text before the first '/' of `s`, or all of `s` when it has none. */
  function UpToSlash(s: string): (r: string)
    ensures IsFirstSegment(r, s)
  {
    if s == [] || s[0] == '/' then [] else [s[0]] + UpToSlash(s[1..])
  }

  /** `r` is the part of `t` before its first '/'. */
  predicate IsFirstSegment(r: string, t: string) {
    r <= t && '/' !in r && (|r| == |t| || t[|r|] == '/')
  }

  predicate AllSlashes(s: string) {
    forall i :: 0 <= i < |s| ==> s[i] == '/'
  }

  /** Java's `s.split("/")[0]`. `split` drops trailing empty strings, so a non-empty
      text made only of '/' splits into an empty array and indexing it throws;
      that case is `None`. */
  function FirstSegment(s: string): (r: Option<string>)
    ensures r.None? <==> s != [] && AllSlashes(s)
    ensures r.Some? ==> IsFirstSegment(r.value, s)
  {
    if s != [] && AllSlashes(s) then None else Some(UpToSlash(s))
  }

  /** The host that `getPing` and `testLatency` probe, or `None` where the
      normalisation throws (and the caller then reports its failure sentinel). */
  function Normalise(endpoint: string): (r: Option<string>)
    ensures r.None? <==> Stripped(endpoint) != [] && AllSlashes(Stripped(endpoint))
    ensures r.Some? ==> IsFirstSegment(r.value, Stripped(endpoint))
  {
    FirstSegment(Stripped(endpoint))
  }

  /** A normalised host holds no '/', hence neither scheme prefix. */
  lemma NormalisedHasNoScheme(endpoint: string)
    requires Normalise(endpoint).Some?
    ensures !Contains(Normalise(endpoint).value, Https)
    ensures !Contains(Normalise(endpoint).value, Http)
  {
    var r := Normalise(endpoint).value;
    NoSlashNoMatch(r, Https, 7);
    NoSlashNoMatch(r, Http, 6);
  }

  /** A text without '/' contains no pattern that has a '/' in it. */
  lemma NoSlashNoMatch(r: string, pat: string, k: nat)
    requires '/' !in r
    requires k < |pat| && pat[k] == '/'
    ensures !Contains(r, pat)
  {
    forall i | MatchAt(r, pat, i) ensures false {
    }
  }

  /** Removing `pat` from `a + b` leaves `a` intact when no occurrence of `pat`
      starts inside `a`. */
  lemma {:induction false} WithoutKeepsPrefix(a: string, b: string, pat: string)
    requires |pat| > 0
    requires forall i :: 0 <= i < |a| ==> !MatchAt(a + b, pat, i)
    ensures Without(a + b, pat) == a + Without(b, pat)
    decreases |a|
  {
    if a == [] {
      assert a + b == b;
    } else {
      var s, t := a + b, a[1..] + b;
      assert s[1..] == t;
      assert !MatchAt(s, pat, 0);
      assert Without(s, pat) == [a[0]] + Without(t, pat);
      forall i | 0 <= i < |a| - 1 ensures !MatchAt(t, pat, i) {
        NoMatchAfterFirst(s, pat, i);
      }
      WithoutKeepsPrefix(a[1..], b, pat);
      assert a == [a[0]] + a[1..];
      assert [a[0]] + (a[1..] + Without(b, pat)) == a + Without(b, pat);
    }
  }

  /** An occurrence in `s[1..]` is an occurrence in `s`, one place later. */
  lemma NoMatchAfterFirst(s: string, pat: string, i: int)
    requires s != []
    requires !MatchAt(s, pat, i + 1)
    ensures !MatchAt(s[1..], pat, i)
  {
    if 0 <= i && i + |pat| <= |s| - 1 {
      assert s[1..][i..i + |pat|] == s[i + 1..i + 1 + |pat|];
    }
  }

  /** A text starting with '/' still starts with '/' once a pattern that does not
      start with '/' is removed from it. */
  lemma WithoutKeepsLeadingSlash(b: string, pat: string)
    requires |pat| > 0 && pat[0] != '/'
    requires PathText(b)
    ensures PathText(Without(b, pat))
  {
    if b != [] && |b| >= |pat| {
      assert b[..|pat|][0] != pat[0];
    }
  }

  /** No occurrence of a scheme pattern starts inside a host `h` that holds
      neither '/' nor ':' and is followed by a path starting with '/'. */
  lemma NoSchemeInsideHost(h: string, b: string, pat: string, colon: nat)
    requires colon < |pat| && pat[colon] == ':'
    requires forall j :: 0 < j <= colon ==> pat[j] != '/'
    requires HostText(h)
    requires PathText(b)
    ensures forall i :: 0 <= i < |h| ==> !MatchAt(h + b, pat, i)
  {
    forall i | 0 <= i < |h| ensures !MatchAt(h + b, pat, i) {
      var s := h + b;
      if i + colon < |h| {
        assert s[i + colon] == h[i + colon] && h[i + colon] in h;
        assert i + |pat| <= |s| ==> s[i..i + |pat|][colon] == s[i + colon];
      } else if i + |pat| <= |s| {
        var j := |h| - i;
        assert s[i + j] == b[0];
        assert s[i..i + |pat|][j] == s[i + j];
      }
    }
  }

  /** A host as the round trip below takes it: non-empty, with no '/' and no ':'. */
  predicate HostText(h: string) {
    forall c :: c in h ==> c != '/' && c != ':'
  }

  /** A path: empty or starting with '/'. */
  predicate PathText(p: string) {
    p == [] || p[0] == '/'
  }

  /** Removing a scheme from a host followed by a path touches the path only. */
  lemma WithoutAfterHost(h: string, path: string, pat: string, colon: nat)
    requires (pat == Https && colon == 5) || (pat == Http && colon == 4)
    requires HostText(h) && PathText(path)
    ensures Without(h + path, pat) == h + Without(path, pat)
    ensures PathText(Without(path, pat))
  {
    NoSchemeInsideHost(h, path, pat, colon);
    WithoutKeepsPrefix(h, path, pat);
    WithoutKeepsLeadingSlash(path, pat);
  }

  /** A leading occurrence is removed. */
  lemma WithoutLeading(pat: string, x: string)
    requires |pat| > 0
    ensures Without(pat + x, pat) == Without(x, pat)
  {
    assert (pat + x)[..|pat|] == pat;
    assert (pat + x)[|pat|..] == x;
  }

  /** "https://" does not occur in a text that starts with "http://". */
  lemma HttpsNotAfterHttp(x: string)
    ensures Without(Http + x, Https) == Http + Without(x, Https)
  {
    var s := Http + x;
    forall i | 0 <= i < |Http| ensures !MatchAt(s, Https, i) {
      if i + |Https| <= |s| {
        var w := s[i..i + |Https|];
        if i == 0 {
          assert w[4] == s[4] == Http[4] != Https[4];
        } else {
          assert w[0] == s[i] == Http[i] != Https[0];
        }
      }
    }
    WithoutKeepsPrefix(Http, x, Https);
  }

  /** A bare host written with or without a scheme and with or without a path
      normalises to itself. */
  lemma NormaliseRoundTrip(scheme: string, h: string, path: string)
    requires scheme == "" || scheme == Http || scheme == Https
    requires h != [] && HostText(h)
    requires PathText(path)
    ensures Normalise(scheme + h + path) == Some(h)
  {
    var rest := StrippedHostAndPath(scheme, h, path);
    assert '/' !in h;
    UpToSlashOfHostAndPath(h, rest);
    assert (h + rest)[0] == h[0] && h[0] in h;
    assert !AllSlashes(h + rest);
  }

  /** Stripping the schemes from scheme + host + path leaves the host and a path. */
  lemma StrippedHostAndPath(scheme: string, h: string, path: string) returns (rest: string)
    requires scheme == "" || scheme == Http || scheme == Https
    requires HostText(h) && PathText(path)
    ensures Stripped(scheme + h + path) == h + rest && PathText(rest)
  {
    if scheme == "" {
      assert scheme + h + path == h + path;
    } else {
      assert scheme + h + path == scheme + (h + path);
      LeadingSchemeIgnored(h + path);
    }
    WithoutAfterHost(h, path, Https, 5);
    var path1 := Without(path, Https);
    WithoutAfterHost(h, path1, Http, 4);
    rest := Without(path1, Http);
  }

  /** A leading scheme makes no difference to the stripped text. */
  lemma LeadingSchemeIgnored(x: string)
    ensures Stripped(Https + x) == Stripped(x)
    ensures Stripped(Http + x) == Stripped(x)
  {
    WithoutLeading(Https, x);
    HttpsNotAfterHttp(x);
    WithoutLeading(Http, Without(x, Https));
  }

  lemma {:induction false} UpToSlashOfHostAndPath(h: string, path: string)
    requires '/' !in h
    requires PathText(path)
    ensures UpToSlash(h + path) == h
  {
    if h == [] {
      assert h + path == path;
    } else {
      assert (h + path)[1..] == h[1..] + path;
      UpToSlashOfHostAndPath(h[1..], path);
    }
  }
}
