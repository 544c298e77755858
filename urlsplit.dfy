/**
 * The two URL helpers of Python 2's urllib that the client uses to take
 * its endpoint apart: splittype (the pattern ^([^/:]+):) and splithost
 * (the pattern ^//([^/?]*)(.*)$).
 */
module UrlSplit {
  import opened Wrappers

  /** Characters that end a scheme. */
  const SchemeStops: set<char> := {'/', ':'}

  /** Characters that end a host. */
  const HostStops: set<char> := {'/', '?'}

  /** Length of the longest prefix of s that holds no character of stops. */
  function RunUntil(s: string, stops: set<char>): (k: nat)
    ensures k <= |s|
    ensures forall i :: 0 <= i < k ==> s[i] !in stops
    ensures k < |s| ==> s[k] in stops
  {
    if s == [] || s[0] in stops then 0 else 1 + RunUntil(s[1..], stops)
  }

  /** A run of characters free of stops, followed by a stop or nothing, is the whole run. */
  lemma {:induction false} RunUntilOf(a: string, b: string, stops: set<char>)
    requires forall i :: 0 <= i < |a| ==> a[i] !in stops
    requires b == [] || b[0] in stops
    ensures RunUntil(a + b, stops) == |a|
  {
    if a != [] {
      assert (a + b)[0] == a[0];
      assert (a + b)[1..] == a[1..] + b;
      RunUntilOf(a[1..], b, stops);
    }
  }

  /** ASCII lower-casing, as Python 2's str.lower in the C locale. */
  function LowerChar(c: char): char
  {
    if 'A' <= c <= 'Z' then (c as int + 32) as char else c
  }

  function Lower(s: string): string
  {
    seq(|s|, i requires 0 <= i < |s| => LowerChar(s[i]))
  }

  /** A non-empty run of characters other than '/' and ':'. */
  predicate SchemeText(p: string)
  {
    |p| >= 1 && forall i :: 0 <= i < |p| ==> p[i] !in SchemeStops
  }

  /** Characters other than '/' and '?'. */
  predicate HostText(h: string)
  {
    forall i :: 0 <= i < |h| ==> h[i] !in HostStops
  }

  /** What may follow a host: nothing, or a '/' or '?' and the rest. */
  predicate PathText(p: string)
  {
    p == [] || p[0] in HostStops
  }

  datatype TypeSplit = TypeSplit(scheme: Option<string>, rest: string)

  /**
   * urllib.splittype: a leading scheme text followed by ':' is the scheme,
   * lower-cased, and what follows the ':' is the rest; otherwise there is
   * no scheme and the rest is the whole input.
   */
  function SplitType(url: string): (r: TypeSplit)
    ensures r.scheme.None? ==> r.rest == url
    ensures r.scheme.Some? ==>
      |r.rest| < |url| &&
      var k := |url| - |r.rest| - 1;
      SchemeText(url[..k]) && url == url[..k] + ":" + r.rest && r.scheme.value == Lower(url[..k])
  {
    var k := RunUntil(url, SchemeStops);
    if 1 <= k < |url| && url[k] == ':' then
      assert url == url[..k] + ":" + url[k + 1..];
      TypeSplit(Some(Lower(url[..k])), url[k + 1..])
    else
      TypeSplit(None, url)
  }

  /** Every input that starts with a scheme text and ':' has its scheme found. */
  lemma SplitTypeFinds(p: string, rest: string)
    requires SchemeText(p)
    ensures SplitType(p + ":" + rest) == TypeSplit(Some(Lower(p)), rest)
  {
    var url := p + ":" + rest;
    assert url == p + (":" + rest);
    RunUntilOf(p, ":" + rest, SchemeStops);
    assert url[|p|] == ':';
    assert url[..|p|] == p;
    assert url[|p| + 1..] == rest;
  }

  /** An input with no ':' at all has no scheme. */
  lemma SplitTypeNeedsColon(url: string)
    requires forall i :: 0 <= i < |url| ==> url[i] != ':'
    ensures SplitType(url) == TypeSplit(None, url)
  {
  }

  datatype HostSplit = HostSplit(host: Option<string>, path: string)

  /**
   * urllib.splithost: after a leading "//", the run of characters other
   * than '/' and '?' is the host and the rest is the path; without the
   * leading "//" there is no host and the path is the whole input.
   */
  function SplitHost(url: string): (r: HostSplit)
    ensures r.host.Some? <==> |url| >= 2 && url[..2] == "//"
    ensures r.host.None? ==> r.path == url
    ensures r.host.Some? ==>
      url == "//" + r.host.value + r.path && HostText(r.host.value) && PathText(r.path)
  {
    if |url| >= 2 && url[..2] == "//" then
      var tail := url[2..];
      var k := RunUntil(tail, HostStops);
      assert url == "//" + tail[..k] + tail[k..];
      HostSplit(Some(tail[..k]), tail[k..])
    else
      HostSplit(None, url)
  }

  /** Every "//", host and path is taken apart into that host and that path. */
  lemma SplitHostFinds(h: string, path: string)
    requires HostText(h) && PathText(path)
    ensures SplitHost("//" + h + path) == HostSplit(Some(h), path)
  {
    var url := "//" + h + path;
    assert url[..2] == "//";
    assert url[2..] == h + path;
    RunUntilOf(h, path, HostStops);
    assert (h + path)[..|h|] == h;
    assert (h + path)[|h|..] == path;
  }
}
