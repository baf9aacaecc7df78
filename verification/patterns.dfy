/**
 The two regular expressions of the evaluator, written as predicates over
 strings:

 - `/^[a-z]{10,}\.com$/`, matched against the host part of the lower-cased URL;
 - `/^(http[s]?:\/\/)?(\d{1,3}\.){3}\d{1,3}(:\d+)?(\/.*)?$/`, matched against the
   URL exactly as received, so its scheme is case-sensitive.

 The second is given as a deterministic parser `ParseIp` together with the
 value `IpUrl` it recovers; `Render` spells an `IpUrl` back out, and the two
 round-trip lemmas show that the strings the parser accepts are exactly the
 renderings of well-formed `IpUrl` values, which is the language of the
 regular expression.
 */
module Patterns {
  import opened Text
  import opened Results

  /** Ten or more letters `a`-`z`, then exactly `.com`, nothing else. */
  predicate IsNonsenseDomain(d: string) {
    && |d| >= 14
    && EndsWith(d, ".com")
    && forall i :: 0 <= i < |d| - 4 ==> IsLowerLetter(d[i])
  }

  predicate AllLowerLetters(s: string) {
    forall i :: 0 <= i < |s| ==> IsLowerLetter(s[i])
  }

  /** The language of `/^[a-z]{10,}\.com$/`: ten or more letters `a`-`z`
      followed by `.com`, and nothing else. */
  lemma NonsenseDomainIff(d: string)
    ensures IsNonsenseDomain(d) <==> exists name :: |name| >= 10 && AllLowerLetters(name) && d == name + ".com"
  {
    if IsNonsenseDomain(d) {
      var name := d[..|d| - 4];
      assert d == name + ".com";
      assert AllLowerLetters(name);
    }
    if exists name :: |name| >= 10 && AllLowerLetters(name) && d == name + ".com" {
      var name :| |name| >= 10 && AllLowerLetters(name) && d == name + ".com";
      assert d[|d| - 4..] == ".com";
      assert forall i :: 0 <= i < |d| - 4 ==> d[i] == name[i];
    }
  }

  /** A nonsense domain splits on `.` into exactly two pieces: the letters and `com`. */
  lemma NonsenseDomainPieces(d: string)
    requires IsNonsenseDomain(d)
    ensures Split(d, '.') == [d[..|d| - 4], "com"]
    ensures IsLowerLetter(d[0])
  {
    var name := d[..|d| - 4];
    assert '.' !in name by {
      forall i | 0 <= i < |name|
        ensures name[i] != '.'
      {
        assert IsLowerLetter(d[i]);
      }
    }
    assert d == name + ['.'] + "com";
    SplitJoin([name, "com"], '.');
  }

  /** The characters JavaScript's `.` refuses to match. */
  predicate IsLineTerminator(c: char) {
    c == '\n' || c == '\r' || c == '\U{2028}' || c == '\U{2029}'
  }

  predicate AllDigits(s: string) {
    forall i :: 0 <= i < |s| ==> IsDigit(s[i])
  }

  /** `\d{1,3}`: one to three ASCII digits. */
  predicate IsDigitGroup(g: string) {
    1 <= |g| <= 3 && AllDigits(g)
  }

  predicate HasNoLineTerminator(s: string) {
    forall i :: 0 <= i < |s| ==> !IsLineTerminator(s[i])
  }

  /** `(\d{1,3}\.){3}\d{1,3}`: four digit groups. */
  const HostGroups: nat := 4

  /** A URL of the shape the IP pattern describes, taken apart. */
  datatype IpUrl = IpUrl(scheme: string, groups: seq<string>, port: Option<string>, path: Option<string>) {

    predicate Valid() {
      && (scheme == "" || scheme == "http://" || scheme == "https://")
      && ValidHost(groups)
      && ValidPort(port)
      && ValidPath(path)
    }

    function Render(): string
      requires |groups| >= 1
    {
      scheme + HostText(groups) + PortText(port) + PathText(path)
    }
  }

  predicate ValidHost(groups: seq<string>) {
    |groups| == HostGroups && forall i :: 0 <= i < |groups| ==> IsDigitGroup(groups[i])
  }

  predicate ValidPort(port: Option<string>) {
    port.Some? ==> |port.value| >= 1 && AllDigits(port.value)
  }

  predicate ValidPath(path: Option<string>) {
    path.Some? ==> HasNoLineTerminator(path.value)
  }

  lemma RenderParts(ip: IpUrl)
    requires |ip.groups| >= 1
    ensures ip.Render() == ip.scheme + (HostText(ip.groups) + (PortText(ip.port) + PathText(ip.path)))
  {
  }

  /** The digit groups joined by dots. */
  function HostText(groups: seq<string>): string
    requires |groups| >= 1
  {
    Join(groups, '.')
  }

  function PortText(port: Option<string>): string {
    if port.Some? then ":" + port.value else ""
  }

  function PathText(path: Option<string>): string {
    if path.Some? then "/" + path.value else ""
  }

  /** The length of the longest run of digits at the front of `s`. */
  function DigitRun(s: string): (n: nat)
    ensures n <= |s|
    ensures AllDigits(s[..n])
    ensures n < |s| ==> !IsDigit(s[n])
    decreases |s|
  {
    if |s| > 0 && IsDigit(s[0]) then
      var m := DigitRun(s[1..]);
      assert s[..m + 1] == [s[0]] + s[1..][..m];
      m + 1
    else 0
  }

  lemma {:induction false} DigitRunOf(g: string, rest: string)
    requires AllDigits(g)
    requires |rest| == 0 || !IsDigit(rest[0])
    ensures DigitRun(g + rest) == |g|
    decreases |g|
  {
    if |g| > 0 {
      assert (g + rest)[1..] == g[1..] + rest;
      DigitRunOf(g[1..], rest);
    } else {
      assert g + rest == rest;
    }
  }

  /** The optional scheme: matched case-sensitively, at most once. */
  function SchemeOf(u: string): (scheme: string)
    ensures scheme == "" || scheme == "http://" || scheme == "https://"
    ensures StartsWith(u, scheme)
  {
    if StartsWith(u, "http://") then "http://"
    else if StartsWith(u, "https://") then "https://"
    else ""
  }

  /** One digit group: a maximal run of one to three digits. */
  function Group(s: string): (r: Option<(string, string)>)
    ensures r.Some? ==> IsDigitGroup(r.value.0) && r.value.0 + r.value.1 == s
    ensures r.Some? ==> |r.value.1| == 0 || !IsDigit(r.value.1[0])
  {
    var n := DigitRun(s);
    if 1 <= n <= 3 then
      assert s == s[..n] + s[n..];
      Some((s[..n], s[n..]))
    else None
  }

  /** A digit group followed by a dot. */
  function GroupDot(s: string): (r: Option<(string, string)>)
    ensures r.Some? ==> IsDigitGroup(r.value.0) && s == r.value.0 + "." + r.value.1
  {
    var g :- Group(s);
    if |g.1| > 0 && g.1[0] == '.' then
      assert s == g.0 + "." + g.1[1..];
      Some((g.0, g.1[1..]))
    else None
  }

  lemma GroupOf(g: string, rest: string)
    requires IsDigitGroup(g)
    requires |rest| == 0 || !IsDigit(rest[0])
    ensures Group(g + rest) == Some((g, rest))
  {
    DigitRunOf(g, rest);
    assert (g + rest)[..|g|] == g && (g + rest)[|g|..] == rest;
  }

  lemma GroupDotOf(g: string, rest: string)
    requires IsDigitGroup(g)
    ensures GroupDot(g + "." + rest) == Some((g, rest))
  {
    assert g + "." + rest == g + ("." + rest);
    GroupOf(g, "." + rest);
  }

  /** `n` digit groups separated by dots at the front of `s`: the groups and what follows. */
  function ParseGroups(s: string, n: nat): (r: Option<(seq<string>, string)>)
    requires n >= 1
    ensures r.Some? ==> |r.value.0| == n && forall i :: 0 <= i < n ==> IsDigitGroup(r.value.0[i])
    ensures r.Some? ==> s == HostText(r.value.0) + r.value.1
    ensures r.Some? ==> |r.value.1| == 0 || !IsDigit(r.value.1[0])
    decreases |s|
  {
    if n == 1 then
      match Group(s)
      case None => None
      case Some(g) => Some(([g.0], g.1))
    else
      match GroupDot(s)
      case None => None
      case Some(g) =>
        match ParseGroups(g.1, n - 1)
        case None => None
        case Some(more) =>
          JoinCons(g.0, more.0, more.1);
          Some(([g.0] + more.0, more.1))
  }

  lemma JoinCons(g: string, groups: seq<string>, rest: string)
    requires |groups| >= 1
    ensures HostText([g] + groups) + rest == g + "." + (HostText(groups) + rest)
  {
    assert ([g] + groups)[1..] == groups;
  }

  lemma ParseGroupsStep(s: string, n: nat, g: string, tail: string, more: seq<string>, rest: string)
    requires n >= 2
    requires GroupDot(s) == Some((g, tail))
    requires ParseGroups(tail, n - 1) == Some((more, rest))
    ensures ParseGroups(s, n) == Some(([g] + more, rest))
  {
  }

  lemma {:induction false} ParseGroupsOf(groups: seq<string>, rest: string)
    requires |groups| >= 1
    requires forall i :: 0 <= i < |groups| ==> IsDigitGroup(groups[i])
    requires |rest| == 0 || !IsDigit(rest[0])
    ensures ParseGroups(HostText(groups) + rest, |groups|) == Some((groups, rest))
    decreases |groups|
  {
    if |groups| == 1 {
      assert HostText(groups) == groups[0] && [groups[0]] == groups;
      GroupOf(groups[0], rest);
    } else {
      var g0, more := groups[0], groups[1..];
      var tail := HostText(more) + rest;
      var s := HostText(groups) + rest;
      assert [g0] + more == groups;
      JoinCons(g0, more, rest);
      assert s == g0 + "." + tail;
      GroupDotOf(g0, tail);
      assert GroupDot(s) == Some((g0, tail));
      ParseGroupsOf(more, rest);
      ParseGroupsStep(s, |groups|, g0, tail, more, rest);
    }
  }

  /** `(:\d+)?`: an optional `:` and one or more digits, the digits taken greedily. */
  function Port(s: string): (r: Option<(Option<string>, string)>)
    ensures r.Some? ==> ValidPort(r.value.0) && s == PortText(r.value.0) + r.value.1
  {
    if |s| > 0 && s[0] == ':' then
      var n := DigitRun(s[1..]);
      if n >= 1 then
        assert s == ":" + s[1..][..n] + s[1..][n..];
        Some((Some(s[1..][..n]), s[1..][n..]))
      else None
    else Some((None, s))
  }

  /** `(\/.*)?$`: nothing, or `/` and the rest of the input, which must hold no line terminator. */
  function Path(s: string): (r: Option<Option<string>>)
    ensures r.Some? ==> ValidPath(r.value) && s == PathText(r.value)
  {
    if |s| == 0 then Some(None)
    else if s[0] == '/' && HasNoLineTerminator(s[1..]) then
      assert s == "/" + s[1..];
      Some(Some(s[1..]))
    else None
  }

  /** Port and path, which together must reach the end of the input. */
  function ParseTail(s: string): (r: Option<(Option<string>, Option<string>)>)
    ensures r.Some? ==> ValidPort(r.value.0) && ValidPath(r.value.1)
    ensures r.Some? ==> s == PortText(r.value.0) + PathText(r.value.1)
  {
    var p :- Port(s);
    var path :- Path(p.1);
    Some((p.0, path))
  }

  lemma PortOf(port: Option<string>, rest: string)
    requires ValidPort(port)
    requires |rest| == 0 || rest[0] == '/'
    ensures Port(PortText(port) + rest) == Some((port, rest))
  {
    var s := PortText(port) + rest;
    if port.Some? {
      assert s == ":" + (port.value + rest);
      assert s[1..] == port.value + rest;
      DigitRunOf(port.value, rest);
      assert s[1..][..|port.value|] == port.value;
      assert s[1..][|port.value|..] == rest;
    } else {
      assert s == rest;
    }
  }

  lemma PathOf(path: Option<string>)
    requires ValidPath(path)
    ensures Path(PathText(path)) == Some(path)
  {
    if path.Some? {
      assert PathText(path)[1..] == path.value;
    }
  }

  lemma ParseTailOf(port: Option<string>, path: Option<string>)
    requires ValidPort(port) && ValidPath(path)
    ensures ParseTail(PortText(port) + PathText(path)) == Some((port, path))
  {
    PortOf(port, PathText(path));
    PathOf(path);
  }

  /** The IP pattern as a parser. */
  function ParseIp(u: string): Option<IpUrl> {
    var scheme := SchemeOf(u);
    match ParseGroups(u[|scheme|..], HostGroups)
    case None => None
    case Some(host) =>
      match ParseTail(host.1)
      case None => None
      case Some(tail) => Some(IpUrl(scheme, host.0, tail.0, tail.1))
  }

  /** The IP pattern test of the evaluator. */
  predicate IsIpUrl(u: string) {
    ParseIp(u).Some?
  }

  lemma SchemeOfPrefixed(scheme: string, rest: string)
    requires scheme == "" || scheme == "http://" || scheme == "https://"
    requires |rest| > 0 && IsDigit(rest[0])
    ensures SchemeOf(scheme + rest) == scheme
  {
    var u := scheme + rest;
    if scheme == "" {
      assert u[0] == rest[0];
    } else if scheme == "https://" {
      assert u[4] == 's';
    }
  }

  /** Whatever the parser returns is well formed and spells out the input. */
  lemma ParsedIsRendering(u: string)
    requires IsIpUrl(u)
    ensures ParseIp(u).value.Valid()
    ensures ParseIp(u).value.Render() == u
  {
    var scheme := SchemeOf(u);
    var rest := u[|scheme|..];
    StartsWithSplit(u, scheme);
    var host := ParseGroups(rest, HostGroups).value;
    var tail := ParseTail(host.1).value;
    var ip := IpUrl(scheme, host.0, tail.0, tail.1);
    assert ParseIp(u) == Some(ip);
    RenderParts(ip);
    AppendChain(u, scheme, rest, HostText(host.0), host.1, PortText(tail.0), PathText(tail.1));
  }

  /** The parser recovers every well-formed IP URL from its rendering. */
  lemma ParseRendered(ip: IpUrl)
    requires ip.Valid()
    ensures ParseIp(ip.Render()) == Some(ip)
  {
    var tail := PortText(ip.port) + PathText(ip.path);
    var u := ip.Render();
    var body := HostText(ip.groups) + tail;
    assert u == ip.scheme + body;
    assert body[0] == ip.groups[0][0];
    SchemeOfPrefixed(ip.scheme, body);
    assert u[|ip.scheme|..] == body;
    ParseGroupsOf(ip.groups, tail);
    ParseTailOf(ip.port, ip.path);
  }

  /** The IP test accepts exactly the renderings of well-formed IP URLs. */
  lemma IsIpUrlIff(u: string)
    ensures IsIpUrl(u) <==> exists ip: IpUrl :: ip.Valid() && ip.Render() == u
  {
    if IsIpUrl(u) {
      ParsedIsRendering(u);
    }
    forall ip: IpUrl | ip.Valid() && ip.Render() == u
      ensures IsIpUrl(u)
    {
      ParseRendered(ip);
    }
  }

  /** An IP URL has a digit right after its scheme. */
  lemma IpUrlDigitAfterScheme(u: string)
    requires IsIpUrl(u)
    ensures |u| > |SchemeOf(u)| && IsDigit(u[|SchemeOf(u)|])
  {
    ParsedIsRendering(u);
    var ip := ParseIp(u).value;
    RenderParts(ip);
    var body := HostText(ip.groups) + (PortText(ip.port) + PathText(ip.path));
    assert body[0] == ip.groups[0][0];
    SchemeOfPrefixed(ip.scheme, body);
    assert u[|ip.scheme|] == body[0];
  }

  /** The digits, dots and colon an IP host and port are made of. */
  predicate IsHostChar(c: char) {
    IsDigit(c) || c == '.' || c == ':'
  }

  predicate HostCharsOnly(s: string) {
    forall c :: c in s ==> IsHostChar(c)
  }

  lemma {:induction false} HostTextChars(groups: seq<string>)
    requires |groups| >= 1
    requires forall i :: 0 <= i < |groups| ==> AllDigits(groups[i])
    ensures HostCharsOnly(HostText(groups))
    decreases |groups|
  {
    assert forall c :: c in groups[0] ==> IsDigit(c);
    if |groups| > 1 {
      HostTextChars(groups[1..]);
    }
  }

  /** Host and port of a well-formed IP URL hold only digits, dots and a colon. */
  lemma HostPortChars(ip: IpUrl)
    requires ip.Valid()
    ensures HostCharsOnly(HostText(ip.groups) + PortText(ip.port))
  {
    HostTextChars(ip.groups);
    if ip.port.Some? {
      assert forall c :: c in ip.port.value ==> IsDigit(c);
    }
  }
}
