/**
 Worked examples: the verdict the evaluator returns for particular URLs. The
 URLs are plain ASCII, so each example holds for any IDN decoder that leaves
 the URL as it is.

 Each example is split the same way. Small lemmas take the URL as a parameter
 equal to the literal and state one fact about it: its host part, the table
 entries it does not contain, its shape. Lemmas over an abstract `Context`
 then combine those facts. Handing the solver the literal and the whole
 evaluator in one proof makes it unfold everything, and the proof runs out
 of resources.
 */
module Scenarios {
  import opened Results
  import opened Text
  import opened Patterns
  import opened Rules
  import opened Analyzer
  import opened Properties

  /** The checks whose `mask` entry is set, in order. */
  function Pick(cs: seq<Check>, mask: seq<bool>): (r: seq<Check>)
    requires |cs| == |mask|
    ensures |r| <= |cs|
    decreases |cs|
  {
    if |cs| == 0 then [] else (if mask[0] then [cs[0]] else []) + Pick(cs[1..], mask[1..])
  }

  /** Knowing which checks fire determines the filtered list. */
  lemma {:induction false} FilterMask(cs: seq<Check>, mask: seq<bool>, ctx: Context)
    requires |cs| == |mask|
    requires forall i :: 0 <= i < |cs| ==> mask[i] == Fires(cs[i], ctx)
    ensures Filter(cs, ctx) == Pick(cs, mask)
    decreases |cs|
  {
    if |cs| > 0 {
      FilterMask(cs[1..], mask[1..], ctx);
    }
  }

  /** Which keywords of `ks` occur in `s`, position by position. */
  function KeywordMask(ks: seq<string>, s: string): (r: seq<bool>)
    ensures |r| == |ks|
  {
    seq(|ks|, i requires 0 <= i < |ks| => Includes(s, ks[i]))
  }

  lemma KeywordHitsMask(ks: seq<string>, ctx: Context)
    ensures Filter(KeywordChecks(ks), ctx) == Pick(KeywordChecks(ks), KeywordMask(ks, ctx.normalized))
  {
    FilterMask(KeywordChecks(ks), KeywordMask(ks, ctx.normalized), ctx);
  }

  lemma KeywordChecksListed()
    ensures KeywordChecks(Keywords) == [SuspiciousKeyword("login"), SuspiciousKeyword("secure"), SuspiciousKeyword("bank"),
               SuspiciousKeyword("verify"), SuspiciousKeyword("update"), SuspiciousKeyword("free"),
               SuspiciousKeyword("cheap"), SuspiciousKeyword("offer")]
  {
  }

  /** The keyword hits, given which keywords occur. */
  lemma KeywordHitsOf(ctx: Context, km: seq<bool>)
    requires KeywordMask(Keywords, ctx.normalized) == km
    ensures KeywordHits(ctx) == Pick([SuspiciousKeyword("login"), SuspiciousKeyword("secure"), SuspiciousKeyword("bank"),
               SuspiciousKeyword("verify"), SuspiciousKeyword("update"), SuspiciousKeyword("free"),
               SuspiciousKeyword("cheap"), SuspiciousKeyword("offer")], km)
  {
    KeywordHitsMask(Keywords, ctx);
    KeywordChecksListed();
  }

  lemma ExtensionHitsOf(ctx: Context, em: seq<bool>)
    requires em == [EndsWith(ctx.normalized, ".tk"), EndsWith(ctx.normalized, ".ml"),
                    EndsWith(ctx.normalized, ".cf"), EndsWith(ctx.normalized, ".gq"),
                    EndsWith(ctx.normalized, ".xyz")]
    ensures ExtensionHits(ctx) == Pick([RiskyExtension(".tk"), RiskyExtension(".ml"), RiskyExtension(".cf"),
                                        RiskyExtension(".gq"), RiskyExtension(".xyz")], em)
  {
    var cs := [RiskyExtension(".tk"), RiskyExtension(".ml"), RiskyExtension(".cf"),
               RiskyExtension(".gq"), RiskyExtension(".xyz")];
    assert ExtensionChecks(Extensions) == cs;
    FilterMask(cs, em, ctx);
  }

  lemma ShapeHitsOf(ctx: Context, sm: seq<bool>)
    requires sm == [Fires(NonsenseDomain, ctx), Fires(DirectIp, ctx), Fires(ManySubdomains, ctx), Fires(Homoglyph, ctx)]
    ensures ShapeHits(ctx) == Pick([NonsenseDomain, DirectIp, ManySubdomains, Homoglyph], sm)
  {
    FilterMask(StructuralChecks, sm, ctx);
  }

  /** No blacklist entry and no risky extension: those two groups add nothing. */
  lemma QuietTables(ctx: Context)
    requires !Fires(Blacklisted, ctx)
    requires !EndsWith(ctx.normalized, ".tk") && !EndsWith(ctx.normalized, ".ml") && !EndsWith(ctx.normalized, ".cf")
    requires !EndsWith(ctx.normalized, ".gq") && !EndsWith(ctx.normalized, ".xyz")
    ensures BlacklistHits(ctx) == [] && ExtensionHits(ctx) == []
  {
    FilterMask([Blacklisted], [false], ctx);
    ExtensionHitsOf(ctx, [false, false, false, false, false]);
  }

  /** With the two table groups quiet, the fired checks are the keyword hits
      followed by the shape hits. */
  lemma FiredOfGroups(ctx: Context, kw: seq<Check>, sh: seq<Check>)
    requires BlacklistHits(ctx) == [] && ExtensionHits(ctx) == []
    requires KeywordHits(ctx) == kw && ShapeHits(ctx) == sh
    ensures Fired(ctx) == kw + sh
  {
    FiredByGroup(ctx);
    DropEmpty(Fired(ctx), BlacklistHits(ctx), KeywordHits(ctx), ExtensionHits(ctx), ShapeHits(ctx));
  }

  /** Restates the concatenation over plain variables, so the solver does not
      unfold the group functions. */
  lemma DropEmpty(all: seq<Check>, b: seq<Check>, k: seq<Check>, e: seq<Check>, s: seq<Check>)
    requires all == b + k + e + s && b == [] && e == []
    ensures all == k + s
  {
  }

  /** The verdict for a non-empty URL the decoder accepts, read off the checks
      that fire on it. */
  lemma VerdictOf(url: string, toUnicode: string -> Option<string>, decoded: string, fired: seq<Check>)
    requires url != "" && toUnicode(Lower(url)) == Some(decoded)
    requires Fired(Prepare(url, decoded)) == fired && fired != []
    ensures Evaluate(Some(url), toUnicode)
         == Success(Verdict(url, Classify(TotalWeight(fired)), Min(TotalWeight(fired), ScoreCap), Reasons(fired)))
  {
  }

  /** A URL with no upper-case letters, decoded to itself, is its own
      normalized and decoded form. */
  lemma PlainContext(url: string, domain: string)
    requires Lower(url) == url && DomainOnly(url) == domain
    ensures Prepare(url, url) == Context(url, url, domain, url)
  {
  }

  /** A URL whose first character after `http://` is not a digit is no IP URL. */
  lemma NotIpAfterHttp(url: string)
    requires StartsWith(url, "http://") && |url| > 7 && !IsDigit(url[7])
    ensures !IsIpUrl(url)
  {
    if IsIpUrl(url) {
      IpUrlDigitAfterScheme(url);
    }
  }

  // ---------------------------------------------------------------------------
  // http://secure-login-bank.com

  const SecureLoginBank: string := "http://secure-login-bank.com"

  lemma SecureLoginBankParts(url: string)
    requires url == SecureLoginBank
    ensures DomainOnly(url) == "secure-login-bank.com"
  {
    assert url == "http://" + ("secure-login-bank.com" + "");
    DomainOnlyOf("http://", "secure-login-bank.com", "");
  }

  lemma SecureLoginBankContext()
    ensures Lower(SecureLoginBank) == SecureLoginBank
    ensures Prepare(SecureLoginBank, SecureLoginBank)
         == Context(SecureLoginBank, SecureLoginBank, "secure-login-bank.com", SecureLoginBank)
  {
    LowerKeeps(SecureLoginBank);
    SecureLoginBankParts(SecureLoginBank);
    PlainContext(SecureLoginBank, "secure-login-bank.com");
  }

  lemma SecureLoginBankUnlisted(url: string)
    requires url == SecureLoginBank
    ensures !Includes(url, "phishing.com") && !Includes(url, "scam-site.tk") && !Includes(url, "fakebank.xyz")
  {
    MissingCharExcludes(url, "phishing.com", 1);
    MissingCharExcludes(url, "scam-site.tk", 2);
    AbsentCharExcludes(url, "fakebank.xyz", 0);
  }

  lemma SecureLoginBankKeywords(url: string)
    requires url == SecureLoginBank
    ensures Includes(url, "login") && Includes(url, "secure") && Includes(url, "bank")
  {
    SecureLoginBankHasLogin(url);
    SecureLoginBankHasSecure(url);
    SecureLoginBankHasBank(url);
  }

  lemma SecureLoginBankHasLogin(url: string)
    requires url == SecureLoginBank
    ensures Includes(url, "login")
  {
    assert url[14..19] == "login";
    IncludesAt(url, "login", 14);
  }

  lemma SecureLoginBankHasSecure(url: string)
    requires url == SecureLoginBank
    ensures Includes(url, "secure")
  {
    assert url[7..13] == "secure";
    IncludesAt(url, "secure", 7);
  }

  lemma SecureLoginBankHasBank(url: string)
    requires url == SecureLoginBank
    ensures Includes(url, "bank")
  {
    assert url[20..24] == "bank";
    IncludesAt(url, "bank", 20);
  }

  lemma SecureLoginBankOtherKeywords(url: string)
    requires url == SecureLoginBank
    ensures !Includes(url, "verify") && !Includes(url, "update") && !Includes(url, "free")
    ensures !Includes(url, "cheap") && !Includes(url, "offer")
  {
    MissingCharExcludes(url, "verify", 0);
    MissingCharExcludes(url, "update", 2);
    MissingCharExcludes(url, "free", 0);
    MissingCharExcludes(url, "cheap", 4);
    MissingCharExcludes(url, "offer", 1);
  }

  lemma SecureLoginBankNotIp(url: string)
    requires url == SecureLoginBank
    ensures !IsIpUrl(url)
  {
    assert StartsWith(url, "http://") && url[7] == 's';
    NotIpAfterHttp(url);
  }

  lemma SecureLoginBankHost(d: string)
    requires d == "secure-login-bank.com"
    ensures !IsNonsenseDomain(d) && |Split(d, '.')| == 2
  {
    assert !IsLowerLetter(d[6]);
    assert d == "secure-login-bank" + ['.'] + "com";
    SplitAtSep("secure-login-bank", "com", '.');
    SplitNoSep("com", '.');
  }

  lemma LoginSecureBankMask(s: string)
    requires Includes(s, "login") && Includes(s, "secure") && Includes(s, "bank")
    requires !Includes(s, "verify") && !Includes(s, "update") && !Includes(s, "free")
    requires !Includes(s, "cheap") && !Includes(s, "offer")
    ensures KeywordMask(Keywords, s) == [true, true, true, false, false, false, false, false]
  {
    var m := KeywordMask(Keywords, s);
    assert m[0] && m[1] && m[2] && !m[3] && !m[4] && !m[5] && !m[6] && !m[7];
  }

  lemma PlainShape(ctx: Context)
    requires !Fires(NonsenseDomain, ctx) && !Fires(DirectIp, ctx) && !Fires(ManySubdomains, ctx)
    requires ctx.decoded == ctx.normalized
    ensures ShapeHits(ctx) == []
  {
    ShapeHitsOf(ctx, [false, false, false, false]);
  }

  /** On a context where exactly the first three keywords occur and nothing
      else matches, those three keyword checks are what fires. */
  lemma LoginSecureBankKeywordHits(ctx: Context)
    requires Includes(ctx.normalized, "login") && Includes(ctx.normalized, "secure") && Includes(ctx.normalized, "bank")
    requires !Includes(ctx.normalized, "verify") && !Includes(ctx.normalized, "update") && !Includes(ctx.normalized, "free")
    requires !Includes(ctx.normalized, "cheap") && !Includes(ctx.normalized, "offer")
    ensures KeywordHits(ctx) == [SuspiciousKeyword("login"), SuspiciousKeyword("secure"), SuspiciousKeyword("bank")]
  {
    LoginSecureBankMask(ctx.normalized);
    KeywordHitsOf(ctx, [true, true, true, false, false, false, false, false]);
  }

  lemma LoginSecureBankOnly(ctx: Context)
    requires !Fires(Blacklisted, ctx)
    requires Includes(ctx.normalized, "login") && Includes(ctx.normalized, "secure") && Includes(ctx.normalized, "bank")
    requires !Includes(ctx.normalized, "verify") && !Includes(ctx.normalized, "update") && !Includes(ctx.normalized, "free")
    requires !Includes(ctx.normalized, "cheap") && !Includes(ctx.normalized, "offer")
    requires !EndsWith(ctx.normalized, ".tk") && !EndsWith(ctx.normalized, ".ml") && !EndsWith(ctx.normalized, ".cf")
    requires !EndsWith(ctx.normalized, ".gq") && !EndsWith(ctx.normalized, ".xyz")
    requires !Fires(NonsenseDomain, ctx) && !Fires(DirectIp, ctx) && !Fires(ManySubdomains, ctx)
    requires ctx.decoded == ctx.normalized
    ensures Fired(ctx) == [SuspiciousKeyword("login"), SuspiciousKeyword("secure"), SuspiciousKeyword("bank")]
  {
    QuietTables(ctx);
    LoginSecureBankKeywordHits(ctx);
    PlainShape(ctx);
    FiredOfGroups(ctx, [SuspiciousKeyword("login"), SuspiciousKeyword("secure"), SuspiciousKeyword("bank")], []);
  }

  lemma SecureLoginBankNoBlacklist(ctx: Context)
    requires ctx.normalized == SecureLoginBank
    ensures !Fires(Blacklisted, ctx)
  {
    SecureLoginBankUnlisted(ctx.normalized);
  }

  lemma SecureLoginBankNoExtension(url: string)
    requires url == SecureLoginBank
    ensures !EndsWith(url, ".tk") && !EndsWith(url, ".ml") && !EndsWith(url, ".cf")
    ensures !EndsWith(url, ".gq") && !EndsWith(url, ".xyz")
  {
    assert url[|url| - 1] == 'm';
    LastCharExcludes(url, ".tk");
    LastCharExcludes(url, ".ml");
    LastCharExcludes(url, ".cf");
    LastCharExcludes(url, ".gq");
    LastCharExcludes(url, ".xyz");
  }

  lemma SecureLoginBankShape(ctx: Context)
    requires ctx.url == SecureLoginBank && ctx.domain == "secure-login-bank.com"
    ensures !Fires(NonsenseDomain, ctx) && !Fires(DirectIp, ctx) && !Fires(ManySubdomains, ctx)
  {
    SecureLoginBankNotIp(ctx.url);
    SecureLoginBankHost(ctx.domain);
  }

  lemma SecureLoginBankHits()
    ensures Fired(Prepare(SecureLoginBank, SecureLoginBank))
         == [SuspiciousKeyword("login"), SuspiciousKeyword("secure"), SuspiciousKeyword("bank")]
  {
    var ctx := Prepare(SecureLoginBank, SecureLoginBank);
    SecureLoginBankContext();
    SecureLoginBankNoBlacklist(ctx);
    SecureLoginBankKeywords(ctx.normalized);
    SecureLoginBankOtherKeywords(ctx.normalized);
    SecureLoginBankNoExtension(ctx.normalized);
    SecureLoginBankShape(ctx);
    LoginSecureBankOnly(ctx);
  }

  lemma SecureLoginBankScore(fired: seq<Check>)
    requires fired == [SuspiciousKeyword("login"), SuspiciousKeyword("secure"), SuspiciousKeyword("bank")]
    ensures TotalWeight(fired) == 30
    ensures Reasons(fired) == [
      "Contains suspicious keyword: \"login\"",
      "Contains suspicious keyword: \"secure\"",
      "Contains suspicious keyword: \"bank\""]
  {
    assert TotalWeight(fired[2..]) == 10;
    assert TotalWeight(fired[1..]) == 20;
    var r := Reasons(fired);
    assert r[0] == "Contains suspicious keyword: \"login\"";
    assert r[1] == "Contains suspicious keyword: \"secure\"";
    assert r[2] == "Contains suspicious keyword: \"bank\"";
  }

  /** Three keywords, nothing else: 30 points, "Safe", the keyword reasons in
      table order. The IDN decoder is any that leaves this ASCII URL as it is. */
  lemma SecureLoginBankIsSafe(toUnicode: string -> Option<string>)
    requires toUnicode(SecureLoginBank) == Some(SecureLoginBank)
    ensures Evaluate(Some(SecureLoginBank), toUnicode) == Success(Verdict(SecureLoginBank, Safe, 30, [
      "Contains suspicious keyword: \"login\"",
      "Contains suspicious keyword: \"secure\"",
      "Contains suspicious keyword: \"bank\""]))
  {
    var fired := [SuspiciousKeyword("login"), SuspiciousKeyword("secure"), SuspiciousKeyword("bank")];
    SecureLoginBankContext();
    SecureLoginBankHits();
    SecureLoginBankScore(fired);
    VerdictOf(SecureLoginBank, toUnicode, SecureLoginBank, fired);
  }

  // ---------------------------------------------------------------------------
  // http://192.168.1.1/path

  const LanAddress: string := "http://192.168.1.1/path"

  lemma NoKeywordMask(s: string)
    requires !Includes(s, "login") && !Includes(s, "secure") && !Includes(s, "bank")
    requires !Includes(s, "verify") && !Includes(s, "update") && !Includes(s, "free")
    requires !Includes(s, "cheap") && !Includes(s, "offer")
    ensures KeywordMask(Keywords, s) == [false, false, false, false, false, false, false, false]
  {
    var m := KeywordMask(Keywords, s);
    assert !m[0] && !m[1] && !m[2] && !m[3] && !m[4] && !m[5] && !m[6] && !m[7];
  }

  lemma IpShape(ctx: Context)
    requires !Fires(NonsenseDomain, ctx) && Fires(DirectIp, ctx) && Fires(ManySubdomains, ctx)
    requires ctx.decoded == ctx.normalized
    ensures ShapeHits(ctx) == [DirectIp, ManySubdomains]
  {
    ShapeHitsOf(ctx, [false, true, true, false]);
  }

  /** On a context that matches no table entry, whose URL has the IP shape
      and whose host has more than three pieces, the IP and the subdomain
      checks are what fires. */
  lemma NoKeywordHits(ctx: Context)
    requires !Includes(ctx.normalized, "login") && !Includes(ctx.normalized, "secure") && !Includes(ctx.normalized, "bank")
    requires !Includes(ctx.normalized, "verify") && !Includes(ctx.normalized, "update") && !Includes(ctx.normalized, "free")
    requires !Includes(ctx.normalized, "cheap") && !Includes(ctx.normalized, "offer")
    ensures KeywordHits(ctx) == []
  {
    NoKeywordMask(ctx.normalized);
    KeywordHitsOf(ctx, [false, false, false, false, false, false, false, false]);
  }

  lemma IpAndSubdomainsOnly(ctx: Context)
    requires !Fires(Blacklisted, ctx)
    requires !Includes(ctx.normalized, "login") && !Includes(ctx.normalized, "secure") && !Includes(ctx.normalized, "bank")
    requires !Includes(ctx.normalized, "verify") && !Includes(ctx.normalized, "update") && !Includes(ctx.normalized, "free")
    requires !Includes(ctx.normalized, "cheap") && !Includes(ctx.normalized, "offer")
    requires !EndsWith(ctx.normalized, ".tk") && !EndsWith(ctx.normalized, ".ml") && !EndsWith(ctx.normalized, ".cf")
    requires !EndsWith(ctx.normalized, ".gq") && !EndsWith(ctx.normalized, ".xyz")
    requires !Fires(NonsenseDomain, ctx) && Fires(DirectIp, ctx) && Fires(ManySubdomains, ctx)
    requires ctx.decoded == ctx.normalized
    ensures Fired(ctx) == [DirectIp, ManySubdomains]
  {
    QuietTables(ctx);
    NoKeywordHits(ctx);
    IpShape(ctx);
    FiredOfGroups(ctx, [], [DirectIp, ManySubdomains]);
  }

  lemma LanAddressParts(url: string)
    requires url == LanAddress
    ensures DomainOnly(url) == "192.168.1.1"
  {
    assert url == "http://" + ("192.168.1.1" + "/path");
    DomainOnlyOf("http://", "192.168.1.1", "/path");
  }

  lemma LanAddressContext()
    ensures Lower(LanAddress) == LanAddress
    ensures Prepare(LanAddress, LanAddress) == Context(LanAddress, LanAddress, "192.168.1.1", LanAddress)
  {
    LowerKeeps(LanAddress);
    LanAddressParts(LanAddress);
    PlainContext(LanAddress, "192.168.1.1");
  }

  lemma LanAddressIsIp(url: string)
    requires url == LanAddress
    ensures IsIpUrl(url)
  {
    var ip := IpUrl("http://", ["192", "168", "1", "1"], None, Some("path"));
    assert ValidHost(ip.groups);
    assert HostText(ip.groups) == "192.168.1.1";
    assert ip.Render() == url;
    ParseRendered(ip);
  }

  lemma LanAddressUnlisted(url: string)
    requires url == LanAddress
    ensures !Includes(url, "phishing.com") && !Includes(url, "scam-site.tk") && !Includes(url, "fakebank.xyz")
  {
    MissingCharExcludes(url, "phishing.com", 9);
    MissingCharExcludes(url, "scam-site.tk", 0);
    MissingCharExcludes(url, "fakebank.xyz", 0);
  }

  lemma LanAddressNoKeywords(url: string)
    requires url == LanAddress
    ensures !Includes(url, "login") && !Includes(url, "secure") && !Includes(url, "bank")
    ensures !Includes(url, "verify") && !Includes(url, "update") && !Includes(url, "free")
    ensures !Includes(url, "cheap") && !Includes(url, "offer")
  {
    MissingCharExcludes(url, "login", 0);
    MissingCharExcludes(url, "secure", 0);
    MissingCharExcludes(url, "bank", 0);
    MissingCharExcludes(url, "verify", 0);
    MissingCharExcludes(url, "update", 0);
    MissingCharExcludes(url, "free", 0);
    MissingCharExcludes(url, "cheap", 0);
    MissingCharExcludes(url, "offer", 0);
  }

  lemma LanAddressNoExtension(url: string)
    requires url == LanAddress
    ensures !EndsWith(url, ".tk") && !EndsWith(url, ".ml") && !EndsWith(url, ".cf")
    ensures !EndsWith(url, ".gq") && !EndsWith(url, ".xyz")
  {
    assert url[|url| - 1] == 'h';
    LastCharExcludes(url, ".tk");
    LastCharExcludes(url, ".ml");
    LastCharExcludes(url, ".cf");
    LastCharExcludes(url, ".gq");
    LastCharExcludes(url, ".xyz");
  }

  lemma LanAddressNoBlacklist(ctx: Context)
    requires ctx.normalized == LanAddress
    ensures !Fires(Blacklisted, ctx)
  {
    LanAddressUnlisted(ctx.normalized);
  }

  lemma LanAddressHits()
    ensures Fired(Prepare(LanAddress, LanAddress)) == [DirectIp, ManySubdomains]
  {
    var ctx := Prepare(LanAddress, LanAddress);
    LanAddressContext();
    LanAddressIsIp(ctx.url);
    IpUrlFiresSubdomainsNotNonsense(LanAddress, LanAddress);
    LanAddressNoBlacklist(ctx);
    LanAddressNoKeywords(ctx.normalized);
    LanAddressNoExtension(ctx.normalized);
    IpAndSubdomainsOnly(ctx);
  }

  lemma LanAddressScore(fired: seq<Check>)
    requires fired == [DirectIp, ManySubdomains]
    ensures TotalWeight(fired) == 45
    ensures Reasons(fired) == ["Uses direct IP address instead of domain", "Too many subdomains, could be phishing"]
  {
    assert TotalWeight(fired[1..]) == 15;
    var r := Reasons(fired);
    assert r[0] == "Uses direct IP address instead of domain";
    assert r[1] == "Too many subdomains, could be phishing";
  }

  /** A bare IPv4 host: 30 for the address and 15 for its four dot-separated
      pieces, so 45 and "Safe"; the host is not taken for a nonsense name. */
  lemma LanAddressIsSafe(toUnicode: string -> Option<string>)
    requires toUnicode(LanAddress) == Some(LanAddress)
    ensures Evaluate(Some(LanAddress), toUnicode) == Success(Verdict(LanAddress, Safe, 45, [
      "Uses direct IP address instead of domain",
      "Too many subdomains, could be phishing"]))
  {
    var fired := [DirectIp, ManySubdomains];
    LanAddressContext();
    LanAddressHits();
    LanAddressScore(fired);
    VerdictOf(LanAddress, toUnicode, LanAddress, fired);
  }

  // ---------------------------------------------------------------------------
  // http://abcdfghijk.com: the status boundary

  /** A host of exactly ten letters before `.com`. */
  const TenLetters: string := "http://abcdfghijk.com"

  /** A nonsense host whose URL is no IP URL and is decoded to itself: only
      the nonsense-domain check fires among the shape checks. */
  lemma NonsenseShape(ctx: Context)
    requires Fires(NonsenseDomain, ctx) && !Fires(DirectIp, ctx)
    requires ctx.decoded == ctx.normalized
    ensures ShapeHits(ctx) == [NonsenseDomain]
  {
    NonsenseExcludesSubdomains(ctx);
    ShapeHitsOf(ctx, [true, false, false, false]);
  }

  lemma TenLettersContext()
    ensures Lower(TenLetters) == TenLetters
    ensures Prepare(TenLetters, TenLetters) == Context(TenLetters, TenLetters, "abcdfghijk.com", TenLetters)
  {
    LowerKeeps(TenLetters);
    TenLettersParts(TenLetters);
    PlainContext(TenLetters, "abcdfghijk.com");
  }

  lemma TenLettersParts(url: string)
    requires url == TenLetters
    ensures DomainOnly(url) == "abcdfghijk.com"
  {
    assert url == "http://" + ("abcdfghijk.com" + "");
    DomainOnlyOf("http://", "abcdfghijk.com", "");
  }

  lemma TenLettersUnlisted(url: string)
    requires url == TenLetters
    ensures !Includes(url, "phishing.com") && !Includes(url, "scam-site.tk") && !Includes(url, "fakebank.xyz")
  {
    MissingCharExcludes(url, "phishing.com", 6);
    MissingCharExcludes(url, "scam-site.tk", 4);
    MissingCharExcludes(url, "fakebank.xyz", 3);
  }

  lemma TenLettersNoKeywords(url: string)
    requires url == TenLetters
    ensures !Includes(url, "login") && !Includes(url, "secure") && !Includes(url, "bank")
    ensures !Includes(url, "verify") && !Includes(url, "update") && !Includes(url, "free")
    ensures !Includes(url, "cheap") && !Includes(url, "offer")
  {
    MissingCharExcludes(url, "login", 0);
    MissingCharExcludes(url, "secure", 1);
    MissingCharExcludes(url, "bank", 2);
    MissingCharExcludes(url, "verify", 1);
    MissingCharExcludes(url, "update", 0);
    MissingCharExcludes(url, "free", 1);
    MissingCharExcludes(url, "cheap", 2);
    MissingCharExcludes(url, "offer", 3);
  }

  lemma TenLettersNoExtension(url: string)
    requires url == TenLetters
    ensures !EndsWith(url, ".tk") && !EndsWith(url, ".ml") && !EndsWith(url, ".cf")
    ensures !EndsWith(url, ".gq") && !EndsWith(url, ".xyz")
  {
    assert url[|url| - 1] == 'm';
    LastCharExcludes(url, ".tk");
    LastCharExcludes(url, ".ml");
    LastCharExcludes(url, ".cf");
    LastCharExcludes(url, ".gq");
    LastCharExcludes(url, ".xyz");
  }

  /** Ten letters before `.com` are accepted by the nonsense pattern. */
  lemma TenLettersHost(d: string)
    requires d == "abcdfghijk.com"
    ensures IsNonsenseDomain(d)
  {
    assert d[|d| - 4..] == ".com";
  }

  /** Nine letters before `.com` are refused: ten is the fewest the pattern
      accepts. */
  lemma NineLettersRefused(d: string)
    requires d == "abcdefghi.com"
    ensures !IsNonsenseDomain(d)
  {
  }

  lemma TenLettersNoBlacklist(ctx: Context)
    requires ctx.normalized == TenLetters
    ensures !Fires(Blacklisted, ctx)
  {
    TenLettersUnlisted(ctx.normalized);
  }

  lemma TenLettersShape(ctx: Context)
    requires ctx.url == TenLetters && ctx.domain == "abcdfghijk.com"
    ensures Fires(NonsenseDomain, ctx) && !Fires(DirectIp, ctx)
  {
    TenLettersHost(ctx.domain);
    assert StartsWith(ctx.url, "http://") && ctx.url[7] == 'a';
    NotIpAfterHttp(ctx.url);
  }

  /** On a context that matches no table entry, has a nonsense host, is no IP
      URL and is decoded to itself, the nonsense-domain check alone fires. */
  lemma NonsenseOnly(ctx: Context)
    requires !Fires(Blacklisted, ctx)
    requires !Includes(ctx.normalized, "login") && !Includes(ctx.normalized, "secure") && !Includes(ctx.normalized, "bank")
    requires !Includes(ctx.normalized, "verify") && !Includes(ctx.normalized, "update") && !Includes(ctx.normalized, "free")
    requires !Includes(ctx.normalized, "cheap") && !Includes(ctx.normalized, "offer")
    requires !EndsWith(ctx.normalized, ".tk") && !EndsWith(ctx.normalized, ".ml") && !EndsWith(ctx.normalized, ".cf")
    requires !EndsWith(ctx.normalized, ".gq") && !EndsWith(ctx.normalized, ".xyz")
    requires Fires(NonsenseDomain, ctx) && !Fires(DirectIp, ctx)
    requires ctx.decoded == ctx.normalized
    ensures Fired(ctx) == [NonsenseDomain]
  {
    QuietTables(ctx);
    NoKeywordHits(ctx);
    NonsenseShape(ctx);
    FiredOfGroups(ctx, [], [NonsenseDomain]);
  }

  lemma TenLettersHits()
    ensures Fired(Prepare(TenLetters, TenLetters)) == [NonsenseDomain]
  {
    var ctx := Prepare(TenLetters, TenLetters);
    TenLettersContext();
    TenLettersNoBlacklist(ctx);
    TenLettersNoKeywords(ctx.normalized);
    TenLettersNoExtension(ctx.normalized);
    TenLettersShape(ctx);
    NonsenseOnly(ctx);
  }

  lemma NonsenseScore(fired: seq<Check>)
    requires fired == [NonsenseDomain]
    ensures TotalWeight(fired) == 50
    ensures Reasons(fired) == ["Domain contains random, unrecognizable characters"]
  {
    assert TotalWeight(fired[1..]) == 0;
  }

  /** The nonsense check alone adds 50, which is not above 50: "Safe". */
  lemma TenLettersIsSafe(toUnicode: string -> Option<string>)
    requires toUnicode(TenLetters) == Some(TenLetters)
    ensures Evaluate(Some(TenLetters), toUnicode)
         == Success(Verdict(TenLetters, Safe, 50, ["Domain contains random, unrecognizable characters"]))
  {
    var fired := [NonsenseDomain];
    TenLettersContext();
    TenLettersHits();
    NonsenseScore(fired);
    VerdictOf(TenLetters, toUnicode, TenLetters, fired);
  }

  // ---------------------------------------------------------------------------
  // http://bankloginphishing.com: the cap

  const BankLoginPhishing: string := "http://bankloginphishing.com"

  lemma BankLoginPhishingContext()
    ensures Lower(BankLoginPhishing) == BankLoginPhishing
    ensures Prepare(BankLoginPhishing, BankLoginPhishing)
         == Context(BankLoginPhishing, BankLoginPhishing, "bankloginphishing.com", BankLoginPhishing)
  {
    LowerKeeps(BankLoginPhishing);
    BankLoginPhishingParts(BankLoginPhishing);
    PlainContext(BankLoginPhishing, "bankloginphishing.com");
  }

  lemma BankLoginPhishingParts(url: string)
    requires url == BankLoginPhishing
    ensures DomainOnly(url) == "bankloginphishing.com"
  {
    assert url == "http://" + ("bankloginphishing.com" + "");
    DomainOnlyOf("http://", "bankloginphishing.com", "");
  }

  lemma BankLoginPhishingListed(url: string)
    requires url == BankLoginPhishing
    ensures Includes(url, "phishing.com")
  {
    assert url[16..28] == "phishing.com";
    IncludesAt(url, "phishing.com", 16);
  }

  /** A URL containing the first blacklist entry fires the blacklist check. */
  lemma FirstEntryListed(ctx: Context)
    requires Includes(ctx.normalized, "phishing.com")
    ensures BlacklistHits(ctx) == [Blacklisted]
  {
    assert Blacklist[0] == "phishing.com";
    FilterMask([Blacklisted], [true], ctx);
  }

  lemma BankLoginPhishingHasBank(url: string)
    requires url == BankLoginPhishing
    ensures Includes(url, "bank")
  {
    assert url[7..11] == "bank";
    IncludesAt(url, "bank", 7);
  }

  lemma BankLoginPhishingHasLogin(url: string)
    requires url == BankLoginPhishing
    ensures Includes(url, "login")
  {
    assert url[11..16] == "login";
    IncludesAt(url, "login", 11);
  }

  lemma BankLoginPhishingOtherKeywords(url: string)
    requires url == BankLoginPhishing
    ensures !Includes(url, "secure") && !Includes(url, "verify") && !Includes(url, "update")
    ensures !Includes(url, "free") && !Includes(url, "cheap") && !Includes(url, "offer")
  {
    MissingCharExcludes(url, "secure", 1);
    MissingCharExcludes(url, "verify", 1);
    MissingCharExcludes(url, "update", 0);
    MissingCharExcludes(url, "free", 0);
    MissingCharExcludes(url, "cheap", 2);
    MissingCharExcludes(url, "offer", 1);
  }

  /** On a context where "login" and "bank" are the only keywords, those two
      keyword checks are what fires, "login" first as in the table. */
  lemma LoginBankKeywordHits(ctx: Context)
    requires Includes(ctx.normalized, "login") && Includes(ctx.normalized, "bank")
    requires !Includes(ctx.normalized, "secure") && !Includes(ctx.normalized, "verify") && !Includes(ctx.normalized, "update")
    requires !Includes(ctx.normalized, "free") && !Includes(ctx.normalized, "cheap") && !Includes(ctx.normalized, "offer")
    ensures KeywordHits(ctx) == [SuspiciousKeyword("login"), SuspiciousKeyword("bank")]
  {
    LoginBankMask(ctx.normalized);
    KeywordHitsOf(ctx, [true, false, true, false, false, false, false, false]);
  }

  lemma LoginBankMask(s: string)
    requires Includes(s, "login") && Includes(s, "bank")
    requires !Includes(s, "secure") && !Includes(s, "verify") && !Includes(s, "update")
    requires !Includes(s, "free") && !Includes(s, "cheap") && !Includes(s, "offer")
    ensures KeywordMask(Keywords, s) == [true, false, true, false, false, false, false, false]
  {
    var m := KeywordMask(Keywords, s);
    assert m[0] && !m[1] && m[2] && !m[3] && !m[4] && !m[5] && !m[6] && !m[7];
  }

  lemma BankLoginPhishingHost(d: string)
    requires d == "bankloginphishing.com"
    ensures IsNonsenseDomain(d)
  {
    assert d[|d| - 4..] == ".com";
  }

  lemma BankLoginPhishingNoExtension(url: string)
    requires url == BankLoginPhishing
    ensures !EndsWith(url, ".tk") && !EndsWith(url, ".ml") && !EndsWith(url, ".cf")
    ensures !EndsWith(url, ".gq") && !EndsWith(url, ".xyz")
  {
    assert url[|url| - 1] == 'm';
    LastCharExcludes(url, ".tk");
    LastCharExcludes(url, ".ml");
    LastCharExcludes(url, ".cf");
    LastCharExcludes(url, ".gq");
    LastCharExcludes(url, ".xyz");
  }

  lemma BankLoginPhishingShape(ctx: Context)
    requires ctx.url == BankLoginPhishing && ctx.domain == "bankloginphishing.com"
    ensures Fires(NonsenseDomain, ctx) && !Fires(DirectIp, ctx)
  {
    BankLoginPhishingHost(ctx.domain);
    assert StartsWith(ctx.url, "http://") && ctx.url[7] == 'b';
    NotIpAfterHttp(ctx.url);
  }

  /** A listed URL with a nonsense host, no IP shape, no risky extension and
      exactly the keywords "login" and "bank", decoded to itself: four checks
      fire, in evaluation order. */
  lemma ListedLoginBankNonsense(ctx: Context)
    requires BlacklistHits(ctx) == [Blacklisted]
    requires KeywordHits(ctx) == [SuspiciousKeyword("login"), SuspiciousKeyword("bank")]
    requires !EndsWith(ctx.normalized, ".tk") && !EndsWith(ctx.normalized, ".ml") && !EndsWith(ctx.normalized, ".cf")
    requires !EndsWith(ctx.normalized, ".gq") && !EndsWith(ctx.normalized, ".xyz")
    requires Fires(NonsenseDomain, ctx) && !Fires(DirectIp, ctx)
    requires ctx.decoded == ctx.normalized
    ensures Fired(ctx) == [Blacklisted, SuspiciousKeyword("login"), SuspiciousKeyword("bank"), NonsenseDomain]
  {
    ExtensionHitsOf(ctx, [false, false, false, false, false]);
    NonsenseShape(ctx);
    FiredByGroup(ctx);
    assert [Blacklisted] + [SuspiciousKeyword("login"), SuspiciousKeyword("bank")] + [] + [NonsenseDomain]
        == [Blacklisted, SuspiciousKeyword("login"), SuspiciousKeyword("bank"), NonsenseDomain];
  }

  /** The blacklist, "login", "bank" and the nonsense-domain check fire;
      nothing else does. */
  lemma BankLoginPhishingHits()
    ensures Fired(Prepare(BankLoginPhishing, BankLoginPhishing))
         == [Blacklisted, SuspiciousKeyword("login"), SuspiciousKeyword("bank"), NonsenseDomain]
  {
    var ctx := Prepare(BankLoginPhishing, BankLoginPhishing);
    BankLoginPhishingContext();
    BankLoginPhishingListed(ctx.normalized);
    FirstEntryListed(ctx);
    BankLoginPhishingHasBank(ctx.normalized);
    BankLoginPhishingHasLogin(ctx.normalized);
    BankLoginPhishingOtherKeywords(ctx.normalized);
    LoginBankKeywordHits(ctx);
    BankLoginPhishingNoExtension(ctx.normalized);
    BankLoginPhishingShape(ctx);
    ListedLoginBankNonsense(ctx);
  }

  lemma BankLoginPhishingScore(fired: seq<Check>)
    requires fired == [Blacklisted, SuspiciousKeyword("login"), SuspiciousKeyword("bank"), NonsenseDomain]
    ensures TotalWeight(fired) == 110
    ensures Reasons(fired) == [
      "Domain appears in a known blacklist",
      "Contains suspicious keyword: \"login\"",
      "Contains suspicious keyword: \"bank\"",
      "Domain contains random, unrecognizable characters"]
  {
    assert TotalWeight(fired[3..]) == 50;
    assert TotalWeight(fired[2..]) == 60;
    assert TotalWeight(fired[1..]) == 70;
    var r := Reasons(fired);
    assert r[1] == "Contains suspicious keyword: \"login\"";
    assert r[2] == "Contains suspicious keyword: \"bank\"";
  }

  /** An uncapped 110: "Suspicious" is decided on the 110, and the reported
      score is capped at 100. */
  lemma BankLoginPhishingIsCapped(toUnicode: string -> Option<string>)
    requires toUnicode(BankLoginPhishing) == Some(BankLoginPhishing)
    ensures Evaluate(Some(BankLoginPhishing), toUnicode) == Success(Verdict(BankLoginPhishing, Suspicious, 100, [
      "Domain appears in a known blacklist",
      "Contains suspicious keyword: \"login\"",
      "Contains suspicious keyword: \"bank\"",
      "Domain contains random, unrecognizable characters"]))
  {
    var fired := [Blacklisted, SuspiciousKeyword("login"), SuspiciousKeyword("bank"), NonsenseDomain];
    BankLoginPhishingContext();
    BankLoginPhishingHits();
    BankLoginPhishingScore(fired);
    VerdictOf(BankLoginPhishing, toUnicode, BankLoginPhishing, fired);
  }
}
