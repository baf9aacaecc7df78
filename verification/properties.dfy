/**
 Properties of the evaluator that hold for every URL: how much each group of
 checks can add, when the default reason appears, what an IP URL always
 triggers, and the range of the uncapped total.
 */
module Properties {
  import opened Results
  import opened Text
  import opened Patterns
  import opened Rules
  import opened Analyzer

  // ---------------------------------------------------------------------------
  // The reasons list

  lemma {:induction false} TotalWeightPositive(cs: seq<Check>)
    ensures TotalWeight(cs) == 0 <==> cs == []
    ensures TotalWeight(cs) % 5 == 0
    decreases |cs|
  {
    if |cs| > 0 {
      WeightIsPositiveFive(cs[0]);
      TotalWeightPositive(cs[1..]);
    }
  }

  /** The default reason appears exactly when no check fired, and then the
      score is 0 and the status "Safe"; otherwise there is one reason per
      fired check, in evaluation order. */
  lemma DefaultReasonIffNothingFired(url: string, toUnicode: string -> Option<string>)
    requires url != "" && toUnicode(Lower(url)).Some?
    ensures Evaluate(Some(url), toUnicode).Success?
    ensures
      var v := Evaluate(Some(url), toUnicode).value;
      var fired := Fired(Prepare(url, toUnicode(Lower(url)).value));
      && (v.reasons == [NoIssuesReason] <==> fired == [])
      && (v.riskScore == 0 <==> fired == [])
      && (fired == [] ==> v.status == Safe)
      && (fired != [] ==> |v.reasons| == |fired| && forall i :: 0 <= i < |fired| ==> v.reasons[i] == Reason(fired[i]))
  {
    var decoded := toUnicode(Lower(url)).value;
    var fired := Fired(Prepare(url, decoded));
    var v := Evaluate(Some(url), toUnicode).value;
    assert Uncapped(url, decoded) == TotalWeight(fired);
    VerdictReasons(v, fired);
  }

  lemma VerdictReasons(v: Verdict, fired: seq<Check>)
    requires v.riskScore == Min(TotalWeight(fired), ScoreCap)
    requires v.status == Suspicious <==> TotalWeight(fired) > SuspiciousAbove
    requires v.reasons == if fired == [] then [NoIssuesReason] else Reasons(fired)
    ensures v.reasons == [NoIssuesReason] <==> fired == []
    ensures v.riskScore == 0 <==> fired == []
    ensures fired == [] ==> v.status == Safe
    ensures fired != [] ==> |v.reasons| == |fired| && forall i :: 0 <= i < |fired| ==> v.reasons[i] == Reason(fired[i])
  {
    VerdictScore(v, fired);
    if fired != [] {
      ReasonsNotDefault(fired);
      ReasonsListed(v.reasons, fired);
    }
  }

  lemma VerdictScore(v: Verdict, fired: seq<Check>)
    requires v.riskScore == Min(TotalWeight(fired), ScoreCap)
    requires v.status == Suspicious <==> TotalWeight(fired) > SuspiciousAbove
    ensures v.riskScore == 0 <==> fired == []
    ensures fired == [] ==> v.status == Safe
  {
    TotalWeightPositive(fired);
  }

  lemma ReasonsListed(reasons: seq<string>, fired: seq<Check>)
    requires reasons == Reasons(fired)
    ensures |reasons| == |fired| && forall i :: 0 <= i < |fired| ==> reasons[i] == Reason(fired[i])
  {
  }

  lemma ReasonsNotDefault(fired: seq<Check>)
    requires fired != []
    ensures Reasons(fired) != [NoIssuesReason]
  {
    ReasonIsNotDefault(fired[0]);
    assert Reasons(fired)[0] == Reason(fired[0]);
  }

  // ---------------------------------------------------------------------------
  // What each group of checks contributes

  function BlacklistHits(ctx: Context): seq<Check> {
    Filter([Blacklisted], ctx)
  }

  function KeywordHits(ctx: Context): seq<Check> {
    Filter(KeywordChecks(Keywords), ctx)
  }

  function ExtensionHits(ctx: Context): seq<Check> {
    Filter(ExtensionChecks(Extensions), ctx)
  }

  function ShapeHits(ctx: Context): seq<Check> {
    Filter(StructuralChecks, ctx)
  }

  /** The fired checks are those of the four groups, group after group. */
  lemma FiredByGroup(ctx: Context)
    ensures Fired(ctx) == BlacklistHits(ctx) + KeywordHits(ctx) + ExtensionHits(ctx) + ShapeHits(ctx)
    ensures TotalWeight(Fired(ctx)) == TotalWeight(BlacklistHits(ctx)) + TotalWeight(KeywordHits(ctx))
                                     + TotalWeight(ExtensionHits(ctx)) + TotalWeight(ShapeHits(ctx))
  {
    var ks, es := KeywordChecks(Keywords), ExtensionChecks(Extensions);
    FilterAppend([Blacklisted], ks, ctx);
    FilterAppend([Blacklisted] + ks, es, ctx);
    FilterAppend([Blacklisted] + ks + es, StructuralChecks, ctx);
    TotalWeightAppend(BlacklistHits(ctx), KeywordHits(ctx));
    TotalWeightAppend(BlacklistHits(ctx) + KeywordHits(ctx), ExtensionHits(ctx));
    TotalWeightAppend(BlacklistHits(ctx) + KeywordHits(ctx) + ExtensionHits(ctx), ShapeHits(ctx));
  }

  /** The blacklist adds 40 once when any entry is contained, however many are. */
  lemma BlacklistCountsOnce(ctx: Context)
    ensures |BlacklistHits(ctx)| <= 1
    ensures TotalWeight(BlacklistHits(ctx)) == if AnyIncluded(ctx.normalized, Blacklist) then 40 else 0
  {
    assert [Blacklisted][1..] == [];
  }

  lemma {:induction false} UniformWeight(cs: seq<Check>, w: nat)
    requires forall c :: c in cs ==> Weight(c) == w
    ensures TotalWeight(cs) == w * |cs|
    decreases |cs|
  {
    if |cs| > 0 {
      assert cs[0] in cs;
      UniformWeight(cs[1..], w);
    }
  }

  /** Each keyword contained in the lower-cased URL is hit exactly once and
      adds 10 and one reason; the others add nothing. */
  lemma KeywordsAddTenEach(ctx: Context)
    ensures TotalWeight(KeywordHits(ctx)) == 10 * |KeywordHits(ctx)|
    ensures forall k :: SuspiciousKeyword(k) in KeywordHits(ctx) <==> k in Keywords && Includes(ctx.normalized, k)
    ensures forall c :: c in KeywordHits(ctx) ==> c.SuspiciousKeyword?
    ensures Distinct(KeywordHits(ctx))
  {
    var cs := KeywordChecks(Keywords);
    KeywordsDistinct();
    KeywordChecksDistinct(Keywords);
    FilterDistinct(cs, ctx);
    forall c | c in KeywordHits(ctx)
      ensures c in cs && c.SuspiciousKeyword? && Weight(c) == 10
    {
      FilterMembers(cs, ctx, c);
    }
    UniformWeight(KeywordHits(ctx), 10);
    forall k
      ensures SuspiciousKeyword(k) in KeywordHits(ctx) <==> k in Keywords && Includes(ctx.normalized, k)
    {
      FilterMembers(cs, ctx, SuspiciousKeyword(k));
      KeywordChecksHas(Keywords, k);
    }
  }

  lemma {:induction false} FilterNone(cs: seq<Check>, ctx: Context)
    requires forall i :: 0 <= i < |cs| ==> !Fires(cs[i], ctx)
    ensures Filter(cs, ctx) == []
    decreases |cs|
  {
    if |cs| > 0 {
      FilterNone(cs[1..], ctx);
    }
  }

  lemma ExtensionChecksCons(table: seq<string>)
    requires |table| > 0
    ensures ExtensionChecks(table) == [RiskyExtension(table[0])] + ExtensionChecks(table[1..])
  {
  }

  lemma SuffixFreeTail(table: seq<string>)
    requires |table| > 0 && SuffixFree(table)
    ensures SuffixFree(table[1..])
  {
    var rest := table[1..];
    assert forall i :: 0 <= i < |rest| ==> rest[i] == table[i + 1];
  }

  /** Once the first extension matches, none of the later ones does. */
  lemma LaterExtensionsQuiet(table: seq<string>, ctx: Context)
    requires |table| > 0 && SuffixFree(table)
    requires EndsWith(ctx.normalized, table[0])
    ensures Filter(ExtensionChecks(table[1..]), ctx) == []
  {
    var rest := table[1..];
    var cs := ExtensionChecks(rest);
    forall k | 0 <= k < |cs|
      ensures !Fires(cs[k], ctx)
    {
      assert rest[k] == table[k + 1];
      ExclusiveSuffix(ctx.normalized, table, 0, k + 1);
    }
    FilterNone(cs, ctx);
  }

  /** A string matches at most one entry of a suffix-free extension table. */
  lemma {:induction false} SuffixFreeHitsAtMostOne(table: seq<string>, ctx: Context)
    requires SuffixFree(table)
    ensures |Filter(ExtensionChecks(table), ctx)| <= 1
    decreases |table|
  {
    if |table| > 0 {
      var head := RiskyExtension(table[0]);
      var later := ExtensionChecks(table[1..]);
      ExtensionChecksCons(table);
      FilterAppend([head], later, ctx);
      assert [head][1..] == [];
      assert |Filter([head], ctx)| <= 1;
      if EndsWith(ctx.normalized, table[0]) {
        LaterExtensionsQuiet(table, ctx);
      } else {
        assert Filter([head], ctx) == [];
        SuffixFreeTail(table);
        SuffixFreeHitsAtMostOne(table[1..], ctx);
      }
    }
  }

  /** The extension check adds 20 or nothing: the extension table is
      suffix-free, so at most one `endsWith` holds. */
  lemma ExtensionCountsOnce(ctx: Context)
    ensures |ExtensionHits(ctx)| <= 1
    ensures TotalWeight(ExtensionHits(ctx)) == 0 || TotalWeight(ExtensionHits(ctx)) == 20
  {
    ExtensionsSuffixFree();
    SuffixFreeHitsAtMostOne(Extensions, ctx);
    forall c | c in ExtensionHits(ctx)
      ensures Weight(c) == 20
    {
      FilterMembers(ExtensionChecks(Extensions), ctx, c);
    }
    UniformWeight(ExtensionHits(ctx), 20);
  }

  // ---------------------------------------------------------------------------
  // The structural checks

  /** Lower-casing leaves a scheme and a host of digits, dots and colons alone. */
  lemma LowerOfParts(scheme: string, hp: string, pa: string)
    requires scheme == "" || scheme == "http://" || scheme == "https://"
    requires HostCharsOnly(hp)
    ensures Lower(scheme + (hp + pa)) == scheme + (hp + Lower(pa))
  {
    forall i | 0 <= i < |hp|
      ensures !IsUpper(hp[i])
    {
      assert hp[i] in hp;
    }
    LowerKeeps(hp);
    LowerKeeps(scheme);
    LowerAppend(hp, pa);
    LowerAppend(scheme, hp + pa);
  }

  /** The host part of a URL made of a scheme, a host of digits, dots and
      colons, and a path starting with `/`, is that host. */
  lemma DomainOfParts(scheme: string, hp: string, pa: string)
    requires scheme == "" || scheme == "http://" || scheme == "https://"
    requires HostCharsOnly(hp) && |hp| > 0 && IsDigit(hp[0])
    requires |pa| == 0 || pa[0] == '/'
    ensures DomainOnly(Lower(scheme + (hp + pa))) == hp
  {
    LowerOfParts(scheme, hp, pa);
    var lpa := Lower(pa);
    assert |lpa| == 0 || lpa[0] == '/';
    assert '/' !in hp by {
      assert !IsHostChar('/');
    }
    assert (hp + lpa)[0] == hp[0];
    DomainOnlyOf(scheme, hp, lpa);
  }

  /** The host part of a well-formed IP URL is its four digit groups and its port. */
  lemma IpUrlDomain(ip: IpUrl)
    requires ip.Valid()
    ensures DomainOnly(Lower(ip.Render())) == HostText(ip.groups) + PortText(ip.port)
  {
    RenderParts(ip);
    var host, port, pa := HostText(ip.groups), PortText(ip.port), PathText(ip.path);
    assert host + (port + pa) == (host + port) + pa;
    HostPortChars(ip);
    assert (host + port)[0] == ip.groups[0][0];
    DomainOfParts(ip.scheme, host + port, pa);
  }

  /** The host of a well-formed IP URL has four dot-separated pieces and
      starts with a digit. */
  lemma IpUrlDomainShape(ip: IpUrl)
    requires ip.Valid()
    ensures var d := DomainOnly(Lower(ip.Render()));
      |Split(d, '.')| == 4 && !IsNonsenseDomain(d)
  {
    IpUrlDomain(ip);
    var host, port := HostText(ip.groups), PortText(ip.port);
    HostPortChars(ip);
    assert '.' !in port;
    assert forall i :: 0 <= i < |ip.groups| ==> '.' !in ip.groups[i] by {
      forall i | 0 <= i < |ip.groups|
        ensures '.' !in ip.groups[i]
      {
        assert IsDigitGroup(ip.groups[i]);
      }
    }
    CountJoin(ip.groups, '.');
    CountAbsent(port, '.');
    CountAppend(host, port, '.');
    assert (host + port)[0] == ip.groups[0][0];
  }

  /** An IP URL always also fires the subdomain check, since its host has
      four dot-separated pieces, and never the nonsense-domain check, since
      its host starts with a digit. */
  lemma IpUrlFiresSubdomainsNotNonsense(url: string, decoded: string)
    requires IsIpUrl(url)
    ensures var ctx := Prepare(url, decoded);
      && Fires(DirectIp, ctx)
      && |Split(ctx.domain, '.')| == 4
      && Fires(ManySubdomains, ctx)
      && !Fires(NonsenseDomain, ctx)
  {
    IpUrlHostShape(url);
    IpShapeFires(Prepare(url, decoded));
  }

  lemma IpShapeFires(ctx: Context)
    requires IsIpUrl(ctx.url) && |Split(ctx.domain, '.')| == 4 && !IsNonsenseDomain(ctx.domain)
    ensures Fires(DirectIp, ctx) && Fires(ManySubdomains, ctx) && !Fires(NonsenseDomain, ctx)
  {
  }

  lemma IpUrlHostShape(url: string)
    requires IsIpUrl(url)
    ensures var d := DomainOnly(Lower(url));
      |Split(d, '.')| == 4 && !IsNonsenseDomain(d)
  {
    var ip := ParseIp(url).value;
    ParsedIsRendering(url);
    IpUrlDomainShape(ip);
  }

  /** A nonsense domain has two pieces, so the subdomain check cannot also fire. */
  lemma NonsenseExcludesSubdomains(ctx: Context)
    requires Fires(NonsenseDomain, ctx)
    ensures !Fires(ManySubdomains, ctx)
  {
    NonsenseDomainPieces(ctx.domain);
  }

  // ---------------------------------------------------------------------------
  // The uncapped total

  /** Every weight is a multiple of 5, so the total is one too: an uncapped
      total of 51 cannot occur, and the smallest "Suspicious" total is 55.
      `Uncapped(url, decoded)` is this total for `Prepare(url, decoded)`. */
  lemma UncappedIsMultipleOfFive(ctx: Context)
    ensures TotalWeight(Fired(ctx)) % 5 == 0
    ensures TotalWeight(Fired(ctx)) != 51
  {
    TotalWeightPositive(Fired(ctx));
  }

  function Hit(c: Check, ctx: Context): nat {
    if Fires(c, ctx) then Weight(c) else 0
  }

  lemma {:induction false} FilterWeight(cs: seq<Check>, ctx: Context)
    ensures TotalWeight(Filter(cs, ctx)) == if |cs| == 0 then 0 else Hit(cs[0], ctx) + TotalWeight(Filter(cs[1..], ctx))
  {
    if |cs| > 0 {
      var head := if Fires(cs[0], ctx) then [cs[0]] else [];
      TotalWeightAppend(head, Filter(cs[1..], ctx));
    }
  }

  /** The four structural checks add at most 75: the nonsense-domain check
      (50) excludes the IP check (30) and the subdomain check (15). */
  lemma ShapeAtMost(ctx: Context)
    requires Fires(DirectIp, ctx) ==> !Fires(NonsenseDomain, ctx)
    requires Fires(NonsenseDomain, ctx) ==> !Fires(ManySubdomains, ctx)
    ensures TotalWeight(ShapeHits(ctx)) <= 75
  {
    var cs := StructuralChecks;
    FilterWeight(cs, ctx);
    FilterWeight(cs[1..], ctx);
    FilterWeight(cs[2..], ctx);
    FilterWeight(cs[3..], ctx);
    FilterWeight(cs[4..], ctx);
    assert cs[1..][1..] == cs[2..] && cs[2..][1..] == cs[3..] && cs[3..][1..] == cs[4..] && cs[4..] == [];
  }

  /** The uncapped total never exceeds 215: blacklist 40, all eight keywords
      80, one extension 20, the nonsense domain 50 (which excludes the IP and
      subdomain checks) and the homoglyph check 25. */
  lemma UncappedAtMost(url: string, decoded: string)
    ensures Uncapped(url, decoded) <= 215
  {
    var ctx := Prepare(url, decoded);
    FiredByGroup(ctx);
    BlacklistCountsOnce(ctx);
    KeywordsAddTenEach(ctx);
    ExtensionCountsOnce(ctx);
    if IsIpUrl(url) {
      IpUrlFiresSubdomainsNotNonsense(url, decoded);
    }
    if Fires(NonsenseDomain, ctx) {
      NonsenseExcludesSubdomains(ctx);
    }
    ShapeAtMost(ctx);
  }
}
