/**
 The risk evaluator behind `POST /analyze`.

 `Accumulate` follows the handler statement by statement: one running score
 and one list of reasons, seven checks in a fixed order, none of them cutting
 the others short. `Fired` states the same outcome without the running state:
 the checks of `AllChecks` that fire, in that order. `AccumulateIsFired`
 connects the two, and `Evaluate` is specified against `Fired`.

 The IDN decoding the homoglyph check uses comes from a library outside this
 model, so `Evaluate` receives it as the parameter `toUnicode`. The library
 throws on a malformed `xn--` label; the parameter returns `None` there, and
 the handler then ends without a verdict.
 */
module Analyzer {
  import opened Results
  import opened Text
  import opened Patterns
  import opened Rules

  datatype Status = Safe | Suspicious {
    function Label(): string {
      match this
      case Safe => "Safe"
      case Suspicious => "Suspicious"
    }
  }

  /** The response body of a successful analysis. */
  datatype Verdict = Verdict(url: string, status: Status, riskScore: nat, reasons: seq<string>)

  /** The two ways the handler ends without a verdict: the request is refused
      (status 400, with a message), or the IDN decoder throws and the
      exception leaves the handler. */
  datatype AnalyzeError = UrlRequired | DecoderThrew {
    function Message(): string
      requires UrlRequired?
    {
      "URL is required"
    }
  }

  /** `replace(/^https?:\/\//, "")`: drops one leading scheme, if there is one. */
  function StripScheme(s: string): (r: string)
    ensures EndsWith(s, r)
    ensures r == s <==> !StartsWith(s, "http://") && !StartsWith(s, "https://")
    ensures r != s ==> s == "http://" + r || s == "https://" + r
  {
    if StartsWith(s, "https://") then
      StartsWithSplit(s, "https://");
      s[8..]
    else if StartsWith(s, "http://") then
      StartsWithSplit(s, "http://");
      s[7..]
    else s
  }

  /** `replace(...).split("/")[0]`: the host part of the lower-cased URL. */
  function DomainOnly(normalized: string): (d: string)
    ensures '/' !in d
    ensures StartsWith(StripScheme(normalized), d)
    ensures d == StripScheme(normalized) || StripScheme(normalized)[|d|] == '/'
  {
    FirstPieceIsPrefix(StripScheme(normalized), '/');
    Split(StripScheme(normalized), '/')[0]
  }

  /** Dropping the scheme of a URL gives back the rest of it. With no scheme
      the text must not itself start with one, or that would be dropped. */
  lemma StripSchemeOf(scheme: string, body: string)
    requires scheme == "" || scheme == "http://" || scheme == "https://"
    requires scheme == "" ==> !StartsWith(body, "http://") && !StartsWith(body, "https://")
    ensures StripScheme(scheme + body) == body
  {
    var u := scheme + body;
    if scheme == "" {
      assert u == body;
    } else if scheme == "http://" {
      assert u[4] == ':';
      assert u[7..] == body;
    } else {
      assert u[..8] == "https://";
      assert u[8..] == body;
    }
  }

  /** The host part of a URL is what lies between the scheme and the first `/`. */
  lemma DomainOnlyOf(scheme: string, host: string, rest: string)
    requires scheme == "" || scheme == "http://" || scheme == "https://"
    requires scheme == "" ==> !StartsWith(host + rest, "http://") && !StartsWith(host + rest, "https://")
    requires '/' !in host
    requires |rest| == 0 || rest[0] == '/'
    ensures DomainOnly(scheme + (host + rest)) == host
  {
    StripSchemeOf(scheme, host + rest);
    FirstPiece(host, rest, '/');
  }

  /** A scheme-less host part: `host.com/x` has host part `host.com`, though it
      starts with `h`. */
  lemma DomainOnlyWithoutScheme()
    ensures DomainOnly("host.com/x") == "host.com"
  {
    var u := "host.com/x";
    assert u == "" + ("host.com" + "/x");
    assert !StartsWith(u, "http://") by {
      assert u[4] != ':';
    }
    assert !StartsWith(u, "https://") by {
      assert u[4] != 's';
    }
    DomainOnlyOf("", "host.com", "/x");
  }

  /** What the checks look at: the URL as received, its lower-cased form, the
      host part of that, and the IDN decoding of the lower-cased form. */
  datatype Context = Context(url: string, normalized: string, domain: string, decoded: string)

  /** The context once the IDN decoder has returned `decoded` for the
      lower-cased URL. */
  function Prepare(url: string, decoded: string): Context {
    var normalized := Lower(url);
    Context(url, normalized, DomainOnly(normalized), decoded)
  }

  /** When a check fires. */
  predicate Fires(c: Check, ctx: Context) {
    match c
    case Blacklisted => exists i :: 0 <= i < |Blacklist| && Includes(ctx.normalized, Blacklist[i])
    case SuspiciousKeyword(k) => Includes(ctx.normalized, k)
    case RiskyExtension(e) => EndsWith(ctx.normalized, e)
    case NonsenseDomain => IsNonsenseDomain(ctx.domain)
    case DirectIp => IsIpUrl(ctx.url)
    case ManySubdomains => |Split(ctx.domain, '.')| > MaxHostPieces
    case Homoglyph => ctx.decoded != ctx.normalized
  }

  // ---------------------------------------------------------------------------
  // The handler's own order of work

  /** The running score and the reasons pushed so far. */
  datatype Tally = Tally(score: nat, reasons: seq<string>)

  /** One `if (...) { riskScore += w; reasons.push(r); }`. */
  function Flag(t: Tally, fired: bool, c: Check): Tally {
    if fired then Tally(t.score + Weight(c), t.reasons + [Reason(c)]) else t
  }

  /** `table.some(entry => s.includes(entry))`. */
  function AnyIncluded(s: string, table: seq<string>): (r: bool)
    ensures r <==> exists i :: 0 <= i < |table| && Includes(s, table[i])
    decreases |table|, s
  {
    if |table| == 0 then false
    else if Includes(s, table[0]) then true
    else
      var rest := AnyIncluded(s, table[1..]);
      assert forall i :: 1 <= i < |table| ==> table[i] == table[1..][i - 1];
      rest
  }

  /** `keywords.forEach(...)`: one flag per keyword, in table order. */
  function ScanKeywords(t: Tally, s: string, ks: seq<string>): Tally
    decreases |ks|, s
  {
    if |ks| == 0 then t
    else ScanKeywords(Flag(t, Includes(s, ks[0]), SuspiciousKeyword(ks[0])), s, ks[1..])
  }

  /** `extensions.forEach(...)`: one flag per extension, in table order. */
  function ScanExtensions(t: Tally, s: string, es: seq<string>): Tally
    decreases |es|, s
  {
    if |es| == 0 then t
    else ScanExtensions(Flag(t, EndsWith(s, es[0]), RiskyExtension(es[0])), s, es[1..])
  }

  /** The three table-driven checks: blacklist, keywords, extensions. */
  function TableTally(ctx: Context): Tally {
    var t1 := Flag(Tally(0, []), AnyIncluded(ctx.normalized, Blacklist), Blacklisted);
    var t2 := ScanKeywords(t1, ctx.normalized, Keywords);
    ScanExtensions(t2, ctx.normalized, Extensions)
  }

  /** The four checks on the shape of the URL, continuing from `t`. */
  function ShapeTally(t: Tally, ctx: Context): Tally {
    var t4 := Flag(t, IsNonsenseDomain(ctx.domain), NonsenseDomain);
    var t5 := Flag(t4, IsIpUrl(ctx.url), DirectIp);
    var t6 := Flag(t5, |Split(ctx.domain, '.')| > MaxHostPieces, ManySubdomains);
    Flag(t6, ctx.decoded != ctx.normalized, Homoglyph)
  }

  /** The seven checks in the handler's order, before the default reason is added. */
  function Accumulate(ctx: Context): Tally {
    ShapeTally(TableTally(ctx), ctx)
  }

  // ---------------------------------------------------------------------------
  // The same outcome, stated without running state

  /** The checks of `cs` that fire, in the order of `cs`. */
  function Filter(cs: seq<Check>, ctx: Context): (r: seq<Check>)
    ensures |r| <= |cs|
    decreases |cs|, ctx
  {
    if |cs| == 0 then []
    else (if Fires(cs[0], ctx) then [cs[0]] else []) + Filter(cs[1..], ctx)
  }

  /** A check is among the filtered ones exactly when it is in `cs` and fires. */
  lemma {:induction false} FilterMembers(cs: seq<Check>, ctx: Context, c: Check)
    ensures c in Filter(cs, ctx) <==> c in cs && Fires(c, ctx)
    decreases |cs|
  {
    if |cs| > 0 {
      FilterMembers(cs[1..], ctx, c);
      assert cs == [cs[0]] + cs[1..];
    }
  }

  /** Filtering a list without repetitions gives a list without repetitions. */
  lemma {:induction false} FilterDistinct(cs: seq<Check>, ctx: Context)
    requires Distinct(cs)
    ensures Distinct(Filter(cs, ctx))
    decreases |cs|
  {
    if |cs| > 0 {
      var tail := Filter(cs[1..], ctx);
      FilterDistinct(cs[1..], ctx);
      FilterMembers(cs[1..], ctx, cs[0]);
      if Fires(cs[0], ctx) {
        var r := [cs[0]] + tail;
        forall i, j | 0 <= i < j < |r|
          ensures r[i] != r[j]
        {
          if i == 0 {
            assert r[j] == tail[j - 1];
          }
        }
      }
    }
  }

  function TotalWeight(cs: seq<Check>): nat
    decreases |cs|
  {
    if |cs| == 0 then 0 else Weight(cs[0]) + TotalWeight(cs[1..])
  }

  function Reasons(cs: seq<Check>): seq<string> {
    seq(|cs|, i requires 0 <= i < |cs| => Reason(cs[i]))
  }

  /** The checks that fire on this input, in evaluation order. */
  function Fired(ctx: Context): seq<Check> {
    Filter(AllChecks(), ctx)
  }

  /** The sum of the weights of the checks that fired, before the cap. */
  function Uncapped(url: string, decoded: string): nat {
    TotalWeight(Fired(Prepare(url, decoded)))
  }

  lemma {:induction false} FilterAppend(a: seq<Check>, b: seq<Check>, ctx: Context)
    ensures Filter(a + b, ctx) == Filter(a, ctx) + Filter(b, ctx)
    decreases |a|
  {
    if |a| == 0 {
      assert a + b == b;
    } else {
      assert (a + b)[1..] == a[1..] + b;
      FilterAppend(a[1..], b, ctx);
    }
  }

  lemma {:induction false} TotalWeightAppend(a: seq<Check>, b: seq<Check>)
    ensures TotalWeight(a + b) == TotalWeight(a) + TotalWeight(b)
    decreases |a|
  {
    if |a| == 0 {
      assert a + b == b;
    } else {
      assert (a + b)[1..] == a[1..] + b;
      TotalWeightAppend(a[1..], b);
    }
  }

  lemma ReasonsAppend(a: seq<Check>, b: seq<Check>)
    ensures Reasons(a + b) == Reasons(a) + Reasons(b)
  {
  }

  /** Adding the checks of `cs` that fire to a tally. */
  function Extend(t: Tally, cs: seq<Check>, ctx: Context): Tally {
    var hits := Filter(cs, ctx);
    Tally(t.score + TotalWeight(hits), t.reasons + Reasons(hits))
  }

  lemma ExtendAppend(t: Tally, a: seq<Check>, b: seq<Check>, ctx: Context)
    ensures Extend(Extend(t, a, ctx), b, ctx) == Extend(t, a + b, ctx)
  {
    var ha, hb := Filter(a, ctx), Filter(b, ctx);
    FilterAppend(a, b, ctx);
    TotalWeightAppend(ha, hb);
    ReasonsAppend(ha, hb);
    assert t.reasons + Reasons(ha) + Reasons(hb) == t.reasons + (Reasons(ha) + Reasons(hb));
  }

  lemma FlagIsExtend(t: Tally, c: Check, ctx: Context)
    ensures Flag(t, Fires(c, ctx), c) == Extend(t, [c], ctx)
  {
    assert [c][1..] == [];
    var hits := Filter([c], ctx);
    assert hits == if Fires(c, ctx) then [c] else [];
    assert TotalWeight([c]) == Weight(c) + TotalWeight([]);
    assert Reasons([c]) == [Reason(c)];
    assert t.reasons + Reasons([]) == t.reasons;
  }

  lemma {:induction false} ScanKeywordsIsExtend(t: Tally, ks: seq<string>, ctx: Context)
    ensures ScanKeywords(t, ctx.normalized, ks) == Extend(t, KeywordChecks(ks), ctx)
    decreases |ks|
  {
    if |ks| > 0 {
      var c := SuspiciousKeyword(ks[0]);
      FlagIsExtend(t, c, ctx);
      ScanKeywordsIsExtend(Flag(t, Fires(c, ctx), c), ks[1..], ctx);
      ExtendAppend(t, [c], KeywordChecks(ks[1..]), ctx);
      assert [c] + KeywordChecks(ks[1..]) == KeywordChecks(ks);
    }
  }

  lemma {:induction false} ScanExtensionsIsExtend(t: Tally, es: seq<string>, ctx: Context)
    ensures ScanExtensions(t, ctx.normalized, es) == Extend(t, ExtensionChecks(es), ctx)
    decreases |es|
  {
    if |es| > 0 {
      var c := RiskyExtension(es[0]);
      FlagIsExtend(t, c, ctx);
      ScanExtensionsIsExtend(Flag(t, Fires(c, ctx), c), es[1..], ctx);
      ExtendAppend(t, [c], ExtensionChecks(es[1..]), ctx);
      assert [c] + ExtensionChecks(es[1..]) == ExtensionChecks(es);
    }
  }

  lemma TableTallyIsExtend(ctx: Context)
    ensures TableTally(ctx) == Extend(Tally(0, []), TableChecks(), ctx)
  {
    var t0 := Tally(0, []);
    var ks, es := KeywordChecks(Keywords), ExtensionChecks(Extensions);
    var t1 := Flag(t0, AnyIncluded(ctx.normalized, Blacklist), Blacklisted);
    FlagIsExtend(t0, Blacklisted, ctx);
    var t2 := ScanKeywords(t1, ctx.normalized, Keywords);
    ScanKeywordsIsExtend(t1, Keywords, ctx);
    ExtendAppend(t0, [Blacklisted], ks, ctx);
    ScanExtensionsIsExtend(t2, Extensions, ctx);
    ExtendAppend(t0, [Blacklisted] + ks, es, ctx);
  }

  /** Four flags in a row add the checks among them that fire. */
  lemma FourFlagsAreExtend(t: Tally, c0: Check, c1: Check, c2: Check, c3: Check, ctx: Context)
    ensures Flag(Flag(Flag(Flag(t, Fires(c0, ctx), c0), Fires(c1, ctx), c1), Fires(c2, ctx), c2), Fires(c3, ctx), c3)
         == Extend(t, [c0, c1, c2, c3], ctx)
  {
    var t1 := Flag(t, Fires(c0, ctx), c0);
    var t2 := Flag(t1, Fires(c1, ctx), c1);
    var t3 := Flag(t2, Fires(c2, ctx), c2);
    FlagIsExtend(t, c0, ctx);
    FlagIsExtend(t1, c1, ctx);
    FlagIsExtend(t2, c2, ctx);
    FlagIsExtend(t3, c3, ctx);
    ExtendAppend(t, [c0], [c1], ctx);
    ExtendAppend(t, [c0, c1], [c2], ctx);
    ExtendAppend(t, [c0, c1, c2], [c3], ctx);
    assert [c0] + [c1] == [c0, c1] && [c0, c1] + [c2] == [c0, c1, c2] && [c0, c1, c2] + [c3] == [c0, c1, c2, c3];
  }

  lemma ShapeTallyIsExtend(t: Tally, ctx: Context)
    ensures ShapeTally(t, ctx) == Extend(t, StructuralChecks, ctx)
  {
    FourFlagsAreExtend(t, NonsenseDomain, DirectIp, ManySubdomains, Homoglyph, ctx);
    ShapeFires(ctx);
    ShapeFlagsAreFires(t, ctx, IsNonsenseDomain(ctx.domain), IsIpUrl(ctx.url),
                       |Split(ctx.domain, '.')| > MaxHostPieces, ctx.decoded != ctx.normalized);
  }

  lemma ShapeFires(ctx: Context)
    ensures Fires(NonsenseDomain, ctx) == IsNonsenseDomain(ctx.domain)
    ensures Fires(DirectIp, ctx) == IsIpUrl(ctx.url)
    ensures Fires(ManySubdomains, ctx) == (|Split(ctx.domain, '.')| > MaxHostPieces)
    ensures Fires(Homoglyph, ctx) == (ctx.decoded != ctx.normalized)
  {
  }

  /** Substitutes the four conditions by `Fires`, over plain booleans, so the
      solver does not unfold the checks while matching the two flag chains. */
  lemma ShapeFlagsAreFires(t: Tally, ctx: Context, b0: bool, b1: bool, b2: bool, b3: bool)
    requires b0 == Fires(NonsenseDomain, ctx) && b1 == Fires(DirectIp, ctx)
    requires b2 == Fires(ManySubdomains, ctx) && b3 == Fires(Homoglyph, ctx)
    ensures Flag(Flag(Flag(Flag(t, b0, NonsenseDomain), b1, DirectIp), b2, ManySubdomains), b3, Homoglyph)
         == Flag(Flag(Flag(Flag(t, Fires(NonsenseDomain, ctx), NonsenseDomain), Fires(DirectIp, ctx), DirectIp),
                      Fires(ManySubdomains, ctx), ManySubdomains), Fires(Homoglyph, ctx), Homoglyph)
  {
  }

  /** The handler's running score and reasons are exactly the weights and
      reasons of the checks that fire, in evaluation order. */
  lemma AccumulateIsFired(ctx: Context)
    ensures Accumulate(ctx).score == TotalWeight(Fired(ctx))
    ensures Accumulate(ctx).reasons == Reasons(Fired(ctx))
  {
    var t0 := Tally(0, []);
    TableTallyIsExtend(ctx);
    ShapeTallyIsExtend(TableTally(ctx), ctx);
    ExtendAppend(t0, TableChecks(), StructuralChecks, ctx);
    assert t0.reasons + Reasons(Fired(ctx)) == Reasons(Fired(ctx));
  }

  // ---------------------------------------------------------------------------
  // The handler

  function Classify(total: int): Status {
    if total > SuspiciousAbove then Suspicious else Safe
  }

  function Min(a: int, b: int): int {
    if a < b then a else b
  }

  /** The response built from the final tally: the default reason when no
      check fired, the status from the uncapped score, then the cap. */
  function Conclude(url: string, t: Tally): Verdict {
    var reasons := if |t.reasons| == 0 then [NoIssuesReason] else t.reasons;
    Verdict(url, Classify(t.score), Min(t.score, ScoreCap), reasons)
  }

  /** The `/analyze` handler without its HTTP framing: `url` is the request
      body's `url` field, `None` when it is missing, and `toUnicode` is the IDN
      decoder, `None` where it throws. */
  function Evaluate(url: Option<string>, toUnicode: string -> Option<string>): (r: Result<Verdict, AnalyzeError>)
    ensures r.Failure? <==> url.None? || url.value == "" || toUnicode(Lower(url.value)).None?
    ensures r.Failure? ==> (r.error.UrlRequired? <==> url.None? || url.value == "")
    ensures r.Failure? && r.error.UrlRequired? ==> r.error.Message() == "URL is required"
    ensures r.Success? ==> r.value.url == url.value
    ensures r.Success? ==>
      var uncapped := Uncapped(url.value, toUnicode(Lower(url.value)).value);
      && r.value.riskScore == Min(uncapped, ScoreCap)
      && 0 <= r.value.riskScore <= ScoreCap
      && (r.value.status == Suspicious <==> uncapped > SuspiciousAbove)
    ensures r.Success? ==>
      var fired := Fired(Prepare(url.value, toUnicode(Lower(url.value)).value));
      r.value.reasons == if fired == [] then [NoIssuesReason] else Reasons(fired)
  {
    if url.None? || url.value == "" then Failure(UrlRequired)
    else
      match toUnicode(Lower(url.value))
      case None => Failure(DecoderThrew)
      case Some(decoded) =>
        var ctx := Prepare(url.value, decoded);
        AccumulateIsFired(ctx);
        Success(Conclude(url.value, Accumulate(ctx)))
  }
}
