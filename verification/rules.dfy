/**
 The fixed configuration of the evaluator: the three lookup tables, the seven
 kinds of check with their weights and reason texts, and the order in which
 the checks are evaluated.
 */
module Rules {
  import opened Text

  const Blacklist: seq<string> := ["phishing.com", "scam-site.tk", "fakebank.xyz"]

  const Keywords: seq<string> := ["login", "secure", "bank", "verify", "update", "free", "cheap", "offer"]

  const Extensions: seq<string> := [".tk", ".ml", ".cf", ".gq", ".xyz"]

  /** The subdomain check fires when the host has more pieces than this. */
  const MaxHostPieces: nat := 3

  /** The status is "Suspicious" when the uncapped total is above this. */
  const SuspiciousAbove: nat := 50

  /** The reported score never exceeds this. */
  const ScoreCap: nat := 100

  const NoIssuesReason: string := "No obvious suspicious activity detected."

  /** One check that can fire, for the keyword and extension checks one per table entry. */
  datatype Check =
    | Blacklisted
    | SuspiciousKeyword(keyword: string)
    | RiskyExtension(ext: string)
    | NonsenseDomain
    | DirectIp
    | ManySubdomains
    | Homoglyph

  function Weight(c: Check): nat {
    match c
    case Blacklisted => 40
    case SuspiciousKeyword(_) => 10
    case RiskyExtension(_) => 20
    case NonsenseDomain => 50
    case DirectIp => 30
    case ManySubdomains => 15
    case Homoglyph => 25
  }

  function Reason(c: Check): string {
    match c
    case Blacklisted => "Domain appears in a known blacklist"
    case SuspiciousKeyword(k) => "Contains suspicious keyword: \"" + k + "\""
    case RiskyExtension(e) => "Uses a risky domain extension: \"" + e + "\""
    case NonsenseDomain => "Domain contains random, unrecognizable characters"
    case DirectIp => "Uses direct IP address instead of domain"
    case ManySubdomains => "Too many subdomains, could be phishing"
    case Homoglyph => "URL contains potential homoglyph attack"
  }

  function KeywordChecks(ks: seq<string>): (r: seq<Check>)
    ensures |r| == |ks|
    ensures forall i :: 0 <= i < |ks| ==> r[i] == SuspiciousKeyword(ks[i])
  {
    seq(|ks|, i requires 0 <= i < |ks| => SuspiciousKeyword(ks[i]))
  }

  /** No element of `s` appears twice. */
  predicate Distinct<T(==)>(s: seq<T>) {
    forall i, j :: 0 <= i < j < |s| ==> s[i] != s[j]
  }

  /** The eight keywords are eight different words. */
  lemma KeywordsDistinct()
    ensures Distinct(Keywords)
  {
    forall i, j | 0 <= i < j < |Keywords|
      ensures Keywords[i] != Keywords[j]
    {
      var a, b := Keywords[i], Keywords[j];
      assert a[0] != b[0] || a[1] != b[1];
    }
  }

  /** Different keywords give different checks. */
  lemma KeywordChecksDistinct(ks: seq<string>)
    requires Distinct(ks)
    ensures Distinct(KeywordChecks(ks))
  {
  }

  /** The keyword check for `k` is listed exactly when `k` is in the table. */
  lemma KeywordChecksHas(ks: seq<string>, k: string)
    ensures SuspiciousKeyword(k) in KeywordChecks(ks) <==> k in ks
  {
    var r := KeywordChecks(ks);
    if k in ks {
      var i :| 0 <= i < |ks| && ks[i] == k;
      assert r[i] == SuspiciousKeyword(k);
    }
    if SuspiciousKeyword(k) in r {
      var i :| 0 <= i < |r| && r[i] == SuspiciousKeyword(k);
      assert ks[i] == k;
    }
  }

  function ExtensionChecks(es: seq<string>): (r: seq<Check>)
    ensures |r| == |es|
    ensures forall i :: 0 <= i < |es| ==> r[i] == RiskyExtension(es[i])
  {
    seq(|es|, i requires 0 <= i < |es| => RiskyExtension(es[i]))
  }

  /** The checks that inspect the shape of the URL rather than a table. */
  const StructuralChecks: seq<Check> := [NonsenseDomain, DirectIp, ManySubdomains, Homoglyph]

  /** The checks driven by the three tables, in the order the evaluator runs them. */
  function TableChecks(): seq<Check> {
    [Blacklisted] + KeywordChecks(Keywords) + ExtensionChecks(Extensions)
  }

  /** Every check, in the order the evaluator runs them. */
  function AllChecks(): seq<Check> {
    TableChecks() + StructuralChecks
  }

  /** No reason a check emits can be mistaken for the default reason. */
  lemma ReasonIsNotDefault(c: Check)
    ensures Reason(c) != NoIssuesReason
  {
    match c
    case SuspiciousKeyword(k) =>
      assert Reason(c)[0] == 'C';
    case RiskyExtension(e) =>
      assert Reason(c)[0] == 'U';
    case _ =>
  }

  /** Every weight is a positive multiple of five. */
  lemma WeightIsPositiveFive(c: Check)
    ensures Weight(c) > 0 && Weight(c) % 5 == 0
  {
  }

  /** No entry of `table` is a suffix of another entry. */
  predicate SuffixFree(table: seq<string>) {
    forall i, j :: 0 <= i < |table| && 0 <= j < |table| && i != j ==> !EndsWith(table[j], table[i])
  }

  /** The extensions end in five different letters, so none ends another. */
  lemma ExtensionsSuffixFree()
    ensures SuffixFree(Extensions)
  {
    forall i, j | 0 <= i < |Extensions| && 0 <= j < |Extensions| && EndsWith(Extensions[j], Extensions[i])
      ensures i == j
    {
      var a, b := Extensions[i], Extensions[j];
      assert b[|b| - 1] == a[|a| - 1];
    }
  }

  /** Of two suffixes of one string, one ends the other. */
  lemma SuffixesOfOneString(s: string, a: string, b: string)
    requires EndsWith(s, a)
    ensures EndsWith(s, b) ==> EndsWith(a, b) || EndsWith(b, a)
  {
    if EndsWith(s, b) {
      if |a| <= |b| {
        SuffixesNest(s, a, b);
      } else {
        SuffixesNest(s, b, a);
      }
    }
  }

  /** A string that ends with one entry of a suffix-free table ends with no other. */
  lemma ExclusiveSuffix(s: string, table: seq<string>, i: int, j: int)
    requires SuffixFree(table)
    requires 0 <= i < |table| && 0 <= j < |table| && i != j
    requires EndsWith(s, table[i])
    ensures !EndsWith(s, table[j])
  {
    SuffixesOfOneString(s, table[i], table[j]);
  }
}
