# Phishing-risk evaluator: a Dafny model

This project models the URL risk evaluator behind the `POST /analyze`
endpoint of a small phishing-detection server (`server.js`). The handler takes
a URL and lower-cases it (ASCII only in this model). It takes the host part of
the URL and runs seven checks in a fixed order:

- a blacklist of domains;
- eight suspicious keywords;
- five risky top-level extensions;
- a "nonsense domain" regular expression;
- a "direct IP address" regular expression;
- a subdomain count;
- an IDN (punycode) homoglyph comparison.

Every check that fires adds a weight and a reason. The reply carries the URL and
a status of "Suspicious" above 50 (decided on the uncapped sum). It also carries
the score capped at 100 and the reasons, or a single default reason when nothing
fired. A missing or empty URL is refused with "URL is required". When the IDN
decoder throws, the handler ends without a verdict.

Modules, in dependency order:

- `Results`: `Option` and `Result` with failure propagation.
- `Text`: the JavaScript string operations used: ASCII `toLowerCase`,
  `startsWith`, `endsWith`, `includes` (as an existential and as the left-to-right
  scan), and `split`/`join` on one character.
- `Patterns`: the two regular expressions. `/^[a-z]{10,}\.com$/` is a predicate.
  The IP pattern is a deterministic parser `ParseIp` with a printer `Render`, and
  round-trip lemmas pin its language down.
- `Rules`: the three tables, the seven kinds of check with their weights and
  reason texts, and the evaluation order.
- `Analyzer`: the handler. `Accumulate` follows the source statement by
  statement with a running score and reason list. `Fired` is the declarative
  reading: the checks of `AllChecks()` that fire, in order. `AccumulateIsFired`
  proves the two agree. `Evaluate` is the whole handler, specified against
  `Fired`.
- `Properties`: what holds for every URL. It covers the per-group
  contributions, the default reason, what an IP URL always triggers, and the
  range of the uncapped sum.
- `Scenarios`: the full verdict for four URLs. `http://secure-login-bank.com`
  and `http://192.168.1.1/path` are Safe. `http://abcdfghijk.com` sits on the
  status boundary at 50. `http://bankloginphishing.com` sums to 110, so it is
  Suspicious with its score capped at 100.

## Model

| member | source | states |
|---|---|---|
| Analyzer.Evaluate | server.js:16-71 | A missing or empty `url` is refused with "URL is required". A non-empty URL on which the IDN decoder throws gets no verdict. Every other URL gets one. The verdict echoes the URL. The score is the uncapped sum of fired weights capped at 100, so it lies in 0..100. The status is Suspicious exactly when the uncapped sum exceeds 50. The reasons are those of the fired checks in order, or the default reason when none fired. |
| Analyzer.AccumulateIsFired | server.js:20-65 | The handler's running score and pushed reasons equal the total weight and the reasons of the checks that fire, taken in evaluation order. |
| Analyzer.FilterMembers | server.js:26-65 | A check is among the fired ones exactly when it is one of the evaluator's checks and its condition holds. |
| Analyzer.StripScheme | server.js:24 | At most one leading `http://` or `https://` is removed. The result is the rest of the input, and it is unchanged exactly when neither scheme is present. |
| Analyzer.DomainOnly | server.js:24 | The host part holds no `/`. It is a prefix of the scheme-less URL and stops at the end or at the first `/`. |
| Analyzer.DomainOnlyOf | server.js:24 | Take a URL built as scheme (empty, `http://` or `https://`), then a slash-free host, then a rest that is empty or starts with `/`. Its host part is exactly that host, provided that with an empty scheme the host and rest do not themselves start with `http://` or `https://`. |
| Analyzer.StripSchemeOf | server.js:24 | Dropping the scheme of `scheme + body` gives `body` back, provided that with an empty scheme `body` does not itself start with `http://` or `https://`. Without that proviso `"" + "https://x"` would lose its scheme. |
| Analyzer.DomainOnlyWithoutScheme | server.js:24 | A URL without a scheme keeps its host part even when it starts with `h`: `host.com/x` has host part `host.com`. |
| Analyzer.Prepare | server.js:23-24 | No contract of its own. It builds what the checks read: the URL as received, its lower-cased form, that form's host part and the decoder's output for it. `Text.Lower` and `Analyzer.DomainOnly` characterise the parts. |
| Analyzer.Fires | server.js:26-64 | No contract of its own. It is the condition of each of the seven `if`s. `Analyzer.FilterMembers` and `Analyzer.AccumulateIsFired` tie it to the handler. |
| Analyzer.ScanKeywords | server.js:31-36 | No contract of its own. It is the `forEach` over the keywords, one flag per entry in table order. `Analyzer.AccumulateIsFired` equates it with the keyword checks that fire. |
| Analyzer.ScanExtensions | server.js:38-43 | No contract of its own. It is the `forEach` over the extensions, one flag per entry in table order. `Analyzer.AccumulateIsFired` equates it with the extension checks that fire. |
| Analyzer.Flag | server.js:26-64 | No contract of its own. It is one `if (...) { riskScore += w; reasons.push(r); }`: when the condition holds it adds the check's weight and appends its reason, otherwise it changes nothing. `Analyzer.AccumulateIsFired` states what the seven flags add up to. |
| Analyzer.TableTally | server.js:26-43 | No contract of its own. It is the blacklist flag followed by the keyword and extension scans, starting from score 0 and no reasons. `Analyzer.AccumulateIsFired` equates it with the table checks that fire. |
| Analyzer.ShapeTally | server.js:45-65 | No contract of its own. It is the nonsense, IP, subdomain and homoglyph flags, in that order. `Analyzer.AccumulateIsFired` equates them with the structural checks that fire. |
| Analyzer.Uncapped | server.js:69 | No contract of its own. It is the `riskScore` before `Math.min`, the total weight of the fired checks. `Analyzer.Evaluate` classifies and caps it, and `Properties.UncappedIsMultipleOfFive` and `Properties.UncappedAtMost` bound it. |
| Analyzer.Accumulate | server.js:20-65 | No contract of its own. It is the running score and reason list after the seven checks. `Analyzer.AccumulateIsFired` states its outcome. |
| Analyzer.Classify | server.js:69 | No contract of its own. "Suspicious" above 50, else "Safe". `Analyzer.Evaluate` states the status it gives. |
| Analyzer.Min | server.js:71 | No contract of its own. It is `Math.min` on two integers. `Analyzer.Evaluate` states that the reported score is the uncapped sum capped at 100. |
| Analyzer.AnalyzeError.Message | server.js:18 | No contract of its own. It is the refusal text "URL is required". `Analyzer.Evaluate` states that a missing or empty URL is refused with it. |
| Analyzer.Conclude | server.js:67-71 | No contract of its own. It adds the default reason to an empty list, classifies the uncapped score and caps it. `Analyzer.Evaluate` states the reply it builds. |
| Analyzer.FilterDistinct | server.js:31-36 | Filtering a list without repetitions gives a list without repetitions, so no check is reported twice. |
| Analyzer.AnyIncluded | server.js:26 | `some(includes)` holds exactly when some table entry occurs in the string. |
| Text.Lower | server.js:23 | Lower-casing keeps the length, and the result has no upper-case letter. |
| Text.LowerChars | server.js:23 | Lower-casing maps each upper-case ASCII letter to its lower-case partner, 32 code points on, and keeps every other character. |
| Text.Includes | server.js:32 | No contract of its own. It is `includes` read as "the needle occurs at some position". `Text.IncludesScanIff` equates it with the left-to-right scan. |
| Text.EndsWith | server.js:39 | No contract of its own. It is `endsWith`: the string's last characters, as many as the suffix has, are the suffix. `Rules.ExclusiveSuffix` and `Properties.SuffixFreeHitsAtMostOne` build on it. |
| Text.IncludesScanIff | server.js:32 | The left-to-right `includes` scan succeeds exactly when the needle occurs at some position. |
| Text.Split | server.js:56 | `split` returns one more piece than there are separators, and no piece contains the separator. |
| Text.JoinSplit | server.js:24 | Joining the pieces of a split with the separator gives the original string back. |
| Text.SplitJoin | server.js:56 | Splitting separator-free pieces joined by the separator gives those pieces back. |
| Patterns.IsNonsenseDomain | server.js:14 | No contract of its own. It is `/^[a-z]{10,}\.com$/` as a predicate: at least 14 characters, ending in `.com`, and lower-case letters before that. `Patterns.NonsenseDomainIff` states its language. |
| Patterns.NonsenseDomainIff | server.js:14 | A host is accepted exactly when it is ten or more letters `a`-`z` followed by `.com`. So nine letters, an upper-case letter, another character or trailing text are all refused. |
| Patterns.ParseIp | server.js:50 | No contract of its own. It is the deterministic parser for the IP pattern. `Patterns.ParsedIsRendering` and `Patterns.ParseRendered` state its language. |
| Patterns.IsIpUrl | server.js:50-51 | No contract of its own. It is `ipPattern.test(url)`, true when `ParseIp` succeeds. `Patterns.IsIpUrlIff` characterises it. |
| Patterns.NonsenseDomainPieces | server.js:14 | A host matching the nonsense-domain pattern splits on `.` into exactly its letters and `com`, and starts with a letter. |
| Patterns.ParseGroups | server.js:50 | A successful parse of `n` dot-separated groups returns `n` groups of one to three digits. The groups joined by dots, followed by the remainder, spell the input, and the remainder does not start with a digit. |
| Patterns.ParsedIsRendering | server.js:50-51 | Every URL the IP test accepts is the rendering of the well-formed value the parser returns. |
| Patterns.ParseRendered | server.js:50-51 | The parser recovers every well-formed IP URL (optional case-sensitive scheme, four groups of one to three digits, optional port, optional path without line terminators) from its rendering. |
| Patterns.IsIpUrlIff | server.js:50-51 | The IP test accepts a string exactly when it is the rendering of some well-formed IP URL. |
| Rules.Blacklist | server.js:11 | No contract of its own. It holds the three blacklisted domains in source order. `Properties.BlacklistCountsOnce` states what the table contributes. |
| Rules.Keywords | server.js:12 | No contract of its own. It holds the eight keywords in source order. `Rules.KeywordsDistinct` and `Properties.KeywordsAddTenEach` state what the table contributes. |
| Rules.Extensions | server.js:13 | No contract of its own. It holds the five risky extensions in source order. `Rules.ExtensionsSuffixFree` and `Properties.ExtensionCountsOnce` state what the table contributes. |
| Rules.StructuralChecks | server.js:45-65 | No contract of its own. It lists the nonsense, IP, subdomain and homoglyph checks in source order. |
| Rules.TableChecks | server.js:26-43 | No contract of its own. It lists the blacklist check, then one check per keyword, then one per extension, in table order. |
| Rules.AllChecks | server.js:26-65 | No contract of its own. It is the evaluation order: the table checks, then the structural checks. `Analyzer.AccumulateIsFired` proves the handler runs the checks in this order, and `Properties.FiredByGroup` splits the fired checks along it. |
| Rules.NoIssuesReason | server.js:67 | No contract of its own. It is the default reason. `Rules.ReasonIsNotDefault` and `Properties.DefaultReasonIffNothingFired` state when it appears. |
| Rules.Weight | server.js:26-64 | No contract of its own. Its weights are 40, 10, 20, 50, 30, 15 and 25 as in the source. `Rules.WeightIsPositiveFive` and the scenario scores use them. |
| Rules.Reason | server.js:26-64 | No contract of its own. It gives the reason texts, with the keyword or extension quoted. `Rules.ReasonIsNotDefault` and the scenario reason lists use them. |
| Rules.KeywordsDistinct | server.js:12 | The eight keywords are pairwise different. |
| Rules.KeywordChecksHas | server.js:31-36 | The keyword checks hold one check for a keyword exactly when the keyword is in the table. |
| Rules.ReasonIsNotDefault | server.js:67 | No reason a check emits equals the default reason. |
| Rules.ExtensionsSuffixFree | server.js:13 | No risky extension ends with another. |
| Rules.ExclusiveSuffix | server.js:38-43 | A string that ends with one entry of a suffix-free table ends with no other entry. |
| Properties.TotalWeightPositive | server.js:20-65 | The total weight of a list of checks is 0 exactly when the list is empty, and it is always a multiple of 5. |
| Properties.DefaultReasonIffNothingFired | server.js:67-71 | The reasons are the single default reason exactly when no check fired. The score is 0 exactly when no check fired, and then the status is Safe. Otherwise there is one reason per fired check, in order. |
| Properties.FiredByGroup | server.js:26-65 | The fired checks are the blacklist hits, then the keyword hits, then the extension hits, then the structural hits. The total weight is the sum over the four groups. |
| Properties.BlacklistCountsOnce | server.js:26-29 | The blacklist contributes at most one reason. It adds 40 when any entry occurs in the lower-cased URL and 0 otherwise, however many entries occur. |
| Properties.KeywordsAddTenEach | server.js:31-36 | Every keyword hit adds exactly 10. A keyword's check fires exactly when the keyword is in the table and occurs in the lower-cased URL. Only keyword checks appear among the keyword hits, and none appears twice. So each contained keyword adds 10 and one reason exactly once. |
| Properties.SuffixFreeHitsAtMostOne | server.js:38-43 | Against a suffix-free table, at most one extension check fires. |
| Properties.ExtensionCountsOnce | server.js:38-43 | The extension group fires at most once and adds either 0 or 20. |
| Properties.IpUrlDomainShape | server.js:50-56 | The host part of a well-formed IP URL has exactly four dot-separated pieces and does not match the nonsense-domain pattern. |
| Properties.IpUrlFiresSubdomainsNotNonsense | server.js:45-58 | A URL the IP test accepts always fires the IP check and the subdomain check (four host pieces), and never the nonsense-domain check. |
| Properties.NonsenseExcludesSubdomains | server.js:45-58 | When the nonsense-domain check fires, the subdomain check does not. |
| Properties.ShapeAtMost | server.js:45-65 | Given the two exclusions above, the four structural checks add at most 75. |
| Properties.UncappedIsMultipleOfFive | server.js:20-69 | For every input the total weight of the fired checks, which is the uncapped sum, is a multiple of 5. So the sum 51 never occurs, and every Suspicious sum is at least 55. |
| Properties.UncappedAtMost | server.js:20-65 | The uncapped sum never exceeds 215, for every URL and every decoder output. |
| Scenarios.LanAddressIsIp | server.js:50-51 | `http://192.168.1.1/path` is accepted by the IP test. |
| Scenarios.SecureLoginBankHits | server.js:26-65 | On `http://secure-login-bank.com` exactly the keyword checks for "login", "secure" and "bank" fire, in that order. |
| Scenarios.SecureLoginBankIsSafe | server.js:16-71 | `http://secure-login-bank.com` is reported Safe with score 30 and the three keyword reasons in table order. |
| Scenarios.LanAddressHits | server.js:45-59 | On `http://192.168.1.1/path` exactly the IP check and the subdomain check fire; the nonsense-domain check does not. |
| Scenarios.LanAddressIsSafe | server.js:16-71 | `http://192.168.1.1/path` is reported Safe with score 45 and the IP and subdomain reasons, in that order. |
| Scenarios.TenLettersHits | server.js:14 | On `http://abcdfghijk.com`, whose host has exactly ten letters before `.com`, only the nonsense-domain check fires. |
| Scenarios.NineLettersRefused | server.js:14 | `abcdefghi.com`, nine letters before `.com`, does not match the nonsense-domain pattern. |
| Scenarios.TenLettersIsSafe | server.js:16-71 | `http://abcdfghijk.com` scores exactly 50, which is not above 50, so it is reported Safe with the one nonsense-domain reason. |
| Scenarios.BankLoginPhishingHits | server.js:26-65 | On `http://bankloginphishing.com` exactly the blacklist, "login", "bank" and nonsense-domain checks fire, in that order. |
| Scenarios.BankLoginPhishingIsCapped | server.js:16-71 | `http://bankloginphishing.com` sums to 110. It is reported Suspicious, decided on the 110, with the score capped at 100 and the four reasons. |

## Left out

- HTTP framing: the Express app, CORS, JSON parsing and the port setup (server.js:1-9, 74-76) are not modelled. `Evaluate` takes the body's `url` field as `Option<string>` and returns the reply body or the error.
- Non-string `url` values: the source's `!url` also refuses `0`, `false` and `null`, and would call `toLowerCase` on a number or object. The model admits only a string or a missing field.
- `punycode.toUnicode`: the decoder is an outside library, so `Evaluate` takes it as the parameter `toUnicode: string -> Option<string>`. `None` stands for a throw, as on a malformed `xn--` label such as the one in `http://a.xn--zz.com`. Which inputs throw and what the decoder returns otherwise are not modelled. A throw gives `DecoderThrew`. The 500 reply that Express then sends is HTTP framing. The worked examples hold for every decoder that returns their ASCII URL unchanged.
- Text.Lower: lower-cases ASCII letters only. JavaScript's `toLowerCase` also maps non-ASCII letters (and can change a string's length for a few characters). The checks are stated over this ASCII lower-casing.
- Regular expressions in general: the two patterns are written as a predicate and a parser rather than run by a regex engine. `Patterns.IsIpUrlIff` characterises the parser's language.
- Status labels: the model returns the `Status` values `Safe`/`Suspicious`. The JSON strings are given by `Status.Label` and are not tied to the reply by a contract.
