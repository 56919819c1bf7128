# NetWard.ai threat scoring, modelled in Dafny

NetWard.ai scores a URL or an uploaded document (an HTML page or an email
source) for phishing and malware risk. Its scoring engine lives in the
`useThreatDetection` hook. The engine has six parts:

- **URL scorer (`performThreatAnalysis`).** It runs six ordered heuristics
  on the URL and its domain: blacklist, suspicious patterns, plain HTTP, a
  new domain, a link shortener and a suspicious top-level domain.
- **Document scorer (`performFileAnalysis`).** It runs five content
  heuristics: many script blocks, an iframe, each insecure form action,
  phishing language and a brand name.
- **How a heuristic scores.** Each heuristic that fires adds a fixed weight
  to a running score and pushes one risk factor.
- **The verdict.** Both scorers then record detection methods and
  reassurance features. A shared ladder (80 / 50 / 25) turns the raw score
  into a category and a recommendation. The score is reported capped at 100.
- **The narrative.** A templated text, standing in for a language model,
  explains the verdict.
- **Domain extraction (`extractDomain`).** It takes the hostname of the URL,
  or the URL itself when parsing fails.

The project has seven modules:

- `Wrappers`: the `Option` type.
- `Text`: strings, ASCII case folding, the case-insensitive literal matching
  the regular expressions amount to, JavaScript whitespace and line
  terminators, and decimal rendering.
- `Patterns`: the threat database and keyword tables. Each regular
  expression is stated as a predicate. The two global expressions of the
  document scorer are stated as a leftmost, non-overlapping match iteration.
- `Verdict`: the result record and the evidence table. A `Check` is one
  heuristic's outcome, weight and factor. `Score` and `Factors` are
  the accumulation over a table. The module also holds the category ladder
  and both recommendation tables.
- `Narrative`: the two explanation generators.
- `UrlScorer` and `FileScorer`: one per scorer. Each has a specification
  function, `UrlAnalysis` or `FileAnalysis`. An imperative method follows
  the source step by step: local accumulators, conditional pushes, the
  `forEach` over form matches as a loop. Each method is proved equal to its
  specification function, and the promised properties are proved as lemmas
  about those functions.

A result is `AnalysisResult(subject, aiAnalysis, assessment)`:

- `subject` is the source's `url` field. It holds the file name for a
  document.
- `aiAnalysis` is the narrative.
- `assessment` is everything else: score, category, recommendation, risk
  factors, security features, detection methods and technical details.

The fields are the source's, regrouped so that the narrative sits apart
from the evidence.

Inputs the source takes from its environment are parameters:

- The URL parser (`new URL(url).hostname`) is a function
  `hostOf: string -> Option<string>`. `None` stands for a parse failure.
- Every `Math.random()` draw of the URL scorer that the model keeps is a
  field of `UrlDraws`, already reduced to what the source derives from it. For example,
  `newDomain` is `Math.random() > 0.7`.

The five text tests of the URL scorer are pure, and so are the content
tests of the document scorer. The methods evaluate them once, before the
accumulation, into a `UrlSignals` or `FileSignals` record. The accumulation
then reads those booleans in the source's order. This changes no result.

In three places the code does something other than what its own factor
texts and pattern lists suggest. The model follows the code:

- **The form-action test.** The factor reads "Form submits to insecure
  endpoint", but `/^https:/i` is applied to the whole match text, for
  example `action="https://x"`, and not to the captured URL. Every match
  text starts with `action`, so the test never passes. Each form-action
  match adds 25 and one factor, whatever URL the form posts to
  (`FileScorer.EveryFormMatchCounts`, `FileScorer.SecureFormIsCountedInsecure`).
- **The top-level-domain expression.** The check is meant for the domain's
  suffix, but in `/\.tk|\.ml|\.ga|\.cf|\.info|\.biz$/i` only `.biz` is
  anchored to the end. The other five count anywhere in the
  domain (`Patterns.TldAnchoring`).
- **Shorteners are scored twice.** A URL naming `bit.ly`, `tinyurl` or
  `t.co` is scored by both the suspicious-pattern check and the shortener
  check, whatever else it names (`UrlScorer.ShortenerCountedTwice`); so is
  `https://bit.ly/short.link` (`UrlScorer.BitLyShortLinkCountedTwice`).

## Model

| member | source | states |
|---|---|---|
| Patterns.HttpsIsLowerPrefix | src/hooks/useThreatDetection.ts:104 | the HTTPS test holds exactly when the URL lower-cased starts with `https://` |
| Text.NatToString | src/hooks/useThreatDetection.ts:213 | a count renders as one or more decimal digits with no leading zero |
| Text.NatToStringRoundTrip | src/hooks/useThreatDetection.ts:213 | the count written into the script factor reads back as that count |
| Patterns.ShortenerAlsoSuspicious | src/hooks/useThreatDetection.ts:97-129 | a URL naming `bit.ly`, `tinyurl` or `t.co` matches the suspicious-pattern list and the shortener test, whatever else it names |
| Patterns.ShortLinkDoesNotHideBitLy | src/hooks/useThreatDetection.ts:44 | `https://bit.ly/short.link` names both `bit.ly` and `short.link` |
| Patterns.PhishingPhraseFires | src/hooks/useThreatDetection.ts:235 | `Please VERIFY your Account` satisfies the phishing-language test, in any case |
| Patterns.BreakSeparates | src/hooks/useThreatDetection.ts:235 | a line break between the two words of a `.*` phrase keeps the phrase from matching across it |
| Patterns.PhishingPhraseStopsAtLineBreak | src/hooks/useThreatDetection.ts:235 | `verify` and `account` on two lines do not match `/verify.*account/i` |
| Patterns.BrandFiresInAnyCase | src/hooks/useThreatDetection.ts:242 | `Sign in to PayPal` names a brand |
| Patterns.MatchesFrom | src/hooks/useThreatDetection.ts:209-210 | the global match list from a position holds non-empty texts, no more than there are characters left, and is empty past the end |
| Patterns.AllMatches | src/hooks/useThreatDetection.ts:224 | every global match text is non-empty and there are at most as many as characters in the content |
| Patterns.MatchesFromStep | src/hooks/useThreatDetection.ts:209-210 | a match at the scan position is the first element of the global list, and the scan resumes where it ends |
| Patterns.ScriptElementEnd | src/hooks/useThreatDetection.ts:209-210 | the lazy script match starting at `<script>x</script>` ends right after its `</script>` |
| Patterns.ScriptElementsMatch | src/hooks/useThreatDetection.ts:209-210 | `n` script elements in a row give exactly `n` matches, each one element |
| Patterns.SecureFormActionEnd | src/hooks/useThreatDetection.ts:224 | the form-action match at the start of `action="https://x"` covers the whole text |
| Patterns.SecureFormMatches | src/hooks/useThreatDetection.ts:224 | the global form-action match of `action="https://x"` is that text, once |
| Patterns.SecureFormPassesDetailTest | src/hooks/useThreatDetection.ts:285 | `action="https://x"` satisfies `/action.*https/i` |
| Patterns.InfixTldCounts | src/hooks/useThreatDetection.ts:132 | each of `.tk`, `.ml`, `.ga`, `.cf` and `.info` counts wherever it occurs in the domain |
| Patterns.BizAtEndCounts | src/hooks/useThreatDetection.ts:132 | `.biz` at the end of the domain counts |
| Patterns.InnerBizDoesNotCount | src/hooks/useThreatDetection.ts:132 | `store.biz.net` fires no alternative of the TLD expression |
| Patterns.TldAnchoring | src/hooks/useThreatDetection.ts:132 | `.tk`, `.ml`, `.ga`, `.cf` and `.info` all count anywhere in the domain; `.biz` counts at the end and not in the middle (`store.biz.net`) |
| Patterns.ScriptBlockEnd | src/hooks/useThreatDetection.ts:209-210 | a lazy script match starts with `<script`, ends with `</script>` and lies inside the content |
| Patterns.FormActionEnd | src/hooks/useThreatDetection.ts:224 | a form-action match starts with `action`, ends with a quote and lies inside the content |
| Patterns.MatchAtGivesMatches | src/hooks/useThreatDetection.ts:210-211 | a match starting anywhere from the scan position on makes the global match list non-empty |
| Patterns.MatchesGiveMatchAt | src/hooks/useThreatDetection.ts:224-225 | a non-empty global match list (not `null`) has a match starting at some position |
| Patterns.HasMatchIffMatches | src/hooks/useThreatDetection.ts:209-211 | the `test` guard succeeds exactly when the global `match` finds at least one block |
| Patterns.FormMatchesStartWithAction | src/hooks/useThreatDetection.ts:224 | every match text the global form-action expression returns starts with `action` |
| Patterns.ActionTextIsNotHttps | src/hooks/useThreatDetection.ts:227 | a text starting with `action` never satisfies `/^https:/i` |
| FileScorer.FormCheck | src/hooks/useThreatDetection.ts:226-229 | each form match weighs 25 with the insecure-endpoint factor, and fires whenever the match starts with `action` |
| Patterns.ScriptBlockHasScriptTag | src/hooks/useThreatDetection.ts:283 | a document with a script block also satisfies the `/<script/i` detail test |
| Patterns.ScriptBlocksNeedTag | src/hooks/useThreatDetection.ts:209-210 | a document with any script block contains `<script` (case-insensitively) |
| Patterns.FormMatchesNeedAction | src/hooks/useThreatDetection.ts:224 | a document with any form-action match contains `action` (case-insensitively) |
| Verdict.Snoc | src/hooks/useThreatDetection.ts:204-246 | evaluating one more check adds its weight if it fires and appends its factor exactly then |
| Verdict.Append | src/hooks/useThreatDetection.ts:204-246 | evaluating two runs of checks in sequence adds their scores, factor lists and counts |
| Verdict.OneFactorPerIncrement | src/hooks/useThreatDetection.ts:86-135 | the number of risk factors equals the number of checks that fired |
| Verdict.ZeroScoreIffNoFactors | src/hooks/useThreatDetection.ts:86-135 | with positive weights the raw score is zero exactly when no factor was recorded |
| Verdict.LoneCheckScore | src/hooks/useThreatDetection.ts:86-135 | with no check fired the score is 0; with exactly one, the score is that check's weight |
| Verdict.HighNeedsTwoChecks | src/hooks/useThreatDetection.ts:159-164 | when no single weight lies between 50 and 79, a high verdict takes at least two fired checks |
| Verdict.UniformScore | src/hooks/useThreatDetection.ts:226-231 | when every check weighs the same, the score is that weight times the number that fired |
| Verdict.Clamp | src/hooks/useThreatDetection.ts:178 | the reported score is at most 100 and at most the raw score, and equals one of them |
| Verdict.CategoryOf | src/hooks/useThreatDetection.ts:159-171 | critical exactly from 80, high exactly from 50 below 80, medium exactly from 25 below 50, low exactly below 25 |
| Verdict.CategoryMonotone | src/hooks/useThreatDetection.ts:159-171 | a higher score never yields a lower category |
| Verdict.CategoryOfClamp | src/hooks/useThreatDetection.ts:178 | the clamped score is at most 100 and has the same category as the raw score |
| Verdict.CategoryBoundaries | src/hooks/useThreatDetection.ts:159-171 | 24/25, 49/50 and 79/80 fall on either side of the Low/Medium, Medium/High and High/Critical boundaries |
| Verdict.UrlAdviceRoundTrip | src/hooks/useThreatDetection.ts:159-171 | each URL recommendation names exactly one category |
| Verdict.FileAdviceAgreesWithCategory | src/hooks/useThreatDetection.ts:253-262 | the document recommendation ladder and the category ladder always agree |
| Narrative.UrlTemplate | src/hooks/useThreatDetection.ts:301-328 | the second template of a category is one fixed text; the first quotes the URL, and for high and medium risk it names the lower-cased top factors |
| Narrative.UrlNarrative | src/hooks/useThreatDetection.ts:301-328 | the first template of every category includes the quoted URL |
| Narrative.FileTemplate | src/hooks/useThreatDetection.ts:330-349 | every document template quotes the file name; high risk names the lower-cased top two factors, medium the first factor as written |
| Narrative.FileNarrative | src/hooks/useThreatDetection.ts:330-349 | every document narrative includes the quoted file name |
| Narrative.UrlNarrativeQuotesUrl | src/hooks/useThreatDetection.ts:307-327 | the first template of every category quotes the URL; the second depends on the category alone |
| Narrative.FirstTwoLowered | src/hooks/useThreatDetection.ts:317 | with two or more factors, the lower-cased join of the first two is each of them lower-cased around " and " |
| Narrative.UrlHighNarrativeNamesTopFactors | src/hooks/useThreatDetection.ts:317 | with two or more factors (which every high URL verdict has, `UrlScorer.HighUrlVerdictHasTwoFactors`), the first high-risk URL narrative names the first two, lower-cased and joined by " and " |
| Narrative.FileHighNarrativeNamesTopFactors | src/hooks/useThreatDetection.ts:345 | with two or more factors (which every high document verdict has, `FileScorer.HighFileVerdictHasTwoFactors`), the high-risk file narrative names the first two, lower-cased and joined by " and " |
| Narrative.UrlMediumNarrativeNamesFirstFactor | src/hooks/useThreatDetection.ts:313 | the first medium-risk URL narrative names the first factor lower-cased, or "certain risk factors" when there is none |
| Narrative.FileMediumNarrativeNamesFirstFactor | src/hooks/useThreatDetection.ts:341 | the medium-risk file narrative names the first factor verbatim, or "Certain elements" when there is none |
| UrlScorer.ExtractDomain | src/hooks/useThreatDetection.ts:293-299 | the parsed hostname when parsing succeeds, and the input unchanged when it fails |
| UrlScorer.UrlDetailsAgree | src/hooks/useThreatDetection.ts:187-197 | the details say "New" exactly for a new domain, "Valid" TLS exactly over HTTPS, "Poor" reputation exactly above 50; the location is one of the five; the redirect count and the response time (with `ms`) read back as drawn |
| UrlScorer.AgeLabelSaysNew | src/hooks/useThreatDetection.ts:117-118 | the age label contains "New" exactly when the domain was drawn as new |
| UrlScorer.RunUrlChecks | src/hooks/useThreatDetection.ts:77-135 | the six checks add their weights 80/30/25/20/15/10 and push their factors in order; HTTPS and established-history features and the blacklist and SSL/TLS methods are recorded where the source records them |
| UrlScorer.ScoreSignals | src/hooks/useThreatDetection.ts:77-153 | the score and factors are those of the check table; the four detection methods and the reassurance features are the specified ones |
| UrlScorer.UrlVerdict | src/hooks/useThreatDetection.ts:155-171 | the category is the shared ladder on the raw score and the recommendation is that category's URL advice |
| UrlScorer.AssessSignals | src/hooks/useThreatDetection.ts:155-198 | the score, verdict, evidence and technical details equal the specified assessment |
| UrlScorer.PerformThreatAnalysis | src/hooks/useThreatDetection.ts:74-199 | the URL analysis equals the specification `UrlAnalysis` for the given parser and draws |
| UrlScorer.UrlTable | src/hooks/useThreatDetection.ts:86-135 | the URL score is the sum of the six contributions and the factors are pushed in check order |
| UrlScorer.UrlScoreClamped | src/hooks/useThreatDetection.ts:178 | the reported score is the raw score capped at 100, and the raw score never exceeds 180 |
| UrlScorer.UrlVerdictConsistent | src/hooks/useThreatDetection.ts:159-179 | the category follows the clamped score and the raw score alike, and the recommendation names that category |
| UrlScorer.UrlFactorsPerIncrement | src/hooks/useThreatDetection.ts:86-135 | one factor per check that fired; no factors exactly when the raw score is zero |
| UrlScorer.CleanUrlFeatures | src/hooks/useThreatDetection.ts:103-123 | a zero score means the features open with HTTPS and established history |
| UrlScorer.UrlDetectionMethodOutcomes | src/hooks/useThreatDetection.ts:91-145 | four methods in order, each outcome given for both cases: blacklist fails if listed and passes otherwise, SSL/TLS passes over `https://` and fails otherwise, heuristic fails above 30 and passes otherwise, ML warns on its draw and passes otherwise |
| UrlScorer.BlacklistedIsCritical | src/hooks/useThreatDetection.ts:86-90 | a listed domain alone makes the verdict critical, with the blacklist factor first |
| UrlScorer.ShortenerCountedTwice | src/hooks/useThreatDetection.ts:97-129 | a URL naming `bit.ly`, `tinyurl` or `t.co` scores at least 45 and carries both the pattern and the shortener factors |
| UrlScorer.BitLyShortLinkCountedTwice | src/hooks/useThreatDetection.ts:97-129 | `https://bit.ly/short.link` scores at least 45 and carries both factors |
| UrlScorer.ListedOverHttpIsMaximal | src/hooks/useThreatDetection.ts:86-110 | a listed domain over plain HTTP scores 100, critical, with the blacklist factor first and the HTTP factor present |
| UrlScorer.PhishingExampleIsListed | src/hooks/useThreatDetection.ts:35-41 | `http://phishing-example.com/login` has a listed domain whether or not the parser accepts it |
| UrlScorer.PhishingExampleScoresMaximum | src/hooks/useThreatDetection.ts:35-41 | `http://phishing-example.com/login` scores 100 and is critical |
| UrlScorer.ExampleDomainIsUnlisted | src/hooks/useThreatDetection.ts:35-41 | the domain `example.com` contains none of the listed threat domains |
| UrlScorer.ExampleUrlAvoidsShorteners | src/hooks/useThreatDetection.ts:44 | `https://example.com` matches no alternative of the shortener expression |
| UrlScorer.ExampleUrlAvoidsUrgency | src/hooks/useThreatDetection.ts:45 | `https://example.com` matches no alternative of the urgency expression |
| UrlScorer.ExampleUrlAvoidsBrands | src/hooks/useThreatDetection.ts:46 | `https://example.com` matches no alternative of the brand expression |
| UrlScorer.ExampleUrlAvoidsCallsToAction | src/hooks/useThreatDetection.ts:47 | `https://example.com` matches no alternative of the call-to-action expression |
| UrlScorer.ExampleUrlHasNoSuspiciousPattern | src/hooks/useThreatDetection.ts:97-101 | `https://example.com` fires neither the suspicious-pattern check nor the shortener check at line 126 |
| UrlScorer.ExampleDomainHasPlainTld | src/hooks/useThreatDetection.ts:132-135 | `example.com` does not fire the suspicious-TLD check |
| UrlScorer.ExampleUrlScoresZero | src/hooks/useThreatDetection.ts:86-140 | `https://example.com` with an established domain scores 0, is low risk, records no factor, lists the HTTPS and established-history features first, and passes the blacklist, TLS and heuristic checks |
| UrlScorer.HighUrlVerdictHasTwoFactors | src/hooks/useThreatDetection.ts:86-164 | a high URL verdict carries at least two risk factors |
| UrlScorer.UrlHighNeedsTwoChecks | src/hooks/useThreatDetection.ts:86-164 | a raw URL score in the high band comes from at least two fired checks |
| UrlScorer.UrlHighAnalysisNamesTopFactors | src/hooks/useThreatDetection.ts:317 | every high URL analysis with the first template names its first two factors, lower-cased and joined by " and " |
| UrlScorer.UrlAnalysisNarrative | src/hooks/useThreatDetection.ts:173-183 | the result carries the URL, the narrative built from its own factors and category, and (first template) a quotation of the URL |
| FileScorer.ScriptFactorReadsBack | src/hooks/useThreatDetection.ts:213 | the script factor is `Contains `, then decimal digits that read back as the count, then the fixed tail |
| FileScorer.FileDetails | src/hooks/useThreatDetection.ts:279-289 | scripts "Found" exactly with a script tag, iframes "Found" exactly with an iframe tag, form "Secure" exactly when `/action.*https/i` holds; TLS, location, redirects and response time read "N/A" |
| FileScorer.FormChecks | src/hooks/useThreatDetection.ts:226-231 | one form check per form-action match |
| FileScorer.FormChecksStep | src/hooks/useThreatDetection.ts:226-231 | one more form match adds its contribution and at most its factor |
| FileScorer.FileTable | src/hooks/useThreatDetection.ts:208-246 | the document score is the sum of the script, iframe, form, phishing and brand contributions; the factors are pushed in that order |
| FileScorer.ApplyFormChecks | src/hooks/useThreatDetection.ts:224-232 | the loop adds the form checks' score and factors to what was accumulated before |
| FileScorer.RunFileChecks | src/hooks/useThreatDetection.ts:204-246 | the five heuristics add their weights 20/30/25 per form/35/15 and push their factors in order |
| FileScorer.DefaultFeaturesIfClean | src/hooks/useThreatDetection.ts:248-251 | the two default features are pushed exactly when the score is zero |
| FileScorer.FileVerdict | src/hooks/useThreatDetection.ts:253-262 | the category is the shared ladder and the recommendation the document ladder, both on the raw score |
| FileScorer.AssessFileSignals | src/hooks/useThreatDetection.ts:248-290 | the score, verdict, evidence and technical details equal the specified assessment |
| FileScorer.PerformFileAnalysis | src/hooks/useThreatDetection.ts:201-291 | the document analysis equals the specification `FileAnalysis` |
| FileScorer.FormWeights | src/hooks/useThreatDetection.ts:228 | every form check weighs 25 |
| FileScorer.FilePositiveWeights | src/hooks/useThreatDetection.ts:208-246 | every document heuristic has a positive weight |
| FileScorer.FormChecksAllFire | src/hooks/useThreatDetection.ts:226-231 | matches that start with `action` all fire, giving one "insecure endpoint" factor each |
| FileScorer.EveryFormMatchCounts | src/hooks/useThreatDetection.ts:224-231 | the form checks add exactly 25 per match and one factor per match, for any content |
| FileScorer.AnyFormMatchIsAtLeastMedium | src/hooks/useThreatDetection.ts:224-256 | a document with a form-action match scores at least 25 and is never low risk |
| FileScorer.FileScoreClamped | src/hooks/useThreatDetection.ts:266 | the reported score is the raw score capped at 100 |
| FileScorer.FileVerdictConsistent | src/hooks/useThreatDetection.ts:253-267 | the category follows the clamped and the raw score alike, and the recommendation names it |
| FileScorer.FileFactorsPerIncrement | src/hooks/useThreatDetection.ts:204-251 | one factor per check that fired; the default features appear exactly when the raw score is zero, exactly when there are no factors, and otherwise there are no features |
| FileScorer.FileDetectionMethodOutcomes | src/hooks/useThreatDetection.ts:274-278 | three methods in order, each outcome given for both cases: content analysis fails above 30 and passes otherwise, script inspection warns above 20 and passes otherwise, phishing detection fails above 40 and passes otherwise |
| FileScorer.ScriptCheckFiresOnManyBlocks | src/hooks/useThreatDetection.ts:209-214 | the script check fires iff more than five blocks are found; its factor's number reads back as the count; the details then report scripts found |
| FileScorer.OnlyFormFactors | src/hooks/useThreatDetection.ts:229 | the form checks record only the insecure-endpoint factor |
| FileScorer.IframeDetailAgrees | src/hooks/useThreatDetection.ts:284 | the iframe factor is reported exactly when the hidden-iframes detail says "Found" |
| FileScorer.ScriptFactorIsNotIframe | src/hooks/useThreatDetection.ts:213-220 | the script factor never coincides with the iframe factor |
| FileScorer.EmptyDocumentIsClean | src/hooks/useThreatDetection.ts:248-262 | an empty document scores 0, is low risk, has no factors and has the two default features |
| FileScorer.HighFileVerdictHasTwoFactors | src/hooks/useThreatDetection.ts:204-256 | a high document verdict carries at least two risk factors |
| FileScorer.FileHighAnalysisNamesTopFactors | src/hooks/useThreatDetection.ts:345 | every high document analysis names its first two factors, lower-cased and joined by " and " |
| FileScorer.FileAnalysisNarrative | src/hooks/useThreatDetection.ts:264-271 | the result carries the file name, the specified assessment and a narrative quoting the file name |
| FileScorer.HelloWorldHasNoMarkup | src/hooks/useThreatDetection.ts:209-210 | `hello world` has no script block, script tag or iframe tag |
| FileScorer.HelloWorldHasNoForm | src/hooks/useThreatDetection.ts:224 | `hello world` has no form-action match and no secure form action |
| FileScorer.HelloWorldHasNoPhishingLanguage | src/hooks/useThreatDetection.ts:235 | `hello world` matches no phishing phrase |
| FileScorer.HelloWorldNamesNoBrand | src/hooks/useThreatDetection.ts:242 | `hello world` names no brand |
| FileScorer.HelloWorldIsClean | src/hooks/useThreatDetection.ts:208-262 | `hello world` scores 0, is low risk with the safe-handling recommendation, records no factor and gets the two default features |
| FileScorer.IframePageHasNoScript | src/hooks/useThreatDetection.ts:209-210 | `<iframe src=x></iframe>` has no script block and no script tag |
| FileScorer.IframePageHasIframe | src/hooks/useThreatDetection.ts:218 | `<iframe src=x></iframe>` satisfies the `/<iframe/i` test of the iframe check and of the iframe detail |
| FileScorer.IframePageHasNoForm | src/hooks/useThreatDetection.ts:224 | `<iframe src=x></iframe>` has no form-action match and no secure form action |
| FileScorer.IframePageLacksAccountWords | src/hooks/useThreatDetection.ts:235 | `<iframe src=x></iframe>` contains neither `verify` nor `suspended` |
| FileScorer.IframePageLacksPressureWords | src/hooks/useThreatDetection.ts:235 | `<iframe src=x></iframe>` contains neither `urgent` nor `click` |
| FileScorer.IframePageHasNoPhishingLanguage | src/hooks/useThreatDetection.ts:235 | `<iframe src=x></iframe>` matches no phishing phrase |
| FileScorer.IframePageNamesNoBrand | src/hooks/useThreatDetection.ts:242 | `<iframe src=x></iframe>` names no brand |
| FileScorer.IframePageScoresThirty | src/hooks/useThreatDetection.ts:208-291 | a page holding only an iframe scores exactly 30 and is medium risk with the iframe factor alone and no feature; Content Analysis passes (30 is not above 30), Script Inspection warns, Phishing Detection passes, and the iframe detail reads `Found` |
| FileScorer.SecureFormHasNoMarkup | src/hooks/useThreatDetection.ts:209-218 | `action="https://x"` has no script tag, iframe tag or script block |
| FileScorer.SecureFormHasNoPhishingLanguage | src/hooks/useThreatDetection.ts:235 | `action="https://x"` matches no phishing phrase |
| FileScorer.SecureFormNamesNoBrand | src/hooks/useThreatDetection.ts:242 | `action="https://x"` names no brand |
| FileScorer.SecureFormIsCountedInsecure | src/hooks/useThreatDetection.ts:224-285 | a form posting to `https://x` scores 25, medium, with the insecure-endpoint factor alone, while its details call the form secure |
| FileScorer.SixScriptsFireScriptCheck | src/hooks/useThreatDetection.ts:209-214 | six script elements give six matches; the script check fires, adds 20 and its factor, first in the list, names the count 6 |

## Left out

- `scanDate` and `processingTime` are left out. They are the clock and a formatted random float. The URL response time is a drawn whole number of milliseconds (`UrlDraws.responseMs`); a document's is `N/A`.
- The asynchronous wrappers `analyzeUrl` and `analyzeFile` are left out: their delays, the `FileReader`, and the React `isAnalyzing` state.
- `console.log` is left out.
- `new URL(url).hostname` is not modelled. It is the parameter `hostOf`.
- The `Math.random()` draws are parameters (`UrlDraws`). Each is already reduced to the boolean or index the source derives from it.
- `ExtractDomain`: the model does not state which strings a URL parser accepts. The concrete lemmas assume only that the parser yields the obvious hostname or fails.
- `score` is not modelled in either narrative generator. The generators take it but never read it.
- `Text.Lower` folds only ASCII capitals, while JavaScript's `toLowerCase` folds all of Unicode.
  - For the HTTPS test this is exact: a non-ASCII character never lower-cases to `h`, `t`, `p`, `s`, `:` or `/`. The test is stated as a case-insensitive prefix match and proved equal to the lower-cased prefix test (`Patterns.HttpsIsLowerPrefix`).
  - The narratives lower-case only risk factors, and every factor is ASCII.
- Case-insensitive matching is ASCII folding. JavaScript without the `u` flag never folds a non-ASCII character onto an ASCII one, so this is exact for the ASCII literals matched.
- Scores are unbounded naturals. The source's double-precision numbers hold these small integers exactly.
- The `templates[category] || templates.LOW` fallback is not modelled. The category is always one of the four, so the fallback is never taken.
