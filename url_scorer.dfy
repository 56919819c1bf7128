/** The URL scorer, `performThreatAnalysis`: six ordered heuristics, each
    adding a fixed weight and one risk factor when it fires, then four
    detection methods, the verdict ladder and the narrative. The URL parser
    and every `Math.random()` draw are inputs. */
module UrlScorer {
  import opened Wrappers
  import opened Text
  import opened Patterns
  import opened Verdict
  import opened Narrative

  type CountryIndex = i: nat | i < 5
  type RedirectCount = n: nat | n < 3

  /** `(Math.random() * 500 + 100).toFixed(0)`: a whole number of
      milliseconds from 100 to 600 (rounding can reach 600). */
  type ResponseMillis = n: nat | 100 <= n <= 600 witness 100

  /** The random draws one URL analysis makes, each reduced to the value the
      source derives from it. */
  datatype UrlDraws = UrlDraws(
    newDomain: bool,        // Math.random() > 0.7: domain age "New (< 30 days)"
    mlAnomaly: bool,        // Math.random() > 0.8: ML Anomaly Detection WARNING
    whoisValid: bool,       // Math.random() > 0.5
    noRedirects: bool,      // Math.random() > 0.6
    secondTemplate: bool,   // Math.floor(Math.random() * 2) == 1
    scriptsDetected: bool,  // Math.random() > 0.7
    iframesFound: bool,     // Math.random() > 0.8
    formSecure: bool,       // Math.random() > 0.6
    ipIndex: CountryIndex,  // Math.floor(Math.random() * 5)
    redirectCount: RedirectCount,  // Math.floor(Math.random() * 3)
    responseMs: ResponseMillis)

  const Countries: seq<string> := ["US", "Russia", "China", "Netherlands", "Germany"]

  const BlacklistFactor := "Domain found in threat database"
  const PatternFactor := "Contains suspicious keywords or patterns"
  const HttpFactor := "Uses insecure HTTP protocol"
  const NewDomainFactor := "Domain registered recently"
  const ShortenerFactor := "Uses URL shortening service"
  const TldFactor := "Uses potentially suspicious top-level domain"

  const HttpsFeature := "Uses secure HTTPS protocol"
  const EstablishedFeature := "Domain has established history"
  const WhoisFeature := "Domain has valid WHOIS information"
  const RedirectFeature := "No suspicious redirects detected"

  const NewAge := "New (< 30 days)"
  const EstablishedAge := "Established (> 1 year)"

  /** `extractDomain`: the parsed hostname, or the input itself when the URL
      parser rejects it; it never fails. */
  function ExtractDomain(url: string, hostOf: string -> Option<string>): (d: string)
    ensures hostOf(url).Some? ==> d == hostOf(url).value
    ensures hostOf(url).None? ==> d == url
  {
    match hostOf(url)
    case Some(h) => h
    case None => url
  }

  /** The five text tests of the heuristic phase. Each is a pure test of the
      URL or its domain, so evaluating them before the accumulation starts
      changes nothing. */
  datatype UrlSignals = UrlSignals(
    knownThreat: bool,        // knownThreats.some(threat => domain.includes(threat))
    suspiciousPattern: bool,  // suspiciousPatterns.some(pattern => pattern.test(url))
    https: bool,              // url.toLowerCase().startsWith('https://')
    shortener: bool,          // /bit\.ly|tinyurl|t\.co|short\.link/i.test(url)
    suspiciousTld: bool)      // /\.tk|\.ml|\.ga|\.cf|\.info|\.biz$/i.test(domain)

  function SignalsOf(url: string, domain: string): UrlSignals
  {
    UrlSignals(IsKnownThreat(domain), HasSuspiciousPattern(url), HasHttpsScheme(url),
               IsShortenerUrl(url), HasSuspiciousTld(domain))
  }

  /** The signals of a URL, tested against the domain the parser yields. */
  function UrlSignalsOf(url: string, hostOf: string -> Option<string>): UrlSignals
  {
    SignalsOf(url, ExtractDomain(url, hostOf))
  }

  /** The six heuristics in evaluation order. */
  function UrlChecks(sig: UrlSignals, newDomain: bool): seq<Check>
  {
    [ Check(sig.knownThreat, 80, BlacklistFactor),
      Check(sig.suspiciousPattern, 30, PatternFactor),
      Check(!sig.https, 25, HttpFactor),
      Check(newDomain, 20, NewDomainFactor),
      Check(sig.shortener, 15, ShortenerFactor),
      Check(sig.suspiciousTld, 10, TldFactor) ]
  }

  /** The reassurance features, in the order the source pushes them. */
  function UrlSecurityFeatures(sig: UrlSignals, draws: UrlDraws): seq<string>
  {
    var afterHttps := PushIf([], sig.https, HttpsFeature);
    var afterAge := PushIf(afterHttps, !draws.newDomain, EstablishedFeature);
    var afterWhois := PushIf(afterAge, draws.whoisValid, WhoisFeature);
    PushIf(afterWhois, draws.noRedirects, RedirectFeature)
  }

  function UrlDetectionMethods(sig: UrlSignals, raw: nat, mlAnomaly: bool): seq<DetectionMethod>
  {
    [ DetectionMethod("Blacklist Check", if sig.knownThreat then Fail else Pass),
      DetectionMethod("SSL/TLS Check", if sig.https then Pass else Fail),
      DetectionMethod("Heuristic Analysis", if raw > 30 then Fail else Pass),
      DetectionMethod("ML Anomaly Detection", if mlAnomaly then Warning else Pass) ]
  }

  function UrlDetails(sig: UrlSignals, raw: nat, draws: UrlDraws): TechnicalDetails
  {
    TechnicalDetails(
      if draws.newDomain then NewAge else EstablishedAge,
      if sig.https then "Valid" else "Missing/Invalid",
      if raw > 50 then "Poor" else "Good",
      if draws.scriptsDetected then "Detected" else "None",
      if draws.iframesFound then "Found" else "None",
      if draws.formSecure then "Secure" else "Unsecured",
      Countries[draws.ipIndex],
      NatToString(draws.redirectCount),
      NatToString(draws.responseMs) + "ms")
  }

  /** The raw (unclamped) score the six checks add up to. */
  function RawScore(sig: UrlSignals, newDomain: bool): nat
  {
    Score(UrlChecks(sig, newDomain))
  }

  /** What the analysis concludes from the five text tests' outcomes and the
      random draws. */
  function SignalAssessment(sig: UrlSignals, draws: UrlDraws): Assessment
  {
    var checks := UrlChecks(sig, draws.newDomain);
    var raw := Score(checks);
    Assessment(
      Clamp(raw), CategoryOf(raw), UrlAdvice(CategoryOf(raw)),
      Factors(checks), UrlSecurityFeatures(sig, draws),
      UrlDetectionMethods(sig, raw, draws.mlAnomaly),
      UrlDetails(sig, raw, draws))
  }

  function UrlAssessment(url: string, hostOf: string -> Option<string>, draws: UrlDraws): Assessment
  {
    SignalAssessment(UrlSignalsOf(url, hostOf), draws)
  }

  /** What one URL analysis produces, stated declaratively. */
  function UrlAnalysis(url: string, hostOf: string -> Option<string>, draws: UrlDraws): AnalysisResult
  {
    var a := UrlAssessment(url, hostOf, draws);
    AnalysisResult(url, UrlNarrative(url, a.riskFactors, a.riskCategory, draws.secondTemplate), a)
  }

  /** The technical details of a URL scan: TLS and reputation follow the
      scan, the rest are draws, and the numeric ones read back as drawn. */
  lemma UrlDetailsAgree(sig: UrlSignals, raw: nat, draws: UrlDraws)
    ensures var d := UrlDetails(sig, raw, draws);
      && (Includes(d.domainAge, "New") <==> draws.newDomain)
      && (d.sslStatus == "Valid" <==> sig.https)
      && (d.reputation == "Poor" <==> raw > 50)
      && d.ipLocation in Countries
      && (forall i :: 0 <= i < |d.redirects| ==> IsDigit(d.redirects[i]))
      && ParseDecimal(d.redirects) == draws.redirectCount
      && |d.responseTime| >= 3 && d.responseTime[|d.responseTime| - 2..] == "ms"
      && var digits := d.responseTime[..|d.responseTime| - 2];
         (forall i :: 0 <= i < |digits| ==> IsDigit(digits[i])) && ParseDecimal(digits) == draws.responseMs
  {
    AgeLabelSaysNew(draws.newDomain);
    NatToStringRoundTrip(draws.redirectCount);
    NatToStringRoundTrip(draws.responseMs);
    var ms := NatToString(draws.responseMs);
    assert (ms + "ms")[..|ms + "ms"| - 2] == ms;
  }

  /** The source derives the age check from the age label's text. */
  lemma AgeLabelSaysNew(newDomain: bool)
    ensures Includes(if newDomain then NewAge else EstablishedAge, "New") == newDomain
  {
    if newDomain {
      IncludesMiddle("", "New", " (< 30 days)");
      assert "" + "New" + " (< 30 days)" == NewAge;
    } else {
      forall i | 0 <= i <= |EstablishedAge| ensures !MatchAt(EstablishedAge, i, "New") {
        if i + 3 <= |EstablishedAge| {
          assert EstablishedAge[i..i + 3][0] == EstablishedAge[i] != 'N';
        }
      }
    }
  }

  /** The heuristic checks of `performThreatAnalysis`, in source order: each
      that fires adds its weight and its factor; the blacklist and SSL/TLS
      detection methods and the HTTPS and domain-age reassurance features are
      recorded where the source records them. */
  method RunUrlChecks(sig: UrlSignals, newDomain: bool)
    returns (threatScore: nat, riskFactors: seq<string>, securityFeatures: seq<string>,
             detectionMethods: seq<DetectionMethod>)
    ensures var cs := UrlChecks(sig, newDomain);
      && threatScore == Contribution(cs[0]) + Contribution(cs[1]) + Contribution(cs[2])
                        + Contribution(cs[3]) + Contribution(cs[4]) + Contribution(cs[5])
      && riskFactors == Record(Record(Record(Record(Record(Record([], cs[0]), cs[1]), cs[2]), cs[3]), cs[4]), cs[5])
    ensures securityFeatures == PushIf(PushIf([], sig.https, HttpsFeature), !newDomain, EstablishedFeature)
    ensures detectionMethods == [DetectionMethod("Blacklist Check", if sig.knownThreat then Fail else Pass),
                                 DetectionMethod("SSL/TLS Check", if sig.https then Pass else Fail)]
  {
    threatScore := 0;
    riskFactors := [];
    securityFeatures := [];
    detectionMethods := [];

    if sig.knownThreat {
      threatScore := threatScore + 80;
      riskFactors := riskFactors + [BlacklistFactor];
    }
    detectionMethods := detectionMethods + [DetectionMethod("Blacklist Check", if sig.knownThreat then Fail else Pass)];

    if sig.suspiciousPattern {
      threatScore := threatScore + 30;
      riskFactors := riskFactors + [PatternFactor];
    }

    if !sig.https {
      threatScore := threatScore + 25;
      riskFactors := riskFactors + [HttpFactor];
    } else {
      securityFeatures := securityFeatures + [HttpsFeature];
    }
    detectionMethods := detectionMethods + [DetectionMethod("SSL/TLS Check", if sig.https then Pass else Fail)];

    var domainAge := if newDomain then NewAge else EstablishedAge;
    AgeLabelSaysNew(newDomain);
    if Includes(domainAge, "New") {
      threatScore := threatScore + 20;
      riskFactors := riskFactors + [NewDomainFactor];
    } else {
      securityFeatures := securityFeatures + [EstablishedFeature];
    }

    if sig.shortener {
      threatScore := threatScore + 15;
      riskFactors := riskFactors + [ShortenerFactor];
    }

    if sig.suspiciousTld {
      threatScore := threatScore + 10;
      riskFactors := riskFactors + [TldFactor];
    }
  }

  /** The URL scorer's verdict ladder on the raw score. */
  method UrlVerdict(threatScore: nat) returns (riskCategory: Category, recommendation: string)
    ensures riskCategory == CategoryOf(threatScore)
    ensures recommendation == UrlAdvice(riskCategory)
  {
    if threatScore >= 80 {
      riskCategory := Critical;
      recommendation := UrlAdvice(Critical);
    } else if threatScore >= 50 {
      riskCategory := High;
      recommendation := UrlAdvice(High);
    } else if threatScore >= 25 {
      riskCategory := Medium;
      recommendation := UrlAdvice(Medium);
    } else {
      riskCategory := Low;
      recommendation := UrlAdvice(Low);
    }
  }

  /** Two pushes onto a two-element sequence. */
  lemma AppendTwo<T>(xs: seq<T>, a: T, b: T)
    requires |xs| == 2
    ensures xs + [a] + [b] == [xs[0], xs[1], a, b]
  {
  }

  /** The evidence `performThreatAnalysis` gathers after the five text tests:
      the heuristic checks, then the heuristic and ML detection methods and
      the two randomly granted features. */
  method ScoreSignals(sig: UrlSignals, draws: UrlDraws)
    returns (threatScore: nat, riskFactors: seq<string>, securityFeatures: seq<string>,
             detectionMethods: seq<DetectionMethod>)
    ensures threatScore == RawScore(sig, draws.newDomain)
    ensures riskFactors == Factors(UrlChecks(sig, draws.newDomain))
    ensures securityFeatures == UrlSecurityFeatures(sig, draws)
    ensures detectionMethods == UrlDetectionMethods(sig, threatScore, draws.mlAnomaly)
  {
    threatScore, riskFactors, securityFeatures, detectionMethods := RunUrlChecks(sig, draws.newDomain);
    UrlTable(sig, draws.newDomain);

    ghost var firstTwo := detectionMethods;
    var heuristic := DetectionMethod("Heuristic Analysis", if threatScore > 30 then Fail else Pass);
    var ml := DetectionMethod("ML Anomaly Detection", if draws.mlAnomaly then Warning else Pass);
    detectionMethods := detectionMethods + [heuristic];
    detectionMethods := detectionMethods + [ml];
    AppendTwo(firstTwo, heuristic, ml);

    if draws.whoisValid {
      securityFeatures := securityFeatures + [WhoisFeature];
    }
    if draws.noRedirects {
      securityFeatures := securityFeatures + [RedirectFeature];
    }
  }

  /** Everything `performThreatAnalysis` concludes before the narrative: the
      evidence, the verdict ladder, the clamp and the technical details. */
  method AssessSignals(sig: UrlSignals, draws: UrlDraws) returns (a: Assessment)
    ensures a == SignalAssessment(sig, draws)
  {
    var threatScore, riskFactors, securityFeatures, detectionMethods := ScoreSignals(sig, draws);
    var riskCategory, recommendation := UrlVerdict(threatScore);
    var details := UrlDetails(sig, threatScore, draws);
    a := Assessment(if threatScore <= 100 then threatScore else 100, riskCategory, recommendation,
                    riskFactors, securityFeatures, detectionMethods, details);
  }

  /** `performThreatAnalysis`: the five text tests on the URL and its domain,
      the assessment that follows from them, and the narrative. */
  method PerformThreatAnalysis(url: string, hostOf: string -> Option<string>, draws: UrlDraws)
    returns (r: AnalysisResult)
    ensures r == UrlAnalysis(url, hostOf, draws)
  {
    var domain := ExtractDomain(url, hostOf);
    var sig := UrlSignals(IsKnownThreat(domain), HasSuspiciousPattern(url), HasHttpsScheme(url),
                          IsShortenerUrl(url), HasSuspiciousTld(domain));
    var assessment := AssessSignals(sig, draws);
    var aiAnalysis := UrlNarrative(url, assessment.riskFactors, assessment.riskCategory, draws.secondTemplate);
    r := AnalysisResult(url, aiAnalysis, assessment);
  }

  /** The score and factors of a URL's check table, written out. */
  lemma UrlTable(sig: UrlSignals, newDomain: bool)
    ensures var cs := UrlChecks(sig, newDomain);
      && Score(cs) == Contribution(cs[0]) + Contribution(cs[1]) + Contribution(cs[2])
                      + Contribution(cs[3]) + Contribution(cs[4]) + Contribution(cs[5])
      && Factors(cs) == Record(Record(Record(Record(Record(Record([], cs[0]), cs[1]), cs[2]), cs[3]), cs[4]), cs[5])
  {
    var cs := UrlChecks(sig, newDomain);
    Table6(cs[0], cs[1], cs[2], cs[3], cs[4], cs[5]);
  }

  /** The reported score is the raw score capped at 100, and the raw score
      itself never exceeds the sum of all six weights. */
  lemma UrlScoreClamped(sig: UrlSignals, draws: UrlDraws)
    ensures SignalAssessment(sig, draws).threatScore == Clamp(RawScore(sig, draws.newDomain))
    ensures SignalAssessment(sig, draws).threatScore <= 100
    ensures RawScore(sig, draws.newDomain) <= 180
  {
    UrlTable(sig, draws.newDomain);
  }

  /** Category and recommendation agree with each other and with the
      reported (clamped) score under the shared ladder. */
  lemma UrlVerdictConsistent(sig: UrlSignals, draws: UrlDraws)
    ensures var a := SignalAssessment(sig, draws);
      && a.riskCategory == CategoryOf(a.threatScore)
      && a.riskCategory == CategoryOf(RawScore(sig, draws.newDomain))
      && UrlAdviceCategory(a.recommendation) == Some(a.riskCategory)
  {
    CategoryOfClamp(RawScore(sig, draws.newDomain));
    UrlAdviceRoundTrip(CategoryOf(RawScore(sig, draws.newDomain)));
  }

  /** One risk factor per increment: the factors are those of the checks that
      fired, so there are none exactly when the raw score is zero. */
  lemma UrlFactorsPerIncrement(sig: UrlSignals, draws: UrlDraws)
    ensures |SignalAssessment(sig, draws).riskFactors| == FiredCount(UrlChecks(sig, draws.newDomain))
    ensures SignalAssessment(sig, draws).riskFactors == [] <==> RawScore(sig, draws.newDomain) == 0
  {
    var cs := UrlChecks(sig, draws.newDomain);
    UrlFactorsAreTableFactors(sig, draws);
    OneFactorPerIncrement(cs);
    UrlPositiveWeights(sig, draws.newDomain);
    ZeroScoreIffNoFactors(cs);
  }

  lemma UrlFactorsAreTableFactors(sig: UrlSignals, draws: UrlDraws)
    ensures SignalAssessment(sig, draws).riskFactors == Factors(UrlChecks(sig, draws.newDomain))
  {
  }

  /** Every URL heuristic adds a positive weight. */
  lemma UrlPositiveWeights(sig: UrlSignals, newDomain: bool)
    ensures PositiveWeights(UrlChecks(sig, newDomain))
  {
  }

  /** A zero score means HTTPS and an established domain, so the reassurance
      features open with those two. */
  lemma CleanUrlFeatures(sig: UrlSignals, draws: UrlDraws)
    requires RawScore(sig, draws.newDomain) == 0
    ensures var features := SignalAssessment(sig, draws).securityFeatures;
      |features| >= 2 && features[..2] == [HttpsFeature, EstablishedFeature]
  {
    UrlTable(sig, draws.newDomain);
    assert sig.https && !draws.newDomain;
  }

  /** The four detection methods, in order: the blacklist fails exactly for a
      listed domain, SSL/TLS passes exactly for an `https://` URL, the
      heuristic fails exactly above a raw score of 30, and the ML check
      warns exactly when the injected draw says so. */
  lemma UrlDetectionMethodOutcomes(url: string, hostOf: string -> Option<string>, draws: UrlDraws)
    ensures var dm := UrlAssessment(url, hostOf, draws).detectionMethods;
      && |dm| == 4
      && dm[0].name == "Blacklist Check" && dm[1].name == "SSL/TLS Check"
      && dm[2].name == "Heuristic Analysis" && dm[3].name == "ML Anomaly Detection"
      && dm[0].result == (if IsKnownThreat(ExtractDomain(url, hostOf)) then Fail else Pass)
      && dm[1].result == (if HasHttpsScheme(url) then Pass else Fail)
      && dm[2].result == (if RawScore(UrlSignalsOf(url, hostOf), draws.newDomain) > 30 then Fail else Pass)
      && dm[3].result == (if draws.mlAnomaly then Warning else Pass)
  {
  }

  /** A blacklisted domain alone makes the verdict critical, and its factor
      comes first. */
  lemma BlacklistedIsCritical(url: string, hostOf: string -> Option<string>, draws: UrlDraws)
    requires IsKnownThreat(ExtractDomain(url, hostOf))
    ensures UrlAssessment(url, hostOf, draws).riskCategory == Critical
    ensures var risks := UrlAssessment(url, hostOf, draws).riskFactors;
      |risks| > 0 && risks[0] == BlacklistFactor
  {
    UrlTable(UrlSignalsOf(url, hostOf), draws.newDomain);
  }

  /** A URL naming `bit.ly`, `tinyurl` or `t.co` is scored both by the
      suspicious-pattern check and by the shortener check, whatever else it
      names. */
  lemma ShortenerCountedTwice(url: string, hostOf: string -> Option<string>, draws: UrlDraws)
    requires AnyCI(url, SuspiciousPatterns[0])
    ensures RawScore(UrlSignalsOf(url, hostOf), draws.newDomain) >= 45
    ensures PatternFactor in UrlAssessment(url, hostOf, draws).riskFactors
    ensures ShortenerFactor in UrlAssessment(url, hostOf, draws).riskFactors
  {
    ShortenerAlsoSuspicious(url);
    UrlTable(UrlSignalsOf(url, hostOf), draws.newDomain);
  }

  /** `https://bit.ly/short.link` names `short.link` and is still scored by
      both checks. */
  lemma BitLyShortLinkCountedTwice(hostOf: string -> Option<string>, draws: UrlDraws)
    ensures var url := "https://bit.ly/short.link";
      && RawScore(UrlSignalsOf(url, hostOf), draws.newDomain) >= 45
      && PatternFactor in UrlAssessment(url, hostOf, draws).riskFactors
      && ShortenerFactor in UrlAssessment(url, hostOf, draws).riskFactors
  {
    ShortLinkDoesNotHideBitLy();
    ShortenerCountedTwice("https://bit.ly/short.link", hostOf, draws);
  }

  /** A listed domain reached over plain HTTP scores the maximum. */
  lemma ListedOverHttpIsMaximal(sig: UrlSignals, draws: UrlDraws)
    requires sig.knownThreat && !sig.https
    ensures var a := SignalAssessment(sig, draws);
      && a.threatScore == 100 && a.riskCategory == Critical
      && |a.riskFactors| >= 2 && a.riskFactors[0] == BlacklistFactor && HttpFactor in a.riskFactors
  {
    UrlTable(sig, draws.newDomain);
  }

  const PhishingExampleUrl := "http://phishing-example.com/login"

  /** The example URL's domain is listed whether or not the parser accepts it. */
  lemma PhishingExampleIsListed(hostOf: string -> Option<string>)
    requires hostOf(PhishingExampleUrl) in {None, Some("phishing-example.com")}
    ensures IsKnownThreat(ExtractDomain(PhishingExampleUrl, hostOf))
  {
    var domain := ExtractDomain(PhishingExampleUrl, hostOf);
    var listed := KnownThreats[0];
    assert listed == "phishing-example.com";
    if hostOf(PhishingExampleUrl).None? {
      assert "http://" + listed + "/login" == PhishingExampleUrl;
      IncludesMiddle("http://", listed, "/login");
    } else {
      assert "" + listed + "" == domain;
      IncludesMiddle("", listed, "");
    }
  }

  /** The first entry of the threat database, over plain HTTP, scores the
      maximum whatever the parser makes of it. */
  lemma PhishingExampleScoresMaximum(hostOf: string -> Option<string>, draws: UrlDraws)
    requires hostOf(PhishingExampleUrl) in {None, Some("phishing-example.com")}
    ensures var a := UrlAssessment(PhishingExampleUrl, hostOf, draws);
      && a.threatScore == 100 && a.riskCategory == Critical
  {
    PhishingExampleIsListed(hostOf);
    assert !HasHttpsScheme(PhishingExampleUrl) by {
      assert LowerChar(PhishingExampleUrl[4]) != LowerChar("https://"[4]);
    }
    ListedOverHttpIsMaximal(UrlSignalsOf(PhishingExampleUrl, hostOf), draws);
  }

  const ExampleUrl := "https://example.com"

  /** No listed domain fits inside `example.com`: each is longer. */
  lemma ExampleDomainIsUnlisted()
    ensures !IsKnownThreat("example.com")
  {
    forall k | 0 <= k < |KnownThreats| ensures !Includes("example.com", KnownThreats[k]) {
      assert |KnownThreats[k]| > |"example.com"|;
    }
  }

  /** Each word of the four suspicious-pattern alternations has a letter
      `https://example.com` lacks, or, for `t.co`, an opening pair it lacks;
      so has `short.link`. */
  lemma ExampleUrlHasNoSuspiciousPattern()
    ensures !HasSuspiciousPattern(ExampleUrl)
    ensures !IsShortenerUrl(ExampleUrl)
  {
    ExampleUrlAvoidsShorteners();
    ExampleUrlAvoidsUrgency();
    ExampleUrlAvoidsBrands();
    ExampleUrlAvoidsCallsToAction();
    AbsentCharExcludes(ExampleUrl, "short.link", 9);
  }

  /** `https://example.com` contains no shortener word (first alternation). */
  lemma ExampleUrlAvoidsShorteners()
    ensures !AnyCI(ExampleUrl, SuspiciousPatterns[0])
  {
    var u := ExampleUrl;
    AbsentCharExcludes(u, "bit.ly", 0);
    AbsentCharExcludes(u, "tinyurl", 1);
    AbsentPairExcludes(u, "t.co");
  }

  /** `https://example.com` contains no urgency phrase (second alternation). */
  lemma ExampleUrlAvoidsUrgency()
    ensures !AnyCI(ExampleUrl, SuspiciousPatterns[1])
  {
    var u := ExampleUrl;
    AbsentCharExcludes(u, "urgent", 0);
    AbsentCharExcludes(u, "act now", 4);
    AbsentCharExcludes(u, "limited time", 1);
    AbsentCharExcludes(u, "verify account", 0);
  }

  /** `https://example.com` contains no brand name (third alternation). */
  lemma ExampleUrlAvoidsBrands()
    ensures !AnyCI(ExampleUrl, SuspiciousPatterns[2])
  {
    var u := ExampleUrl;
    AbsentCharExcludes(u, "paypal", 2);
    AbsentCharExcludes(u, "amazon", 3);
    AbsentCharExcludes(u, "microsoft", 1);
    AbsentCharExcludes(u, "google", 0);
  }

  /** `https://example.com` contains no call to action (fourth alternation). */
  lemma ExampleUrlAvoidsCallsToAction()
    ensures !AnyCI(ExampleUrl, SuspiciousPatterns[3])
  {
    var u := ExampleUrl;
    AbsentCharExcludes(u, "click here", 2);
    AbsentCharExcludes(u, "download now", 2);
    AbsentCharExcludes(u, "free money", 0);
  }

  /** `example.com` has none of the suspicious suffixes. */
  lemma ExampleDomainHasPlainTld()
    ensures !HasSuspiciousTld("example.com")
  {
    var d := "example.com";
    AbsentCharExcludes(d, ".tk", 2);
    AbsentPairExcludes(d, ".ml");
    AbsentCharExcludes(d, ".ga", 1);
    AbsentCharExcludes(d, ".cf", 2);
    AbsentCharExcludes(d, ".info", 1);
    assert !MatchCIAt(d, |d| - 4, ".biz") by { assert LowerChar(d[|d| - 3]) != LowerChar(".biz"[1]); }
  }

  /** With the parser's hostname and an established domain drawn,
      `https://example.com` scores 0: low risk, no factors, and the HTTPS and
      established-history features first; the three deterministic detection
      methods pass. */
  lemma ExampleUrlScoresZero(hostOf: string -> Option<string>, draws: UrlDraws)
    requires hostOf(ExampleUrl) == Some("example.com") && !draws.newDomain
    ensures var a := UrlAssessment(ExampleUrl, hostOf, draws);
      && a.threatScore == 0 && a.riskCategory == Low && a.riskFactors == []
      && |a.securityFeatures| >= 2 && a.securityFeatures[..2] == [HttpsFeature, EstablishedFeature]
      && |a.detectionMethods| == 4
      && a.detectionMethods[0].result == Pass && a.detectionMethods[1].result == Pass
      && a.detectionMethods[2].result == Pass
  {
    ExampleDomainIsUnlisted();
    ExampleUrlHasNoSuspiciousPattern();
    ExampleDomainHasPlainTld();
    assert HasHttpsScheme(ExampleUrl);
    var sig := UrlSignalsOf(ExampleUrl, hostOf);
    assert sig == UrlSignals(false, false, true, false, false);
    UrlTable(sig, draws.newDomain);
    CleanUrlFeatures(sig, draws);
  }

  /** The narrative of a URL analysis is generated from its own factors and
      category, and its first template quotes the URL. */
  lemma UrlAnalysisNarrative(url: string, hostOf: string -> Option<string>, draws: UrlDraws)
    ensures var r := UrlAnalysis(url, hostOf, draws);
      && r.subject == url && r.assessment == UrlAssessment(url, hostOf, draws)
      && r.aiAnalysis == UrlNarrative(url, r.assessment.riskFactors, r.assessment.riskCategory, draws.secondTemplate)
      && (!draws.secondTemplate ==> Includes(r.aiAnalysis, Quoted(url)))
  {
    var a := UrlAssessment(url, hostOf, draws);
    UrlNarrativeQuotesUrl(url, a.riskFactors, a.riskCategory);
  }

  /** A high URL verdict always carries two or more risk factors: no single
      weight lies between 50 and 79. */
  lemma HighUrlVerdictHasTwoFactors(sig: UrlSignals, draws: UrlDraws)
    ensures var a := SignalAssessment(sig, draws);
      a.riskCategory == High ==> |a.riskFactors| >= 2
  {
    var cs := UrlChecks(sig, draws.newDomain);
    UrlFactorsAreTableFactors(sig, draws);
    OneFactorPerIncrement(cs);
    UrlHighNeedsTwoChecks(sig, draws.newDomain);
  }

  lemma UrlHighNeedsTwoChecks(sig: UrlSignals, newDomain: bool)
    ensures CategoryOf(RawScore(sig, newDomain)) == High ==> FiredCount(UrlChecks(sig, newDomain)) >= 2
  {
    HighNeedsTwoChecks(UrlChecks(sig, newDomain));
  }

  /** So the first high-risk narrative of every URL analysis names its
      first two factors. */
  lemma UrlHighAnalysisNamesTopFactors(url: string, hostOf: string -> Option<string>, draws: UrlDraws)
    ensures var r := UrlAnalysis(url, hostOf, draws);
      var rf := r.assessment.riskFactors;
      r.assessment.riskCategory == High && !draws.secondTemplate ==>
        |rf| >= 2 && Includes(r.aiAnalysis, Lower(rf[0]) + " and " + Lower(rf[1]))
  {
    var a := UrlAssessment(url, hostOf, draws);
    HighUrlVerdictHasTwoFactors(UrlSignalsOf(url, hostOf), draws);
    if a.riskCategory == High && !draws.secondTemplate {
      UrlHighNarrativeNamesTopFactors(url, a.riskFactors);
    }
  }
}
