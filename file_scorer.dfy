/** The document scorer, `performFileAnalysis`: five content heuristics (the
    form-action one applied once per match), each adding a fixed weight and
    one risk factor when it fires; two reassurance features for a clean
    document; three detection methods, the verdict ladder and the narrative. */
module FileScorer {
  import opened Wrappers
  import opened Text
  import opened Patterns
  import opened Verdict
  import opened Narrative

  /** Split in two only to keep proofs about its characters cheap. */
  const IframeFactor := "Contains embedded iframes " + "(potential malware injection)"
  const FormFactor := "Form submits to insecure endpoint"
  const PhishingFactor := "Contains typical phishing language patterns"
  const BrandFactor := "Potentially impersonating well-known brands"

  const ScriptFactorTail := " script tags (potentially excessive)"

  /** The script factor names how many script blocks were found. */
  function ScriptFactor(n: nat): string
  {
    "Contains " + NatToString(n) + ScriptFactorTail
  }

  /** The count reads back from between the script factor's fixed opening
      and its fixed tail. */
  lemma ScriptFactorReadsBack(n: nat)
    ensures var f := ScriptFactor(n);
      && |f| >= 9 + |ScriptFactorTail| + 1
      && f[..9] == "Contains " && f[|f| - |ScriptFactorTail|..] == ScriptFactorTail
      && var count := f[9..|f| - |ScriptFactorTail|];
         (forall i :: 0 <= i < |count| ==> IsDigit(count[i])) && ParseDecimal(count) == n
  {
    var digits := NatToString(n);
    NatToStringRoundTrip(n);
    var f := ScriptFactor(n);
    assert f[..9] == "Contains ";
    assert f[9..|f| - |ScriptFactorTail|] == digits;
    assert f[|f| - |ScriptFactorTail|..] == ScriptFactorTail;
  }

  /** The features a document with a zero score is credited with. */
  const DefaultFeatures: seq<string> :=
    ["No obvious malicious patterns detected", "Content appears to follow standard practices"]

  /** The text tests on the content, apart from the per-match form test. Each
      is pure, so evaluating them before the accumulation changes nothing. */
  datatype FileSignals = FileSignals(
    scriptBlock: bool,   // /<script.*?>.*?<\/script>/is.test(content)
    scriptCount: nat,    // the number of /<script.*?>.*?<\/script>/gis matches
    iframe: bool,        // /<iframe/i.test(content)
    phishing: bool,      // the phishing-language expression
    brand: bool,         // the brand-name expression
    scriptTag: bool,     // /<script/i.test(content)
    secureAction: bool)  // /action.*https/i.test(content)

  function FileSignalsOf(content: string): FileSignals
  {
    FileSignals(HasMatch(ScriptBlock, content), |AllMatches(ScriptBlock, content)|,
                ContainsCI(content, "<iframe"), HasPhishingLanguage(content), MentionsBrand(content),
                ContainsCI(content, "<script"), HasSecureFormAction(content))
  }

  /** The form-action matches: `content.match(...)` yields `null` for none,
      which the source skips exactly as it would an empty list. */
  function FormMatches(content: string): seq<string>
  {
    AllMatches(FormAction, content)
  }

  function ScriptCheck(sig: FileSignals): Check
  {
    Check(sig.scriptBlock && sig.scriptCount > 5, 20, ScriptFactor(sig.scriptCount))
  }

  function IframeCheck(sig: FileSignals): Check
  {
    Check(sig.iframe, 30, IframeFactor)
  }

  /** The test applied to each form-action match: `!/^https:/i.test(match)`.
      A match text begins with `action`, so the test always fires. */
  function FormCheck(formMatch: string): (c: Check)
    ensures c.weight == 25 && c.factor == FormFactor
    ensures StartsWithCI(formMatch, "action") ==> c.fired
  {
    ActionTextIsNotHttps(formMatch);
    Check(!StartsWithCI(formMatch, "https:"), 25, FormFactor)
  }


  function PhishingCheck(sig: FileSignals): Check
  {
    Check(sig.phishing, 35, PhishingFactor)
  }

  function BrandCheck(sig: FileSignals): Check
  {
    Check(sig.brand, 15, BrandFactor)
  }

  /** One form check per match, in match order. */
  function FormChecks(ms: seq<string>): (cs: seq<Check>)
    ensures |cs| == |ms|
    decreases |ms|
  {
    if ms == [] then [] else FormChecks(ms[..|ms| - 1]) + [FormCheck(ms[|ms| - 1])]
  }

  /** All heuristics in evaluation order. */
  function FileChecks(sig: FileSignals, ms: seq<string>): seq<Check>
  {
    [ScriptCheck(sig), IframeCheck(sig)] + FormChecks(ms) + [PhishingCheck(sig), BrandCheck(sig)]
  }

  function FileDetectionMethods(raw: nat): seq<DetectionMethod>
  {
    [ DetectionMethod("Content Analysis", if raw > 30 then Fail else Pass),
      DetectionMethod("Script Inspection", if raw > 20 then Warning else Pass),
      DetectionMethod("Phishing Detection", if raw > 40 then Fail else Pass) ]
  }

  /** The technical details of a document scan: the three markup details
      follow the content tests; TLS, location, redirects and response time
      are not observed and read "N/A". */
  function FileDetails(sig: FileSignals): (d: TechnicalDetails)
    ensures d.suspiciousScripts == "Found" <==> sig.scriptTag
    ensures d.hiddenIframes == "Found" <==> sig.iframe
    ensures d.formSecurity == "Secure" <==> sig.secureAction
    ensures d.sslStatus == d.ipLocation == d.redirects == d.responseTime == "N/A"
  {
    TechnicalDetails(
      "N/A (File Analysis)", "N/A", "File-based scan",
      if sig.scriptTag then "Found" else "None",
      if sig.iframe then "Found" else "None",
      if sig.secureAction then "Secure" else "Unsecured",
      "N/A", "N/A", "N/A")
  }

  function FileRawScore(sig: FileSignals, ms: seq<string>): nat
  {
    Score(FileChecks(sig, ms))
  }

  /** What the analysis concludes from the content tests and the form
      matches. */
  function SignalAssessment(sig: FileSignals, ms: seq<string>): Assessment
  {
    var checks := FileChecks(sig, ms);
    var raw := Score(checks);
    Assessment(
      Clamp(raw), CategoryOf(raw), FileAdvice(raw),
      Factors(checks), if raw == 0 then DefaultFeatures else [],
      FileDetectionMethods(raw), FileDetails(sig))
  }

  function FileAssessment(content: string): Assessment
  {
    SignalAssessment(FileSignalsOf(content), FormMatches(content))
  }

  /** What one document analysis produces, stated declaratively. */
  function FileAnalysis(fileName: string, content: string): AnalysisResult
  {
    var a := FileAssessment(content);
    AnalysisResult(fileName, FileNarrative(fileName, a.riskFactors, a.riskCategory), a)
  }

  /** One more form match adds one more form check. */
  lemma FormChecksStep(ms: seq<string>, i: nat)
    requires i < |ms|
    ensures Score(FormChecks(ms[..i + 1])) == Score(FormChecks(ms[..i])) + Contribution(FormCheck(ms[i]))
    ensures Factors(FormChecks(ms[..i + 1])) == Record(Factors(FormChecks(ms[..i])), FormCheck(ms[i]))
  {
    assert ms[..i + 1][..i] == ms[..i];
    Snoc(FormChecks(ms[..i]), FormCheck(ms[i]));
  }

  /** The score and factors of a document's check table, written out around
      the form checks. */
  lemma FileTable(sig: FileSignals, ms: seq<string>)
    ensures Score(FileChecks(sig, ms))
      == Contribution(ScriptCheck(sig)) + Contribution(IframeCheck(sig)) + Score(FormChecks(ms))
         + Contribution(PhishingCheck(sig)) + Contribution(BrandCheck(sig))
    ensures Factors(FileChecks(sig, ms))
      == Record(Record(Record(Record([], ScriptCheck(sig)), IframeCheck(sig)) + Factors(FormChecks(ms)),
                       PhishingCheck(sig)), BrandCheck(sig))
  {
    var head := [ScriptCheck(sig), IframeCheck(sig)];
    var forms := FormChecks(ms);
    Snoc([], ScriptCheck(sig));
    assert [] + [ScriptCheck(sig)] == [ScriptCheck(sig)];
    Snoc([ScriptCheck(sig)], IframeCheck(sig));
    assert [ScriptCheck(sig)] + [IframeCheck(sig)] == head;
    Append(head, forms);
    Snoc(head + forms, PhishingCheck(sig));
    Snoc(head + forms + [PhishingCheck(sig)], BrandCheck(sig));
    assert head + forms + [PhishingCheck(sig)] + [BrandCheck(sig)] == FileChecks(sig, ms);
  }

  /** The `forEach` over the form-action matches: every match that does not
      start with `https:` adds 25 and one factor. */
  method ApplyFormChecks(scoreBefore: nat, factorsBefore: seq<string>, formMatches: seq<string>)
    returns (threatScore: nat, riskFactors: seq<string>)
    ensures threatScore == scoreBefore + Score(FormChecks(formMatches))
    ensures riskFactors == factorsBefore + Factors(FormChecks(formMatches))
  {
    threatScore, riskFactors := scoreBefore, factorsBefore;
    var i := 0;
    while i < |formMatches|
      invariant i <= |formMatches|
      invariant threatScore == scoreBefore + Score(FormChecks(formMatches[..i]))
      invariant riskFactors == factorsBefore + Factors(FormChecks(formMatches[..i]))
    {
      var formMatch := formMatches[i];
      FormChecksStep(formMatches, i);
      ghost var done := Factors(FormChecks(formMatches[..i]));
      if !StartsWithCI(formMatch, "https:") {
        threatScore := threatScore + 25;
        riskFactors := riskFactors + [FormFactor];
        assert riskFactors == factorsBefore + (done + [FormFactor]);
      } else {
        assert riskFactors == factorsBefore + done;
      }
      i := i + 1;
    }
    assert formMatches[..i] == formMatches;
  }

  /** The heuristic checks of `performFileAnalysis`, in source order, with the
      `forEach` over the form-action matches as a loop. */
  method RunFileChecks(sig: FileSignals, formMatches: seq<string>)
    returns (threatScore: nat, riskFactors: seq<string>)
    ensures threatScore
      == Contribution(ScriptCheck(sig)) + Contribution(IframeCheck(sig)) + Score(FormChecks(formMatches))
         + Contribution(PhishingCheck(sig)) + Contribution(BrandCheck(sig))
    ensures riskFactors
      == Record(Record(Record(Record([], ScriptCheck(sig)), IframeCheck(sig)) + Factors(FormChecks(formMatches)),
                       PhishingCheck(sig)), BrandCheck(sig))
  {
    threatScore := 0;
    riskFactors := [];

    if sig.scriptBlock {
      if sig.scriptCount > 5 {
        threatScore := threatScore + 20;
        riskFactors := riskFactors + [ScriptFactor(sig.scriptCount)];
      }
    }

    if sig.iframe {
      threatScore := threatScore + 30;
      riskFactors := riskFactors + [IframeFactor];
    }

    threatScore, riskFactors := ApplyFormChecks(threatScore, riskFactors, formMatches);

    if sig.phishing {
      threatScore := threatScore + 35;
      riskFactors := riskFactors + [PhishingFactor];
    }

    if sig.brand {
      threatScore := threatScore + 15;
      riskFactors := riskFactors + [BrandFactor];
    }
  }

  /** The two reassurance features pushed when nothing fired. */
  method DefaultFeaturesIfClean(threatScore: nat) returns (securityFeatures: seq<string>)
    ensures securityFeatures == if threatScore == 0 then DefaultFeatures else []
  {
    securityFeatures := [];
    if threatScore == 0 {
      securityFeatures := securityFeatures + ["No obvious malicious patterns detected"];
      securityFeatures := securityFeatures + ["Content appears to follow standard practices"];
    }
  }

  /** The document scorer's two ternary ladders on the raw score. */
  method FileVerdict(threatScore: nat) returns (riskCategory: Category, recommendation: string)
    ensures riskCategory == CategoryOf(threatScore)
    ensures recommendation == FileAdvice(threatScore)
  {
    riskCategory :=
      if threatScore >= 80 then Critical
      else if threatScore >= 50 then High
      else if threatScore >= 25 then Medium
      else Low;
    recommendation :=
      if threatScore >= 80 then "DO NOT OPEN - High risk email/file detected"
      else if threatScore >= 50 then "Quarantine recommended - Multiple threats found"
      else if threatScore >= 25 then "Review carefully before opening"
      else "File appears safe for normal handling";
  }

  /** Everything `performFileAnalysis` concludes before the narrative: the
      checks, the default features, the two ternary ladders, the clamp, the
      detection methods and the technical details. */
  method AssessFileSignals(sig: FileSignals, formMatches: seq<string>) returns (a: Assessment)
    ensures a == SignalAssessment(sig, formMatches)
  {
    var threatScore, riskFactors := RunFileChecks(sig, formMatches);
    FileTable(sig, formMatches);

    var securityFeatures := DefaultFeaturesIfClean(threatScore);
    var riskCategory, recommendation := FileVerdict(threatScore);

    a := Assessment(
      if threatScore <= 100 then threatScore else 100, riskCategory, recommendation,
      riskFactors, securityFeatures,
      [ DetectionMethod("Content Analysis", if threatScore > 30 then Fail else Pass),
        DetectionMethod("Script Inspection", if threatScore > 20 then Warning else Pass),
        DetectionMethod("Phishing Detection", if threatScore > 40 then Fail else Pass) ],
      FileDetails(sig));
  }

  /** `performFileAnalysis`: the content tests, the assessment that follows
      from them and the form matches, and the narrative. */
  method PerformFileAnalysis(fileName: string, content: string) returns (r: AnalysisResult)
    ensures r == FileAnalysis(fileName, content)
  {
    var sig := FileSignals(HasMatch(ScriptBlock, content), |AllMatches(ScriptBlock, content)|,
                           ContainsCI(content, "<iframe"), HasPhishingLanguage(content), MentionsBrand(content),
                           ContainsCI(content, "<script"), HasSecureFormAction(content));
    var formMatches := AllMatches(FormAction, content);
    var assessment := AssessFileSignals(sig, formMatches);
    var aiAnalysis := FileNarrative(fileName, assessment.riskFactors, assessment.riskCategory);
    r := AnalysisResult(fileName, aiAnalysis, assessment);
  }

  /** Every form check weighs 25. */
  lemma {:induction false} FormWeights(ms: seq<string>)
    ensures forall i :: 0 <= i < |ms| ==> FormChecks(ms)[i].weight == 25
    decreases |ms|
  {
    if ms != [] {
      FormWeights(ms[..|ms| - 1]);
    }
  }

  /** Every check of a document's table has a positive weight. */
  lemma FilePositiveWeights(sig: FileSignals, ms: seq<string>)
    ensures PositiveWeights(FileChecks(sig, ms))
  {
    FormWeights(ms);
    var cs := FileChecks(sig, ms);
    forall i | 0 <= i < |cs| ensures cs[i].weight > 0 {
      if 2 <= i < 2 + |ms| {
        assert cs[i] == FormChecks(ms)[i - 2];
      }
    }
  }

  /** Form matches that all begin with `action` all fire: each adds 25 and
      one "insecure endpoint" factor. */
  lemma {:induction false} FormChecksAllFire(ms: seq<string>)
    requires forall i :: 0 <= i < |ms| ==> StartsWithCI(ms[i], "action")
    ensures FiredCount(FormChecks(ms)) == |ms|
    ensures Factors(FormChecks(ms)) == seq(|ms|, _ => FormFactor)
    decreases |ms|
  {
    if ms != [] {
      var init := ms[..|ms| - 1];
      FormChecksAllFire(init);
      ActionTextIsNotHttps(ms[|ms| - 1]);
      assert seq(|ms|, _ => FormFactor) == seq(|init|, _ => FormFactor) + [FormFactor];
    }
  }

  /** The form-action test never passes: every match the global expression
      returns starts with `action`, never with `https:`, so each one adds 25
      and one factor, whatever URL the form posts to. */
  lemma EveryFormMatchCounts(content: string)
    ensures var ms := FormMatches(content);
      && Score(FormChecks(ms)) == 25 * |ms|
      && Factors(FormChecks(ms)) == seq(|ms|, _ => FormFactor)
  {
    var ms := FormMatches(content);
    FormMatchesStartWithAction(content, 0);
    FormChecksAllFire(ms);
    FormWeights(ms);
    UniformScore(FormChecks(ms), 25);
  }

  /** Hence a document with any form-action match is at least of medium risk. */
  lemma AnyFormMatchIsAtLeastMedium(content: string)
    requires FormMatches(content) != []
    ensures FileRawScore(FileSignalsOf(content), FormMatches(content)) >= 25
    ensures FileAssessment(content).riskCategory != Low
  {
    EveryFormMatchCounts(content);
    FileTable(FileSignalsOf(content), FormMatches(content));
  }

  /** The reported score is the raw score capped at 100. */
  lemma FileScoreClamped(sig: FileSignals, ms: seq<string>)
    ensures SignalAssessment(sig, ms).threatScore == Clamp(FileRawScore(sig, ms))
    ensures SignalAssessment(sig, ms).threatScore <= 100
  {
  }

  /** Category and recommendation agree with each other and with the
      reported (clamped) score under the shared ladder. */
  lemma FileVerdictConsistent(sig: FileSignals, ms: seq<string>)
    ensures var a := SignalAssessment(sig, ms);
      && a.riskCategory == CategoryOf(a.threatScore)
      && a.riskCategory == CategoryOf(FileRawScore(sig, ms))
      && FileAdviceCategory(a.recommendation) == Some(a.riskCategory)
  {
    CategoryOfClamp(FileRawScore(sig, ms));
    FileAdviceAgreesWithCategory(FileRawScore(sig, ms));
  }

  /** One risk factor per increment, and the two default reassurance features
      exactly when nothing fired: a document is reported either with risk
      factors or with the default features, never both and never neither. */
  lemma FileFactorsPerIncrement(sig: FileSignals, ms: seq<string>)
    ensures var a := SignalAssessment(sig, ms);
      && |a.riskFactors| == FiredCount(FileChecks(sig, ms))
      && (a.riskFactors == [] <==> FileRawScore(sig, ms) == 0)
      && (a.securityFeatures == DefaultFeatures <==> FileRawScore(sig, ms) == 0)
      && (a.securityFeatures == DefaultFeatures <==> a.riskFactors == [])
      && (a.securityFeatures != DefaultFeatures ==> a.securityFeatures == [])
  {
    var cs := FileChecks(sig, ms);
    OneFactorPerIncrement(cs);
    FilePositiveWeights(sig, ms);
    ZeroScoreIffNoFactors(cs);
  }

  /** The three detection methods, in order, against the raw score's
      thresholds 30, 20 and 40. */
  lemma FileDetectionMethodOutcomes(sig: FileSignals, ms: seq<string>)
    ensures var dm := SignalAssessment(sig, ms).detectionMethods;
      && |dm| == 3
      && dm[0].name == "Content Analysis" && dm[1].name == "Script Inspection"
      && dm[2].name == "Phishing Detection"
      && dm[0].result == (if FileRawScore(sig, ms) > 30 then Fail else Pass)
      && dm[1].result == (if FileRawScore(sig, ms) > 20 then Warning else Pass)
      && dm[2].result == (if FileRawScore(sig, ms) > 40 then Fail else Pass)
  {
  }

  /** The script check fires exactly when the global expression finds more
      than five script blocks; its factor carries that count, and the
      technical details then report scripts found. */
  lemma ScriptCheckFiresOnManyBlocks(content: string)
    ensures var sig := FileSignalsOf(content);
      && (ScriptCheck(sig).fired <==> |AllMatches(ScriptBlock, content)| > 5)
      && ParseDecimal(NatToString(sig.scriptCount)) == |AllMatches(ScriptBlock, content)|
      && (ScriptCheck(sig).fired ==> FileDetails(sig).suspiciousScripts == "Found")
  {
    HasMatchIffMatches(ScriptBlock, content);
    NatToStringRoundTrip(|AllMatches(ScriptBlock, content)|);
    if HasMatch(ScriptBlock, content) {
      ScriptBlockHasScriptTag(content);
    }
  }

  /** The form checks record nothing but the form factor. */
  lemma {:induction false} OnlyFormFactors(ms: seq<string>)
    ensures forall k :: 0 <= k < |Factors(FormChecks(ms))| ==> Factors(FormChecks(ms))[k] == FormFactor
    decreases |ms|
  {
    if ms != [] {
      OnlyFormFactors(ms[..|ms| - 1]);
    }
  }

  /** The iframe check and the hidden-iframes detail share one test, so the
      iframe factor is reported exactly when the details say iframes were
      found. */
  lemma IframeDetailAgrees(sig: FileSignals, ms: seq<string>)
    ensures var a := SignalAssessment(sig, ms);
      (IframeFactor in a.riskFactors <==> a.technicalDetails.hiddenIframes == "Found")
  {
    FileTable(sig, ms);
    OnlyFormFactors(ms);
    ScriptFactorIsNotIframe(sig.scriptCount);
    var head := Record(Record([], ScriptCheck(sig)), IframeCheck(sig));
    var forms := Factors(FormChecks(ms));
    assert IframeFactor in head <==> sig.iframe;
    assert IframeFactor !in forms;
    assert IframeFactor in head + forms <==> sig.iframe;
    assert |PhishingFactor| != |IframeFactor| && |BrandFactor| != |IframeFactor|;
  }

  /** The script factor's tenth character is a digit of the count. */
  lemma ScriptFactorIsNotIframe(n: nat)
    ensures ScriptFactor(n) != IframeFactor
  {
    var digits := NatToString(n);
    assert ScriptFactor(n)[9] == digits[0];
    assert IframeFactor[9] == 'e';
  }

  /** An empty document is clean: score zero, low risk, the default features. */
  lemma EmptyDocumentIsClean()
    ensures var a := FileAssessment("");
      && a.threatScore == 0 && a.riskCategory == Low
      && a.riskFactors == [] && a.securityFeatures == DefaultFeatures
  {
    assert MatchesFrom(ScriptBlock, "", 1) == [];
    assert MatchesFrom(FormAction, "", 1) == [];
    assert !ContainsCI("", "<iframe");
    assert !HasPhishingLanguage("");
    assert !MentionsBrand("");
    FileTable(FileSignalsOf(""), []);
  }

  /** The narrative of a document analysis is generated from its own factors
      and category, and quotes the file name. */
  lemma FileAnalysisNarrative(fileName: string, content: string)
    ensures var r := FileAnalysis(fileName, content);
      && r.subject == fileName && r.assessment == FileAssessment(content)
      && Includes(r.aiAnalysis, Quoted(fileName))
  {
    var a := FileAssessment(content);
  }

  const HelloWorld := "hello world"

  /** "hello world" has no `<`: no script block, no script or iframe tag. */
  lemma HelloWorldHasNoMarkup()
    ensures AllMatches(ScriptBlock, HelloWorld) == [] && !HasMatch(ScriptBlock, HelloWorld)
    ensures !ContainsCI(HelloWorld, "<iframe") && !ContainsCI(HelloWorld, "<script")
  {
    AbsentCharExcludes(HelloWorld, "<script", 0);
    ScriptBlocksNeedTag(HelloWorld);
    HasMatchIffMatches(ScriptBlock, HelloWorld);
    AbsentCharExcludes(HelloWorld, "<iframe", 0);
  }

  /** "hello world" has no `a`: no form action at all. */
  lemma HelloWorldHasNoForm()
    ensures FormMatches(HelloWorld) == []
    ensures !HasSecureFormAction(HelloWorld)
  {
    AbsentCharExcludes(HelloWorld, "action", 0);
    FormMatchesNeedAction(HelloWorld);
    FollowsNeedsFirst(HelloWorld, "action", "https", "");
  }

  /** "hello world" has no `v`, `s`, `u` or `c`: no phishing phrase. */
  lemma HelloWorldHasNoPhishingLanguage()
    ensures !HasPhishingLanguage(HelloWorld)
  {
    AbsentCharExcludes(HelloWorld, "verify", 0);
    AbsentCharExcludes(HelloWorld, "suspended", 0);
    AbsentCharExcludes(HelloWorld, "urgent", 0);
    AbsentCharExcludes(HelloWorld, "click", 0);
    FollowsNeedsFirst(HelloWorld, "verify", "account", "");
    FollowsNeedsFirst(HelloWorld, "suspended", "account", "");
    FollowsNeedsFirst(HelloWorld, "urgent", "action", "");
    FollowsNeedsFirst(HelloWorld, "click", "here", "immediately");
  }

  /** No brand name starts with a letter of "hello world": `p`, `a`, `m`,
      `g`, `n` and `s` are all absent. */
  lemma HelloWorldNamesNoBrand()
    ensures !MentionsBrand(HelloWorld)
  {
    AbsentCharExcludes(HelloWorld, BrandNames[0], 0);
    AbsentCharExcludes(HelloWorld, BrandNames[1], 0);
    AbsentCharExcludes(HelloWorld, BrandNames[2], 0);
    AbsentCharExcludes(HelloWorld, BrandNames[3], 0);
    AbsentCharExcludes(HelloWorld, BrandNames[4], 0);
    AbsentCharExcludes(HelloWorld, BrandNames[5], 0);
    AbsentCharExcludes(HelloWorld, BrandNames[6], 0);
  }

  /** Plain prose with none of the scored constructs is clean: "hello world"
      scores 0, is low risk, has no factors and has the two default
      features. */
  lemma HelloWorldIsClean()
    ensures var a := FileAssessment(HelloWorld);
      && a.threatScore == 0 && a.riskCategory == Low
      && a.recommendation == "File appears safe for normal handling"
      && a.riskFactors == [] && a.securityFeatures == DefaultFeatures
  {
    HelloWorldHasNoMarkup();
    HelloWorldHasNoForm();
    HelloWorldHasNoPhishingLanguage();
    HelloWorldNamesNoBrand();
    var sig := FileSignalsOf(HelloWorld);
    assert sig == FileSignals(false, 0, false, false, false, false, false);
    FileTable(sig, []);
  }

  const IframePage := "<iframe src=x></iframe>"

  /** The page's only `<` openings are `<i` and `</`: no script block or tag,
      but an iframe tag at its start. */
  lemma IframePageHasNoScript()
    ensures AllMatches(ScriptBlock, IframePage) == [] && !HasMatch(ScriptBlock, IframePage)
    ensures !ContainsCI(IframePage, "<script")
  {
    AbsentPairExcludes(IframePage, "<script");
    ScriptBlocksNeedTag(IframePage);
    HasMatchIffMatches(ScriptBlock, IframePage);
  }

  lemma IframePageHasIframe()
    ensures ContainsCI(IframePage, "<iframe")
  {
    assert MatchCIAt(IframePage, 0, "<iframe");
  }

  /** The page's one `a` is followed by `m`, never by `c`: no form action. */
  lemma IframePageHasNoForm()
    ensures FormMatches(IframePage) == [] && !HasSecureFormAction(IframePage)
  {
    AbsentPairExcludes(IframePage, "action");
    FormMatchesNeedAction(IframePage);
    FollowsNeedsFirst(IframePage, "action", "https", "");
  }

  /** The page has neither account-related phishing word. */
  lemma IframePageLacksAccountWords()
    ensures !ContainsCI(IframePage, "verify") && !ContainsCI(IframePage, "suspended")
  {
    AbsentCharExcludes(IframePage, "verify", 0);
    AbsentPairExcludes(IframePage, "suspended");
  }

  /** The page has neither pressure word: it contains no `u` and no `l`. */
  lemma IframePageLacksPressureWords()
    ensures !ContainsCI(IframePage, "urgent") && !ContainsCI(IframePage, "click")
  {
    AbsentCharExcludes(IframePage, "urgent", 0);
    AbsentCharExcludes(IframePage, "click", 1);
  }

  /** The page has no phishing phrase. */
  lemma IframePageHasNoPhishingLanguage()
    ensures !HasPhishingLanguage(IframePage)
  {
    IframePageLacksAccountWords();
    IframePageLacksPressureWords();
    FollowsNeedsFirst(IframePage, "verify", "account", "");
    FollowsNeedsFirst(IframePage, "suspended", "account", "");
    FollowsNeedsFirst(IframePage, "urgent", "action", "");
    FollowsNeedsFirst(IframePage, "click", "here", "immediately");
  }

  /** The page names no brand. */
  lemma IframePageNamesNoBrand()
    ensures !MentionsBrand(IframePage)
  {
    AbsentCharExcludes(IframePage, BrandNames[0], 0);
    AbsentCharExcludes(IframePage, BrandNames[1], 3);
    AbsentCharExcludes(IframePage, BrandNames[2], 4);
    AbsentCharExcludes(IframePage, BrandNames[3], 0);
    AbsentCharExcludes(IframePage, BrandNames[4], 1);
    AbsentCharExcludes(IframePage, BrandNames[5], 0);
    AbsentCharExcludes(IframePage, BrandNames[6], 1);
  }

  /** A page holding one iframe and nothing else scores exactly 30: medium
      risk with the iframe factor alone. The score is not above 30, so
      Content Analysis passes, while Script Inspection warns (above 20). */
  lemma IframePageScoresThirty()
    ensures var a := FileAssessment(IframePage);
      && a.threatScore == 30 && a.riskCategory == Medium
      && a.riskFactors == [IframeFactor] && a.securityFeatures == []
      && a.detectionMethods[0].result == Pass && a.detectionMethods[1].result == Warning
      && a.detectionMethods[2].result == Pass
      && a.technicalDetails.hiddenIframes == "Found"
  {
    IframePageHasNoScript();
    IframePageHasIframe();
    IframePageHasNoForm();
    IframePageHasNoPhishingLanguage();
    IframePageNamesNoBrand();
    var sig := FileSignalsOf(IframePage);
    assert sig == FileSignals(false, 0, true, false, false, false, false);
    FileTable(sig, []);
  }

  /** The form page has no `<`, and lacks a letter of every phishing opening
      and every brand name. */
  lemma SecureFormHasNoMarkup()
    ensures !ContainsCI(SecureForm, "<script") && !ContainsCI(SecureForm, "<iframe")
    ensures AllMatches(ScriptBlock, SecureForm) == [] && !HasMatch(ScriptBlock, SecureForm)
  {
    AbsentCharExcludes(SecureForm, "<script", 0);
    AbsentCharExcludes(SecureForm, "<iframe", 0);
    ScriptBlocksNeedTag(SecureForm);
    HasMatchIffMatches(ScriptBlock, SecureForm);
  }

  lemma SecureFormHasNoPhishingLanguage()
    ensures !HasPhishingLanguage(SecureForm)
  {
    AbsentCharExcludes(SecureForm, "verify", 0);
    AbsentCharExcludes(SecureForm, "suspended", 1);
    AbsentCharExcludes(SecureForm, "urgent", 0);
    AbsentCharExcludes(SecureForm, "click", 1);
    FollowsNeedsFirst(SecureForm, "verify", "account", "");
    FollowsNeedsFirst(SecureForm, "suspended", "account", "");
    FollowsNeedsFirst(SecureForm, "urgent", "action", "");
    FollowsNeedsFirst(SecureForm, "click", "here", "immediately");
  }

  lemma SecureFormNamesNoBrand()
    ensures !MentionsBrand(SecureForm)
  {
    AbsentCharExcludes(SecureForm, BrandNames[0], 2);
    AbsentCharExcludes(SecureForm, BrandNames[1], 1);
    AbsentCharExcludes(SecureForm, BrandNames[2], 0);
    AbsentCharExcludes(SecureForm, BrandNames[3], 0);
    AbsentCharExcludes(SecureForm, BrandNames[4], 3);
    AbsentCharExcludes(SecureForm, BrandNames[5], 1);
    AbsentCharExcludes(SecureForm, BrandNames[6], 5);
  }

  /** A form that posts to an `https:` URL is still counted insecure: the
      `/^https:/i` test reads the whole match, which starts with `action`.
      The page scores 25 (medium) while its details call the form secure. */
  lemma SecureFormIsCountedInsecure()
    ensures var a := FileAssessment(SecureForm);
      && a.threatScore == 25 && a.riskCategory == Medium
      && a.riskFactors == [FormFactor]
      && a.technicalDetails.formSecurity == "Secure"
  {
    SecureFormMatches();
    SecureFormPassesDetailTest();
    SecureFormHasNoMarkup();
    SecureFormHasNoPhishingLanguage();
    SecureFormNamesNoBrand();
    var sig := FileSignalsOf(SecureForm);
    assert sig == FileSignals(false, 0, false, false, false, false, true);
    var ms := FormMatches(SecureForm);
    assert ms == [SecureForm];
    assert FormChecks(ms) == [FormCheck(SecureForm)];
    assert StartsWithCI(SecureForm, "action");
    FileTable(sig, ms);
  }

  /** Six script elements in a row. */
  const SixScripts := Repeat(ScriptElement, 6)

  /** The global script match finds six blocks there, so the script check
      fires: it adds 20 and records a factor that reads back the count 6. */
  lemma SixScriptsFireScriptCheck()
    ensures |AllMatches(ScriptBlock, SixScripts)| == 6
    ensures var sig := FileSignalsOf(SixScripts);
      && ScriptCheck(sig).fired && ScriptCheck(sig).factor == ScriptFactor(6)
    ensures var a := FileAssessment(SixScripts);
      && FileRawScore(FileSignalsOf(SixScripts), FormMatches(SixScripts)) >= 20
      && |a.riskFactors| > 0 && a.riskFactors[0] == ScriptFactor(6)
  {
    ScriptElementsMatch("", 6);
    assert "" + SixScripts == SixScripts;
    HasMatchIffMatches(ScriptBlock, SixScripts);
    var sig := FileSignalsOf(SixScripts);
    assert sig.scriptBlock && sig.scriptCount == 6;
    FileTable(sig, FormMatches(SixScripts));
  }

  /** A high document verdict always carries two or more risk factors: every
      weight is below 50, forms included. */
  lemma HighFileVerdictHasTwoFactors(sig: FileSignals, ms: seq<string>)
    ensures var a := SignalAssessment(sig, ms);
      a.riskCategory == High ==> |a.riskFactors| >= 2
  {
    FileFactorsPerIncrement(sig, ms);
    FormWeights(ms);
    var cs := FileChecks(sig, ms);
    forall i | 0 <= i < |cs| ensures cs[i].weight < 50 {
      if 2 <= i < 2 + |ms| {
        assert cs[i] == FormChecks(ms)[i - 2];
      }
    }
    HighNeedsTwoChecks(cs);
  }

  /** So the high-risk narrative of every document analysis names its first
      two factors. */
  lemma FileHighAnalysisNamesTopFactors(fileName: string, content: string)
    ensures var r := FileAnalysis(fileName, content);
      var rf := r.assessment.riskFactors;
      r.assessment.riskCategory == High ==>
        |rf| >= 2 && Includes(r.aiAnalysis, Lower(rf[0]) + " and " + Lower(rf[1]))
  {
    var a := FileAssessment(content);
    HighFileVerdictHasTwoFactors(FileSignalsOf(content), FormMatches(content));
    if a.riskCategory == High {
      FileHighNarrativeNamesTopFactors(fileName, a.riskFactors);
    }
  }
}
