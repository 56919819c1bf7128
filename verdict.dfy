/** The analysis result, the evidence table both scorers accumulate, and the
    verdict ladder that turns a score into a category and a recommendation. */
module Verdict {
  import opened Wrappers

  datatype Category = Low | Medium | High | Critical

  datatype Outcome = Pass | Fail | Warning

  datatype DetectionMethod = DetectionMethod(name: string, result: Outcome)

  /** The secondary attributes shown with a result. */
  datatype TechnicalDetails = TechnicalDetails(
    domainAge: string,
    sslStatus: string,
    reputation: string,
    suspiciousScripts: string,
    hiddenIframes: string,
    formSecurity: string,
    ipLocation: string,
    redirects: string,
    responseTime: string)

  /** Everything a scan concludes apart from its narrative: the score, the
      verdict and the evidence behind it. */
  datatype Assessment = Assessment(
    threatScore: nat,
    riskCategory: Category,
    recommendation: string,
    riskFactors: seq<string>,
    securityFeatures: seq<string>,
    detectionMethods: seq<DetectionMethod>,
    technicalDetails: TechnicalDetails)

  /** `ThreatAnalysisResult` without its clock fields `scanDate` and
      `processingTime`: the subject (the field the source calls `url`, which
      holds the file name for a document scan), the narrative and the
      assessment. */
  datatype AnalysisResult = AnalysisResult(
    subject: string,
    aiAnalysis: string,
    assessment: Assessment)

  /** One heuristic of a scorer: whether it fired, the amount it adds to the
      score when it does, and the risk factor it then records. */
  datatype Check = Check(fired: bool, weight: nat, factor: string)

  function Contribution(c: Check): nat
  {
    if c.fired then c.weight else 0
  }

  /** The raw score after evaluating `cs` in order: the sum of the weights of
      the checks that fired. */
  function Score(cs: seq<Check>): nat
    decreases |cs|
  {
    if cs == [] then 0 else Score(cs[..|cs| - 1]) + Contribution(cs[|cs| - 1])
  }

  /** Appends `x` to `xs` when `c` holds: one conditional `push`. */
  function PushIf(xs: seq<string>, c: bool, x: string): seq<string>
  {
    if c then xs + [x] else xs
  }

  /** The risk factors recorded while evaluating `cs`, in evaluation order. */
  function Factors(cs: seq<Check>): seq<string>
    decreases |cs|
  {
    if cs == [] then []
    else PushIf(Factors(cs[..|cs| - 1]), cs[|cs| - 1].fired, cs[|cs| - 1].factor)
  }

  function FiredCount(cs: seq<Check>): nat
    decreases |cs|
  {
    if cs == [] then 0 else FiredCount(cs[..|cs| - 1]) + (if cs[|cs| - 1].fired then 1 else 0)
  }

  predicate PositiveWeights(cs: seq<Check>)
  {
    forall i :: 0 <= i < |cs| ==> cs[i].weight > 0
  }

  /** Evaluating one more check adds its contribution and at most its factor. */
  lemma Snoc(cs: seq<Check>, c: Check)
    ensures Score(cs + [c]) == Score(cs) + Contribution(c)
    ensures Factors(cs + [c]) == PushIf(Factors(cs), c.fired, c.factor)
    ensures FiredCount(cs + [c]) == FiredCount(cs) + (if c.fired then 1 else 0)
  {
    assert (cs + [c])[..|cs|] == cs;
  }

  /** Evaluating `a` and then `b` adds their scores, factors and counts. */
  lemma {:induction false} Append(a: seq<Check>, b: seq<Check>)
    ensures Score(a + b) == Score(a) + Score(b)
    ensures Factors(a + b) == Factors(a) + Factors(b)
    ensures FiredCount(a + b) == FiredCount(a) + FiredCount(b)
    decreases |b|
  {
    if b == [] {
      assert a + b == a;
    } else {
      var init := b[..|b| - 1];
      var c := b[|b| - 1];
      assert b == init + [c];
      assert a + b == (a + init) + [c];
      Append(a, init);
      Snoc(a + init, c);
      Snoc(init, c);
    }
  }

  /** The factors after evaluating `c` on top of `xs`. */
  function Record(xs: seq<string>, c: Check): seq<string>
  {
    PushIf(xs, c.fired, c.factor)
  }

  /** The score and factors of a six-check table, written out. */
  lemma Table6(c0: Check, c1: Check, c2: Check, c3: Check, c4: Check, c5: Check)
    ensures Score([c0, c1, c2, c3, c4, c5])
      == Contribution(c0) + Contribution(c1) + Contribution(c2) + Contribution(c3) + Contribution(c4) + Contribution(c5)
    ensures Factors([c0, c1, c2, c3, c4, c5])
      == Record(Record(Record(Record(Record(Record([], c0), c1), c2), c3), c4), c5)
  {
    var s1: seq<Check> := [c0];
    Snoc([], c0);
    assert [] + [c0] == s1;
    var s2 := s1 + [c1];
    Snoc(s1, c1);
    var s3 := s2 + [c2];
    Snoc(s2, c2);
    var s4 := s3 + [c3];
    Snoc(s3, c3);
    var s5 := s4 + [c4];
    Snoc(s4, c4);
    var s6 := s5 + [c5];
    Snoc(s5, c5);
    assert s6 == [c0, c1, c2, c3, c4, c5];
  }

  /** Every check that fires records exactly one factor. */
  lemma {:induction false} OneFactorPerIncrement(cs: seq<Check>)
    ensures |Factors(cs)| == FiredCount(cs)
    decreases |cs|
  {
    if cs != [] {
      OneFactorPerIncrement(cs[..|cs| - 1]);
    }
  }

  /** With positive weights the raw score is zero exactly when no factor was
      recorded. */
  lemma {:induction false} ZeroScoreIffNoFactors(cs: seq<Check>)
    requires PositiveWeights(cs)
    ensures Score(cs) == 0 <==> Factors(cs) == []
    decreases |cs|
  {
    if cs != [] {
      var init := cs[..|cs| - 1];
      assert PositiveWeights(init) by {
        forall i | 0 <= i < |init| ensures init[i].weight > 0 {
          assert init[i] == cs[i];
        }
      }
      ZeroScoreIffNoFactors(init);
      assert cs[|cs| - 1].weight > 0;
    }
  }

  /** With no check fired the score is zero; with one, it is that check's
      weight. */
  lemma {:induction false} LoneCheckScore(cs: seq<Check>)
    ensures FiredCount(cs) == 0 ==> Score(cs) == 0
    ensures FiredCount(cs) == 1 ==>
      exists i :: 0 <= i < |cs| && cs[i].fired && Score(cs) == cs[i].weight
    decreases |cs|
  {
    if cs != [] {
      var init := cs[..|cs| - 1];
      var last := cs[|cs| - 1];
      LoneCheckScore(init);
      if FiredCount(cs) == 1 {
        if last.fired {
          assert Score(cs) == cs[|cs| - 1].weight;
        } else {
          var i :| 0 <= i < |init| && init[i].fired && Score(init) == init[i].weight;
          assert cs[i] == init[i];
        }
      }
    }
  }

  /** When no single weight falls in the high band (50 to 79), a high
      verdict takes at least two fired checks. */
  lemma HighNeedsTwoChecks(cs: seq<Check>)
    requires forall i :: 0 <= i < |cs| ==> cs[i].weight < 50 || 80 <= cs[i].weight
    ensures CategoryOf(Score(cs)) == High ==> FiredCount(cs) >= 2
  {
    LoneCheckScore(cs);
  }

  /** When every check weighs `w`, the score is `w` per check that fired. */
  lemma {:induction false} UniformScore(cs: seq<Check>, w: nat)
    requires forall i :: 0 <= i < |cs| ==> cs[i].weight == w
    ensures Score(cs) == w * FiredCount(cs)
    decreases |cs|
  {
    if cs != [] {
      var init := cs[..|cs| - 1];
      assert forall i :: 0 <= i < |init| ==> init[i].weight == w by {
        forall i | 0 <= i < |init| ensures init[i].weight == w {
          assert init[i] == cs[i];
        }
      }
      UniformScore(init, w);
    }
  }

  /** `Math.min(threatScore, 100)`. */
  const MaxScore: nat := 100

  /** `Math.min(raw, 100)`: bounded by both, and equal to one of them. */
  function Clamp(raw: nat): (r: nat)
    ensures r <= MaxScore && r <= raw
    ensures r == raw || r == MaxScore
  {
    if raw <= MaxScore then raw else MaxScore
  }

  /** The ladder both scorers share: >= 80 critical, >= 50 high, >= 25 medium. */
  function CategoryOf(score: int): (c: Category)
    ensures c == Critical <==> 80 <= score
    ensures c == High <==> 50 <= score < 80
    ensures c == Medium <==> 25 <= score < 50
    ensures c == Low <==> score < 25
  {
    if score >= 80 then Critical
    else if score >= 50 then High
    else if score >= 25 then Medium
    else Low
  }

  function Rank(c: Category): nat
  {
    match c
    case Low => 0
    case Medium => 1
    case High => 2
    case Critical => 3
  }

  /** A higher score never yields a lower category. */
  lemma CategoryMonotone(a: int, b: int)
    requires a <= b
    ensures Rank(CategoryOf(a)) <= Rank(CategoryOf(b))
  {
  }

  /** Clamping never changes the category, since it bites only above 100. */
  lemma CategoryOfClamp(raw: nat)
    ensures Clamp(raw) <= MaxScore
    ensures CategoryOf(Clamp(raw)) == CategoryOf(raw)
  {
  }

  /** The boundary values of the ladder. */
  lemma CategoryBoundaries()
    ensures CategoryOf(24) == Low && CategoryOf(25) == Medium
    ensures CategoryOf(49) == Medium && CategoryOf(50) == High
    ensures CategoryOf(79) == High && CategoryOf(80) == Critical
  {
  }

  /** The URL scorer's recommendation table, keyed by category. */
  function UrlAdvice(c: Category): string
  {
    match c
    case Critical => "DO NOT VISIT - High phishing/malware risk detected"
    case High => "Avoid this link - Multiple risk factors identified"
    case Medium => "Exercise caution - Some risk factors present"
    case Low => "Generally safe to visit with normal precautions"
  }

  /** Reads the category back from a URL recommendation. */
  function UrlAdviceCategory(text: string): Option<Category>
  {
    if text == UrlAdvice(Critical) then Some(Critical)
    else if text == UrlAdvice(High) then Some(High)
    else if text == UrlAdvice(Medium) then Some(Medium)
    else if text == UrlAdvice(Low) then Some(Low)
    else None
  }

  /** Each URL recommendation names exactly one category. */
  lemma UrlAdviceRoundTrip(c: Category)
    ensures UrlAdviceCategory(UrlAdvice(c)) == Some(c)
  {
  }

  /** The file scorer's recommendation, its own ternary ladder on the raw score. */
  function FileAdvice(score: int): string
  {
    if score >= 80 then "DO NOT OPEN - High risk email/file detected"
    else if score >= 50 then "Quarantine recommended - Multiple threats found"
    else if score >= 25 then "Review carefully before opening"
    else "File appears safe for normal handling"
  }

  /** Reads the category back from a file recommendation. */
  function FileAdviceCategory(text: string): Option<Category>
  {
    if text == FileAdvice(80) then Some(Critical)
    else if text == FileAdvice(50) then Some(High)
    else if text == FileAdvice(25) then Some(Medium)
    else if text == FileAdvice(0) then Some(Low)
    else None
  }

  /** The file recommendation and the category ladder never disagree. */
  lemma FileAdviceAgreesWithCategory(score: int)
    ensures FileAdviceCategory(FileAdvice(score)) == Some(CategoryOf(score))
  {
  }
}
