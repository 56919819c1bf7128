/** The templated explanations that stand in for a language model's summary.
    Neither generator reads its `score` argument, so the model omits it; the
    URL generator's random choice between its two templates per category is
    the `second` parameter. Each template is written as the list of its
    fragments, fixed text and interpolated values in order; the fixed text is
    held in named constants. */
module Narrative {
  import opened Text
  import opened Verdict

  /** A subject as the templates quote it. */
  function Quoted(subject: string): string
  {
    "\"" + subject + "\""
  }

  /** `risks.slice(0, 2).join(' and ')`. */
  function FirstTwo(risks: seq<string>): string
  {
    Join(if |risks| <= 2 then risks else risks[..2], " and ")
  }

  /** `risks[0]?.toLowerCase() || 'certain risk factors'`. */
  function FirstRiskLowered(risks: seq<string>): string
  {
    if |risks| > 0 && Lower(risks[0]) != "" then Lower(risks[0]) else "certain risk factors"
  }

  /** `risks[0] || 'Certain elements'`. */
  function FirstRisk(risks: seq<string>): string
  {
    if |risks| > 0 && risks[0] != "" then risks[0] else "Certain elements"
  }

  const UrlLowTail := " appears to be a legitimate website with minimal security concerns. The site uses standard security practices and shows no obvious signs of malicious intent."
  const UrlLowAlt := "This URL shows positive security indicators and follows web security best practices. While no site is 100% risk-free, this appears to be safe for normal browsing."
  const UrlMediumMid := " shows some concerning patterns that warrant caution. While not definitively malicious, "
  const UrlMediumTail := " suggest you should verify the site's legitimacy before providing any sensitive information."
  const UrlMediumAlt := "This website displays mixed security signals. I recommend exercising caution and avoiding entering personal information unless you can independently verify the site's authenticity."
  const UrlHighMid := " that strongly suggest this is a potentially dangerous site. The combination of "
  const UrlHighTail := " are common indicators of phishing or malware distribution."
  const UrlHighAlt := "This URL exhibits several characteristics typical of malicious websites. I strongly advise against visiting this site, as it poses significant security risks."
  const UrlCriticalTail := " appears to be a highly dangerous website with multiple critical threat indicators. This site shows clear signs of being designed for malicious purposes such as credential theft, malware distribution, or financial fraud."
  const UrlCriticalAlt := "This is almost certainly a malicious website designed to harm visitors. The URL contains known threat patterns and should be avoided completely."

  /** The fragments of `generateAIAnalysis`'s templates. */
  function UrlTemplate(url: string, risks: seq<string>, category: Category, second: bool): (parts: seq<string>)
    ensures second ==> |parts| == 1
    ensures !second ==> 3 <= |parts| && parts[1] == Quoted(url)
    ensures category == High && !second ==> |parts| == 5 && parts[3] == Lower(FirstTwo(risks))
    ensures category == Medium && !second ==> |parts| == 5 && parts[3] == FirstRiskLowered(risks)
  {
    match category
    case Low =>
      if !second then ["Based on my analysis, ", Quoted(url), UrlLowTail] else [UrlLowAlt]
    case Medium =>
      if !second then ["The URL ", Quoted(url), UrlMediumMid, FirstRiskLowered(risks), UrlMediumTail]
      else [UrlMediumAlt]
    case High =>
      if !second then ["I've detected multiple red flags for ", Quoted(url), UrlHighMid, Lower(FirstTwo(risks)), UrlHighTail]
      else [UrlHighAlt]
    case Critical =>
      if !second then ["WARNING: ", Quoted(url), UrlCriticalTail] else [UrlCriticalAlt]
  }

  /** `generateAIAnalysis`: the first template of every category quotes the
      URL. */
  function UrlNarrative(url: string, risks: seq<string>, category: Category, second: bool): (text: string)
    ensures !second ==> Includes(text, Quoted(url))
  {
    var parts := UrlTemplate(url, risks, category, second);
    if !second then ConcatIncludesPart(parts, 1); Concat(parts) else Concat(parts)
  }

  const FileLowTail := " appears to be clean with no obvious malicious indicators. The content follows standard formatting practices and contains no suspicious elements that would indicate malicious intent."
  const FileMediumMid := " reveals some concerning patterns that suggest caution. "
  const FileMediumTail := " could potentially be used for malicious purposes, though this may also be legitimate functionality."
  const FileHighMid := " contains multiple suspicious elements commonly found in malicious emails or documents. The presence of "
  const FileHighTail := " suggests this could be a phishing attempt or contain malware."
  const FileCriticalTail := " contains highly suspicious content that strongly indicates malicious intent. This file exhibits multiple characteristics of advanced phishing or malware campaigns and should be immediately quarantined."

  /** The fragments of `generateFileAIAnalysis`'s templates. */
  function FileTemplate(fileName: string, risks: seq<string>, category: Category): (parts: seq<string>)
    ensures 3 <= |parts| && parts[1] == Quoted(fileName)
    ensures category == High ==> |parts| == 5 && parts[3] == Lower(FirstTwo(risks))
    ensures category == Medium ==> |parts| == 5 && parts[3] == FirstRisk(risks)
  {
    match category
    case Low => ["The file ", Quoted(fileName), FileLowTail]
    case Medium => ["Analysis of ", Quoted(fileName), FileMediumMid, FirstRisk(risks), FileMediumTail]
    case High => ["The file ", Quoted(fileName), FileHighMid, Lower(FirstTwo(risks)), FileHighTail]
    case Critical => ["CRITICAL ALERT: ", Quoted(fileName), FileCriticalTail]
  }

  /** `generateFileAIAnalysis`: every template quotes the file name. */
  function FileNarrative(fileName: string, risks: seq<string>, category: Category): (text: string)
    ensures Includes(text, Quoted(fileName))
  {
    var parts := FileTemplate(fileName, risks, category);
    ConcatIncludesPart(parts, 1); Concat(parts)
  }

  /** The first template of every category quotes the URL; the second is
      fixed text that depends on the category alone. */
  lemma UrlNarrativeQuotesUrl(url: string, risks: seq<string>, category: Category)
    ensures Includes(UrlNarrative(url, risks, category, false), Quoted(url))
    ensures UrlNarrative(url, risks, category, true) == UrlNarrative("", [], category, true)
  {
    ConcatIncludesPart(UrlTemplate(url, risks, category, false), 1);
  }

  /** With two or more risk factors, `FirstTwo` lower-cased names the first
      two, each lower-cased, joined by " and ". */
  lemma FirstTwoLowered(risks: seq<string>)
    requires |risks| >= 2
    ensures Lower(FirstTwo(risks)) == Lower(risks[0]) + " and " + Lower(risks[1])
  {
    var two := if |risks| <= 2 then risks else risks[..2];
    assert |two| == 2 && two[0] == risks[0] && two[1..] == [risks[1]];
    assert Join(two[1..], " and ") == risks[1];
    assert FirstTwo(risks) == risks[0] + " and " + risks[1];
    LowerAppend(risks[0] + " and ", risks[1]);
    LowerAppend(risks[0], " and ");
    assert Lower(" and ") == " and ";
  }

  /** With two or more risk factors, the first high-risk URL narrative names
      the first two, lower-cased and joined by " and ". */
  lemma UrlHighNarrativeNamesTopFactors(url: string, risks: seq<string>)
    requires |risks| >= 2
    ensures Includes(UrlNarrative(url, risks, High, false), Lower(risks[0]) + " and " + Lower(risks[1]))
  {
    FirstTwoLowered(risks);
    ConcatIncludesPart(UrlTemplate(url, risks, High, false), 3);
  }

  /** With two or more risk factors, the high-risk file narrative names the
      first two, lower-cased and joined by " and ". */
  lemma FileHighNarrativeNamesTopFactors(fileName: string, risks: seq<string>)
    requires |risks| >= 2
    ensures Includes(FileNarrative(fileName, risks, High), Lower(risks[0]) + " and " + Lower(risks[1]))
  {
    FirstTwoLowered(risks);
    ConcatIncludesPart(FileTemplate(fileName, risks, High), 3);
  }

  /** The first medium-risk URL narrative names the first risk factor
      lower-cased, or a fixed phrase when there is none. */
  lemma UrlMediumNarrativeNamesFirstFactor(url: string, risks: seq<string>)
    ensures |risks| > 0 && risks[0] != "" ==> Includes(UrlNarrative(url, risks, Medium, false), Lower(risks[0]))
    ensures risks == [] ==> Includes(UrlNarrative(url, risks, Medium, false), "certain risk factors")
  {
    ConcatIncludesPart(UrlTemplate(url, risks, Medium, false), 3);
  }

  /** The medium-risk file narrative names the first risk factor verbatim, or
      a fixed phrase when there is none. */
  lemma FileMediumNarrativeNamesFirstFactor(fileName: string, risks: seq<string>)
    ensures |risks| > 0 && risks[0] != "" ==> Includes(FileNarrative(fileName, risks, Medium), risks[0])
    ensures risks == [] ==> Includes(FileNarrative(fileName, risks, Medium), "Certain elements")
  {
    ConcatIncludesPart(FileTemplate(fileName, risks, Medium), 3);
  }
}
