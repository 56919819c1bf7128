/** The detector's fixed configuration tables and its regular expressions,
    each stated as a predicate or a matcher over the subject text. */
module Patterns {
  import opened Wrappers
  import opened Text

  /** The simulated threat database. */
  const KnownThreats: seq<string> :=
    ["phishing-example.com", "suspicious-bank.net", "fake-paypal.org", "malware-site.biz", "scam-lottery.info"]

  /** The four suspicious-pattern regular expressions, each an alternation of
      plain words tested case-insensitively anywhere in the URL: shorteners,
      urgency language, brand names, calls to action. */
  const SuspiciousPatterns: seq<seq<string>> := [
    ["bit.ly", "tinyurl", "t.co"],
    ["urgent", "act now", "limited time", "verify account"],
    ["paypal", "amazon", "microsoft", "google"],
    ["click here", "download now", "free money"]
  ]

  /** The alternatives of the separate shortener regular expression. */
  const ShortenerNames: seq<string> := ["bit.ly", "tinyurl", "t.co", "short.link"]

  /** The unanchored alternatives of the top-level-domain regular expression;
      only its last alternative, `.biz`, carries the `$` anchor. */
  const TldInfixes: seq<string> := [".tk", ".ml", ".ga", ".cf", ".info"]

  /** The brand names the document scorer looks for. */
  const BrandNames: seq<string> := ["paypal", "amazon", "microsoft", "google", "apple", "netflix", "spotify"]

  /** A case-insensitive alternation of plain words. */
  predicate AnyCI(s: string, alts: seq<string>)
  {
    exists k :: 0 <= k < |alts| && ContainsCI(s, alts[k])
  }

  /** `knownThreats.some(threat => domain.includes(threat))`: case-sensitive. */
  predicate IsKnownThreat(domain: string)
  {
    exists k :: 0 <= k < |KnownThreats| && Includes(domain, KnownThreats[k])
  }

  /** `suspiciousPatterns.some(pattern => pattern.test(url))`. */
  predicate HasSuspiciousPattern(url: string)
  {
    exists k :: 0 <= k < |SuspiciousPatterns| && AnyCI(url, SuspiciousPatterns[k])
  }

  predicate HasHttpsScheme(url: string)
  {
    StartsWithCI(url, "https://")
  }

  predicate IsShortenerUrl(url: string)
  {
    AnyCI(url, ShortenerNames)
  }

  predicate HasSuspiciousTld(domain: string)
  {
    AnyCI(domain, TldInfixes) || EndsWithCI(domain, ".biz")
  }

  /** `/verify.*account|suspended.*account|urgent.*action|click.*here.*immediately/i`. */
  predicate HasPhishingLanguage(s: string)
  {
    || FollowsOnLine(s, "verify", "account")
    || FollowsOnLine(s, "suspended", "account")
    || FollowsOnLine(s, "urgent", "action")
    || FollowsOnLine3(s, "click", "here", "immediately")
  }

  predicate MentionsBrand(s: string)
  {
    AnyCI(s, BrandNames)
  }

  /** `/action.*https/i`. */
  predicate HasSecureFormAction(s: string)
  {
    FollowsOnLine(s, "action", "https")
  }

  /** A URL naming `bit.ly`, `tinyurl` or `t.co` matches both the first
      suspicious-pattern expression and the shortener expression, so it is
      scored twice; only `short.link` is unique to the second. */
  lemma ShortenerAlsoSuspicious(url: string)
    requires AnyCI(url, SuspiciousPatterns[0])
    ensures HasSuspiciousPattern(url) && IsShortenerUrl(url)
  {
    var k :| 0 <= k < |SuspiciousPatterns[0]| && ContainsCI(url, SuspiciousPatterns[0][k]);
    assert ShortenerNames[k] == SuspiciousPatterns[0][k];
  }

  /** `url.toLowerCase().startsWith('https://')` is the case-insensitive
      prefix test the model uses. */
  lemma HttpsIsLowerPrefix(url: string)
    ensures HasHttpsScheme(url) <==> |url| >= 8 && Lower(url)[..8] == "https://"
  {
    if HasHttpsScheme(url) {
      forall k | 0 <= k < 8 ensures Lower(url)[..8][k] == "https://"[k] {
        assert LowerChar(url[k]) == LowerChar("https://"[k]);
      }
    }
    if |url| >= 8 && Lower(url)[..8] == "https://" {
      forall k | 0 <= k < 8 ensures LowerChar(url[k]) == LowerChar("https://"[k]) {
        assert Lower(url)[..8][k] == "https://"[k];
      }
    }
  }

  /** Each unanchored suffix (`.tk`, `.ml`, `.ga`, `.cf`, `.info`) counts
      wherever it occurs. */
  lemma InfixTldCounts(p: string, k: nat, q: string)
    requires k < |TldInfixes|
    ensures HasSuspiciousTld(p + TldInfixes[k] + q)
  {
    var s := p + TldInfixes[k] + q;
    IncludesMiddle(p, TldInfixes[k], q);
    forall j | 0 <= j < |TldInfixes[k]|
      ensures LowerChar(s[|p| + j]) == LowerChar(TldInfixes[k][j])
    {
      assert s[|p| + j] == TldInfixes[k][j];
    }
    assert MatchCIAt(s, |p|, TldInfixes[k]);
    assert ContainsCI(s, TldInfixes[k]);
  }

  /** `.biz` counts at the end of the domain. */
  lemma BizAtEndCounts(p: string)
    ensures HasSuspiciousTld(p + ".biz")
  {
    assert MatchCIAt(p + ".biz", |p|, ".biz");
  }

  /** `.biz` inside the domain does not count. */
  lemma InnerBizDoesNotCount()
    ensures !HasSuspiciousTld("store.biz.net")
  {
    var d := "store.biz.net";
    AbsentCharExcludes(d, ".tk", 2);
    AbsentCharExcludes(d, ".ml", 1);
    AbsentCharExcludes(d, ".ga", 1);
    AbsentCharExcludes(d, ".cf", 1);
    AbsentCharExcludes(d, ".info", 3);
    assert !MatchCIAt(d, |d| - 4, ".biz") by { assert LowerChar(d[|d| - 3]) != LowerChar(".biz"[1]); }
  }

  /** `.biz` counts only at the very end of the domain, while the other
      suspicious suffixes count wherever they occur. */
  lemma TldAnchoring(p: string, q: string)
    ensures forall k :: 0 <= k < |TldInfixes| ==> HasSuspiciousTld(p + TldInfixes[k] + q)
    ensures HasSuspiciousTld(p + ".biz")
    ensures !HasSuspiciousTld("store.biz.net")
  {
    forall k | 0 <= k < |TldInfixes|
      ensures HasSuspiciousTld(p + TldInfixes[k] + q)
    {
      InfixTldCounts(p, k, q);
    }
    BizAtEndCounts(p);
    InnerBizDoesNotCount();
  }

  /** The two global regular expressions whose matches the document scorer
      collects. */
  datatype Matcher =
    | ScriptBlock  // /<script.*?>.*?<\/script>/gis
    | FormAction   // /action\s*=\s*["']([^"']+)["']/gi

  /** Where a lazy `<script.*?>.*?</script>` match starting at `p` ends: the
      first `>` after `<script`, then the first `</script>` after it. */
  function ScriptBlockEnd(s: string, p: nat): (r: Option<nat>)
    ensures r.Some? ==> p + 17 <= r.value <= |s|
    ensures r.Some? ==> MatchCIAt(s, p, "<script") && MatchCIAt(s, r.value - 9, "</script>")
  {
    if MatchCIAt(s, p, "<script") then
      match FindCI(s, ">", p + 7)
      case None => None
      case Some(q) =>
        match FindCI(s, "</script>", q + 1)
        case None => None
        case Some(e) => Some(e + 9)
    else None
  }

  function SkipSpaces(s: string, i: nat): (j: nat)
    requires i <= |s|
    ensures i <= j <= |s|
    ensures forall k :: i <= k < j ==> IsJsSpace(s[k])
    ensures j < |s| ==> !IsJsSpace(s[j])
    decreases |s| - i
  {
    if i < |s| && IsJsSpace(s[i]) then SkipSpaces(s, i + 1) else i
  }

  predicate IsQuote(c: char)
  {
    c == '"' || c == '\''
  }

  function FirstQuote(s: string, i: nat): (j: nat)
    requires i <= |s|
    ensures i <= j <= |s|
    ensures forall k :: i <= k < j ==> !IsQuote(s[k])
    ensures j < |s| ==> IsQuote(s[j])
    decreases |s| - i
  {
    if i < |s| && !IsQuote(s[i]) then FirstQuote(s, i + 1) else i
  }

  /** Where an `action\s*=\s*["'][^"']+["']` match starting at `p` ends. The
      quantifiers are greedy, and backtracking cannot help any of them: a
      space is never `=` or a quote, and a non-quote never closes the value. */
  function FormActionEnd(s: string, p: nat): (r: Option<nat>)
    ensures r.Some? ==> p + 10 <= r.value <= |s|
    ensures r.Some? ==> MatchCIAt(s, p, "action") && IsQuote(s[r.value - 1])
  {
    if MatchCIAt(s, p, "action") then
      var j := SkipSpaces(s, p + 6);
      if j < |s| && s[j] == '=' then
        var k := SkipSpaces(s, j + 1);
        if k < |s| && IsQuote(s[k]) then
          var m := FirstQuote(s, k + 1);
          if k + 1 < m < |s| then Some(m + 1) else None
        else None
      else None
    else None
  }

  function MatchEnd(m: Matcher, s: string, p: nat): (r: Option<nat>)
    ensures r.Some? ==> p < r.value <= |s|
  {
    match m
    case ScriptBlock => ScriptBlockEnd(s, p)
    case FormAction => FormActionEnd(s, p)
  }

  /** `String.prototype.match` with a global expression: the texts of the
      leftmost, non-overlapping matches from `from` on. */
  function MatchesFrom(m: Matcher, s: string, from: nat): (r: seq<string>)
    ensures forall i :: 0 <= i < |r| ==> |r[i]| > 0
    ensures from <= |s| ==> |r| <= |s| - from
    ensures from > |s| ==> r == []
    decreases |s| + 1 - from
  {
    if from > |s| then []
    else match MatchEnd(m, s, from)
      case Some(e) => [s[from..e]] + MatchesFrom(m, s, e)
      case None => MatchesFrom(m, s, from + 1)
  }

  /** Every match is non-empty and they do not overlap, so there are at
      most as many as the text has characters. */
  function AllMatches(m: Matcher, s: string): (r: seq<string>)
    ensures forall i :: 0 <= i < |r| ==> |r[i]| > 0
    ensures |r| <= |s|
  {
    MatchesFrom(m, s, 0)
  }

  /** `RegExp.prototype.test` with the same expression. */
  predicate HasMatch(m: Matcher, s: string)
  {
    exists p :: 0 <= p <= |s| && MatchEnd(m, s, p).Some?
  }

  /** A match starting at or after `from` makes the match list non-empty. */
  lemma {:induction false} MatchAtGivesMatches(m: Matcher, s: string, from: nat, p: nat)
    requires from <= p <= |s| && MatchEnd(m, s, p).Some?
    ensures MatchesFrom(m, s, from) != []
    decreases p - from
  {
    if MatchEnd(m, s, from).None? {
      assert MatchesFrom(m, s, from) == MatchesFrom(m, s, from + 1);
      MatchAtGivesMatches(m, s, from + 1, p);
    }
  }

  /** A non-empty match list starts with a match at some position. */
  lemma {:induction false} MatchesGiveMatchAt(m: Matcher, s: string, from: nat) returns (p: nat)
    requires MatchesFrom(m, s, from) != []
    ensures from <= p <= |s| && MatchEnd(m, s, p).Some?
    decreases |s| + 1 - from
  {
    if MatchEnd(m, s, from).Some? {
      p := from;
    } else {
      assert MatchesFrom(m, s, from) == MatchesFrom(m, s, from + 1);
      p := MatchesGiveMatchAt(m, s, from + 1);
    }
  }

  /** `test` succeeds exactly when the global `match` returns some match,
      that is, when it does not return `null`. */
  lemma HasMatchIffMatches(m: Matcher, s: string)
    ensures HasMatch(m, s) <==> AllMatches(m, s) != []
  {
    if HasMatch(m, s) {
      var p :| 0 <= p <= |s| && MatchEnd(m, s, p).Some?;
      MatchAtGivesMatches(m, s, 0, p);
    }
    if AllMatches(m, s) != [] {
      var p := MatchesGiveMatchAt(m, s, 0);
    }
  }

  /** The global script match finds nothing in a text without `<script`. */
  lemma ScriptBlocksNeedTag(s: string)
    ensures AllMatches(ScriptBlock, s) != [] ==> ContainsCI(s, "<script")
  {
    if AllMatches(ScriptBlock, s) != [] {
      var p := MatchesGiveMatchAt(ScriptBlock, s, 0);
    }
  }

  /** The global form-action match finds nothing in a text without `action`. */
  lemma FormMatchesNeedAction(s: string)
    ensures AllMatches(FormAction, s) != [] ==> ContainsCI(s, "action")
  {
    if AllMatches(FormAction, s) != [] {
      var p := MatchesGiveMatchAt(FormAction, s, 0);
    }
  }

  /** Every form-action match text begins with `action` (in some case). */
  lemma {:induction false} FormMatchesStartWithAction(s: string, from: nat)
    ensures forall i :: 0 <= i < |MatchesFrom(FormAction, s, from)| ==>
              StartsWithCI(MatchesFrom(FormAction, s, from)[i], "action")
    decreases |s| + 1 - from
  {
    if from <= |s| {
      match MatchEnd(FormAction, s, from)
      case Some(e) =>
        var x := s[from..e];
        assert StartsWithCI(x, "action") by {
          forall k | 0 <= k < 6 ensures LowerChar(x[k]) == LowerChar("action"[k]) {
            assert x[k] == s[from + k];
          }
        }
        FormMatchesStartWithAction(s, e);
      case None =>
        FormMatchesStartWithAction(s, from + 1);
    }
  }

  /** Hence `/^https:/i`, applied to a whole match text, never succeeds. */
  lemma ActionTextIsNotHttps(x: string)
    ensures StartsWithCI(x, "action") ==> !StartsWithCI(x, "https:")
  {
    if StartsWithCI(x, "action") {
      assert LowerChar(x[0]) == LowerChar("action"[0]) == 'a';
      assert LowerChar("https:"[0]) == 'h';
    }
  }

  /** A script block found by the global match also satisfies `/<script/i`. */
  lemma ScriptBlockHasScriptTag(s: string)
    requires HasMatch(ScriptBlock, s)
    ensures ContainsCI(s, "<script")
  {
    var p :| 0 <= p <= |s| && MatchEnd(ScriptBlock, s, p).Some?;
    assert MatchCIAt(s, p, "<script");
  }

  /** `bit.ly` in a URL that also names `short.link` still matches the first
      suspicious-pattern expression. */
  lemma ShortLinkDoesNotHideBitLy()
    ensures AnyCI("https://bit.ly/short.link", SuspiciousPatterns[0])
    ensures ContainsCI("https://bit.ly/short.link", "short.link")
  {
    assert MatchCIAt("https://bit.ly/short.link", 8, SuspiciousPatterns[0][0]);
    assert MatchCIAt("https://bit.ly/short.link", 15, "short.link");
  }

  /** The phishing expression fires on its phrase in any case. */
  lemma PhishingPhraseFires()
    ensures HasPhishingLanguage("Please VERIFY your Account")
  {
    var s := "Please VERIFY your Account";
    assert MatchCIAt(s, 7, "verify") && MatchCIAt(s, 19, "account");
    assert OnOneLine(s, 13, 19);
  }

  /** `a.*b` cannot match across the line break of `p + "\n" + q` when `a`
      starts nowhere in `q`, `b` starts nowhere in `p`, and neither holds a
      line break. */
  lemma BreakSeparates(p: string, q: string, a: string, b: string)
    requires |a| > 0 && |b| > 0
    requires forall k :: 0 <= k < |a| ==> LowerChar(a[k]) != '\n'
    requires LowerChar(b[0]) != '\n'
    requires forall k :: 0 <= k < |q| ==> LowerChar(q[k]) != LowerChar(a[0])
    requires forall k :: 0 <= k < |p| ==> LowerChar(p[k]) != LowerChar(b[0])
    ensures !FollowsOnLine(p + "\n" + q, a, b)
  {
    var s := p + "\n" + q;
    assert forall k :: 0 <= k < |p| ==> s[k] == p[k];
    assert forall k :: |p| < k < |s| ==> s[k] == q[k - |p| - 1];
    forall i, j | 0 <= i <= |s| && i + |a| <= j <= |s| && MatchCIAt(s, i, a) && MatchCIAt(s, j, b)
      ensures !OnOneLine(s, i + |a|, j)
    {
      assert LowerChar(s[i]) == LowerChar(a[0]);
      assert i < |p|;
      var k := if i + |a| > |p| then |p| - i else 0;
      assert LowerChar(s[i + k]) == LowerChar(a[k]);
      assert LowerChar(s[j]) == LowerChar(b[0]);
      assert j > |p|;
      assert IsLineTerminator(s[|p|]);
    }
  }

  /** `.` does not cross a line break, so the phrase split over two lines
      does not fire the `verify.*account` alternative. */
  lemma PhishingPhraseStopsAtLineBreak()
    ensures !FollowsOnLine("verify\naccount", "verify", "account")
  {
    BreakSeparates("verify", "account", "verify", "account");
    assert "verify" + "\n" + "account" == "verify\naccount";
  }

  /** Brand names are matched in any case. */
  lemma BrandFiresInAnyCase()
    ensures MentionsBrand("Sign in to PayPal")
  {
    assert MatchCIAt("Sign in to PayPal", 11, BrandNames[0]);
  }

  /** A smallest complete script element. */
  const ScriptElement := "<script>x</script>"

  /** `n` copies of `x`, back to back. */
  function Repeat(x: string, n: nat): (r: string)
    ensures |r| == n * |x|
  {
    if n == 0 then "" else x + Repeat(x, n - 1)
  }

  /** `n` copies of `x` as a list. */
  function Copies(x: string, n: nat): (r: seq<string>)
    ensures |r| == n
    ensures forall i :: 0 <= i < n ==> r[i] == x
  {
    if n == 0 then [] else [x] + Copies(x, n - 1)
  }

  /** The lazy script match starting at a script element ends right after
      it, whatever surrounds it. */
  lemma ScriptElementEnd(a: string, b: string)
    ensures ScriptBlockEnd(a + ScriptElement + b, |a|) == Some(|a| + |ScriptElement|)
  {
    var s := a + ScriptElement + b;
    assert forall k :: 0 <= k < 18 ==> s[|a| + k] == ScriptElement[k];
    assert MatchCIAt(s, |a|, "<script");
    assert MatchCIAt(s, |a| + 7, ">");
    assert LowerChar(s[|a| + 8]) != LowerChar("</script>"[0]);
    assert MatchCIAt(s, |a| + 9, "</script>");
  }

  /** A match at `from` is the first text of the global match list. */
  lemma MatchesFromStep(m: Matcher, s: string, from: nat, e: nat)
    requires from <= |s| && MatchEnd(m, s, from) == Some(e)
    ensures MatchesFrom(m, s, from) == [s[from..e]] + MatchesFrom(m, s, e)
  {
  }

  /** No match starts at the very end of a text. */
  lemma NothingMatchesAtEnd(m: Matcher, s: string)
    ensures MatchesFrom(m, s, |s|) == []
  {
    assert !MatchCIAt(s, |s|, "<script") && !MatchCIAt(s, |s|, "action");
    assert MatchEnd(m, s, |s|).None?;
  }

  /** The global script match finds each of `n` consecutive script elements
      as one match, and nothing else after `a`. */
  lemma {:induction false} ScriptElementsMatch(a: string, n: nat)
    ensures MatchesFrom(ScriptBlock, a + Repeat(ScriptElement, n), |a|) == Copies(ScriptElement, n)
    decreases n
  {
    var s := a + Repeat(ScriptElement, n);
    if n == 0 {
      assert s == a;
      NothingMatchesAtEnd(ScriptBlock, a);
    } else {
      var rest := Repeat(ScriptElement, n - 1);
      var a' := a + ScriptElement;
      assert s == a + ScriptElement + rest == a' + rest;
      ScriptElementEnd(a, rest);
      MatchesFromStep(ScriptBlock, s, |a|, |a'|);
      assert s[|a|..|a'|] == ScriptElement;
      ScriptElementsMatch(a', n - 1);
    }
  }

  /** A form whose action is an `https:` URL. */
  const SecureForm := "action=\"https://x\""

  /** The form-action match at the start of the text spans all of it. */
  lemma SecureFormActionEnd()
    ensures FormActionEnd(SecureForm, 0) == Some(|SecureForm|)
  {
    var s := SecureForm;
    assert MatchCIAt(s, 0, "action");
    assert !IsJsSpace(s[6]) && !IsJsSpace(s[7]);
    assert SkipSpaces(s, 6) == 6 && SkipSpaces(s, 7) == 7;
    assert forall k :: 8 <= k < 17 ==> !IsQuote(s[k]);
    assert IsQuote(s[17]);
    assert FirstQuote(s, 8) == 17;
  }

  /** The global form-action match returns the whole text as its one match. */
  lemma SecureFormMatches()
    ensures AllMatches(FormAction, SecureForm) == [SecureForm]
  {
    var s := SecureForm;
    SecureFormActionEnd();
    MatchesFromStep(FormAction, s, 0, 18);
    assert !MatchCIAt(s, 18, "action");
    assert MatchesFrom(FormAction, s, 18) == [];
    assert s[0..18] == s;
  }

  /** The `/action.*https/i` detail test succeeds on it. */
  lemma SecureFormPassesDetailTest()
    ensures HasSecureFormAction(SecureForm)
  {
    var s := SecureForm;
    assert MatchCIAt(s, 0, "action") && MatchCIAt(s, 8, "https") && OnOneLine(s, 6, 8);
  }
}
