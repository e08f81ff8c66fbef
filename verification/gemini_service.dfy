/**
 * The fraud analyser (backend/api/gemini_service.py): the rule-based mock analysis, the
 * recommendation text, the parsing of a model reply into a clamped score and bullet-point
 * risk factors, and the entry point that chooses between them.
 *
 * The random draw of the mock is a parameter, as are the renderings of floats that the
 * explanation embeds (`{amount}` and `{score:.2f}`). Calls to the Gemini service are an input
 * reply; the regular-expression search for a score is an input match.
 */
module GeminiService {
  import opened Basics
  import opened Text

  const SuspiciousKeywords: seq<string> := ["urgent", "transfer", "investment", "opportunity", "quick"]

  const InvalidSenderFactor: string := "Invalid sender address format"
  const InvalidReceiverFactor: string := "Invalid receiver address format"
  const RoundAmountFactor: string := "Suspicious round number amount"
  const KeywordFactorPrefix: string := "Suspicious keywords found: "

  /** The mock's address format check: 42 characters starting with "0x". */
  predicate IsWellFormedAddress(address: string) {
    |address| == 42 && StartsWith(address, "0x")
  }

  /** `amount == round(amount)`: the amount has no fractional part. */
  predicate IsWhole(x: real) {
    x == x.Floor as real
  }

  /** The analyser's answer. */
  datatype Analysis = Analysis(score: real, explanation: string, riskFactors: seq<string>)

  // ---------------------------------------------------------------- keywords

  predicate Distinct(s: seq<string>) {
    forall i, j | 0 <= i < j < |s| :: s[i] != s[j]
  }

  /** `a` is `b` with some elements left out, the rest kept in order. */
  predicate Subsequence(a: seq<string>, b: seq<string>)
    decreases |b|
  {
    if a == [] then true
    else if b == [] then false
    else (a[|a| - 1] == b[|b| - 1] && Subsequence(a[..|a| - 1], b[..|b| - 1])) || Subsequence(a, b[..|b| - 1])
  }

  /** The keywords, taken in order, that occur in `text`. */
  function KeywordsIn(text: string, keywords: seq<string>): (found: seq<string>)
    ensures |found| <= |keywords|
    decreases |keywords|
  {
    if keywords == [] then []
    else
      var init, last := keywords[..|keywords| - 1], keywords[|keywords| - 1];
      KeywordsIn(text, init) + (if Contains(text, last) then [last] else [])
  }

  /** The keywords found are exactly the listed ones that occur in the text. */
  lemma {:induction false} KeywordsInMembers(text: string, keywords: seq<string>)
    ensures forall w :: w in KeywordsIn(text, keywords) <==> w in keywords && Contains(text, w)
    decreases |keywords|
  {
    if keywords != [] {
      var init, last := keywords[..|keywords| - 1], keywords[|keywords| - 1];
      assert keywords == init + [last];
      KeywordsInMembers(text, init);
    }
  }

  /** The keywords found keep the list's order. */
  lemma {:induction false} KeywordsInOrder(text: string, keywords: seq<string>)
    ensures Subsequence(KeywordsIn(text, keywords), keywords)
    decreases |keywords|
  {
    if keywords != [] {
      var init, last := keywords[..|keywords| - 1], keywords[|keywords| - 1];
      var found := KeywordsIn(text, init);
      KeywordsInOrder(text, init);
      if Contains(text, last) {
        var r := found + [last];
        assert r[..|r| - 1] == found && r[|r| - 1] == last;
        assert keywords[..|keywords| - 1] == init && keywords[|keywords| - 1] == last;
        assert Subsequence(r[..|r| - 1], keywords[..|keywords| - 1]);
        assert Subsequence(r, keywords);
      } else {
        assert keywords == init + [last];
        assert KeywordsIn(text, keywords) == found;
        SubsequenceOfPrefix(found, init, last);
      }
    }
  }

  /** A list without repeats yields each keyword once. */
  lemma {:induction false} KeywordsInDistinct(text: string, keywords: seq<string>)
    requires Distinct(keywords)
    ensures Distinct(KeywordsIn(text, keywords))
    decreases |keywords|
  {
    if keywords != [] {
      var init, last := keywords[..|keywords| - 1], keywords[|keywords| - 1];
      assert Distinct(init) by {
        forall i, j | 0 <= i < j < |init| ensures init[i] != init[j] {
          assert init[i] == keywords[i] && init[j] == keywords[j];
        }
      }
      KeywordsInDistinct(text, init);
      KeywordsInMembers(text, init);
      assert last !in init;
    }
  }

  lemma SubsequenceOfPrefix(a: seq<string>, init: seq<string>, last: string)
    requires Subsequence(a, init)
    ensures Subsequence(a, init + [last])
  {
    assert (init + [last])[..|init|] == init;
  }

  /** The keywords the mock finds: none without a (non-empty) description. */
  function FoundKeywords(description: Option<string>): seq<string> {
    if description.Some? && description.value != "" then KeywordsIn(Lower(description.value), SuspiciousKeywords)
    else []
  }

  lemma FoundKeywordsFacts(description: Option<string>)
    ensures var found := FoundKeywords(description);
      Subsequence(found, SuspiciousKeywords) && Distinct(found) &&
      (forall w :: w in found <==>
        w in SuspiciousKeywords && description.Some? && description.value != "" && Contains(Lower(description.value), w))
  {
    if description.Some? && description.value != "" {
      KeywordsInMembers(Lower(description.value), SuspiciousKeywords);
      KeywordsInOrder(Lower(description.value), SuspiciousKeywords);
      KeywordsInDistinct(Lower(description.value), SuspiciousKeywords);
    }
  }

  // ---------------------------------------------------------------- mock analysis

  function Indicator(b: bool, weight: real): real {
    if b then weight else 0.0
  }

  /** The mock's score in closed form: the base, the draw and the weights of the checks that fire, capped at 0.95. */
  function MockScore(sender: string, receiver: string, amount: real, found: seq<string>, draw: real): real {
    var raw := 0.1 + draw
      + Indicator(!IsWellFormedAddress(sender), 0.2)
      + Indicator(!IsWellFormedAddress(receiver), 0.2)
      + Indicator(amount > 5.0, 0.2)
      + Indicator(IsWhole(amount), 0.1)
      + 0.15 * |found| as real;
    if raw <= 0.95 then raw else 0.95
  }

  /** With the draw in [0, 0.3] the mock's score lies in [0.1, 0.95]. */
  lemma MockScoreBounds(sender: string, receiver: string, amount: real, found: seq<string>, draw: real)
    requires 0.0 <= draw <= 0.3
    ensures 0.1 <= MockScore(sender, receiver, amount, found, draw) <= 0.95
  {
  }

  /** The mock's risk factors, in the order its checks run, given the keywords found. */
  function MockRiskFactors(sender: string, receiver: string, amount: real, amountText: string,
                           found: seq<string>): seq<string>
  {
    (if !IsWellFormedAddress(sender) then [InvalidSenderFactor] else [])
    + (if !IsWellFormedAddress(receiver) then [InvalidReceiverFactor] else [])
    + LaterFactors(amount, amountText, found)
  }

  /** The factors after the address checks: amount, round number, keywords. */
  function LaterFactors(amount: real, amountText: string, found: seq<string>): seq<string> {
    (if amount > 5.0 then ["Large transaction amount: " + amountText + " ETH"] else [])
    + (if IsWhole(amount) then [RoundAmountFactor] else [])
    + (if found != [] then [KeywordFactorPrefix + Join(found, ", ")] else [])
  }

  /** The factors as the checks append them, one after another. */
  lemma MockRiskFactorsInCheckOrder(sender: string, receiver: string, amount: real, amountText: string,
                                    found: seq<string>)
    ensures MockRiskFactors(sender, receiver, amount, amountText, found) ==
      [] + (if !IsWellFormedAddress(sender) then [InvalidSenderFactor] else [])
      + (if !IsWellFormedAddress(receiver) then [InvalidReceiverFactor] else [])
      + (if amount > 5.0 then ["Large transaction amount: " + amountText + " ETH"] else [])
      + (if IsWhole(amount) then [RoundAmountFactor] else [])
      + (if found != [] then [KeywordFactorPrefix + Join(found, ", ")] else [])
  {
    var a := if !IsWellFormedAddress(sender) then [InvalidSenderFactor] else [];
    var b := if !IsWellFormedAddress(receiver) then [InvalidReceiverFactor] else [];
    var c := if amount > 5.0 then ["Large transaction amount: " + amountText + " ETH"] else [];
    var d := if IsWhole(amount) then [RoundAmountFactor] else [];
    var e := if found != [] then [KeywordFactorPrefix + Join(found, ", ")] else [];
    assert [] + a == a;
    assert a + b + (c + d + e) == a + b + c + d + e;
  }

  /** The keyword factor, if any, is appended after the others. */
  lemma MockRiskFactorsLast(sender: string, receiver: string, amount: real, amountText: string, found: seq<string>)
    ensures MockRiskFactors(sender, receiver, amount, amountText, found) ==
      MockRiskFactors(sender, receiver, amount, amountText, [])
      + (if found != [] then [KeywordFactorPrefix + Join(found, ", ")] else [])
  {
  }

  /** The later factors start with 'L' or 'S', never with the 'I' of an address factor. */
  lemma LaterFactorsAreNotAddressFactors(amount: real, amountText: string, found: seq<string>)
    ensures forall x | x in LaterFactors(amount, amountText, found) :: |x| > 0 && x[0] != 'I'
  {
    var c := if amount > 5.0 then ["Large transaction amount: " + amountText + " ETH"] else [];
    var d := if IsWhole(amount) then [RoundAmountFactor] else [];
    var e := if found != [] then [KeywordFactorPrefix + Join(found, ", ")] else [];
    assert LaterFactors(amount, amountText, found) == c + d + e;
    forall x | x in c + d + e ensures |x| > 0 && x[0] != 'I' {
      if x in e {
        assert x == KeywordFactorPrefix + Join(found, ", ");
        assert x[0] == KeywordFactorPrefix[0];
      }
    }
  }

  /** An address factor is present exactly when that address fails the format check. */
  lemma MockAddressFactors(sender: string, receiver: string, amount: real, amountText: string,
                           found: seq<string>)
    ensures var r := MockRiskFactors(sender, receiver, amount, amountText, found);
      (InvalidSenderFactor in r <==> !IsWellFormedAddress(sender)) &&
      (InvalidReceiverFactor in r <==> !IsWellFormedAddress(receiver))
  {
    LaterFactorsAreNotAddressFactors(amount, amountText, found);
    var later := LaterFactors(amount, amountText, found);
    assert InvalidSenderFactor !in later && InvalidReceiverFactor !in later;
    assert |InvalidSenderFactor| != |InvalidReceiverFactor|;
  }

  /** The sender's factor, when present, comes first, and the receiver's right after it. */
  lemma MockAddressFactorsOrder(sender: string, receiver: string, amount: real, amountText: string,
                                found: seq<string>)
    ensures var r := MockRiskFactors(sender, receiver, amount, amountText, found);
      (!IsWellFormedAddress(sender) ==> r[0] == InvalidSenderFactor) &&
      (!IsWellFormedAddress(receiver) ==> r[if IsWellFormedAddress(sender) then 0 else 1] == InvalidReceiverFactor)
  {
  }

  /** The factors other than the keyword one do not start with its prefix. */
  lemma NotKeywordFactor(x: string)
    requires x == InvalidSenderFactor || x == InvalidReceiverFactor || x == RoundAmountFactor || (|x| > 0 && x[0] == 'L')
    ensures !StartsWith(x, KeywordFactorPrefix)
  {
    if x == RoundAmountFactor {
      assert x[11] != KeywordFactorPrefix[11];
    } else {
      assert x[0] != KeywordFactorPrefix[0];
    }
  }

  /** A keyword factor is present exactly when a keyword was found, and there is at most one. */
  lemma MockKeywordFactor(sender: string, receiver: string, amount: real, amountText: string,
                          found: seq<string>)
    ensures var r := MockRiskFactors(sender, receiver, amount, amountText, found);
      ((exists i | 0 <= i < |r| :: StartsWith(r[i], KeywordFactorPrefix)) <==> found != []) &&
      (forall i, j | 0 <= i < j < |r| :: !(StartsWith(r[i], KeywordFactorPrefix) && StartsWith(r[j], KeywordFactorPrefix)))
  {
    var a := if !IsWellFormedAddress(sender) then [InvalidSenderFactor] else [];
    var b := if !IsWellFormedAddress(receiver) then [InvalidReceiverFactor] else [];
    var c := if amount > 5.0 then ["Large transaction amount: " + amountText + " ETH"] else [];
    var d := if IsWhole(amount) then [RoundAmountFactor] else [];
    var e := if found != [] then [KeywordFactorPrefix + Join(found, ", ")] else [];
    var r := MockRiskFactors(sender, receiver, amount, amountText, found);
    var head := a + b + c + d;
    assert r == head + e;
    forall i | 0 <= i < |head| ensures !StartsWith(r[i], KeywordFactorPrefix) {
      assert r[i] == head[i] && head[i] in head;
      NotKeywordFactor(head[i]);
    }
    if found != [] {
      assert StartsWith(r[|head|], KeywordFactorPrefix);
    }
  }

  function FactorBullets(factors: seq<string>): (r: seq<string>)
    ensures |r| == |factors| && forall k | 0 <= k < |r| :: r[k] == "- " + factors[k]
  {
    seq(|factors|, k requires 0 <= k < |factors| => "- " + factors[k])
  }

  /** The lines of the first section after its title. */
  function AddressPart(sender: string, receiver: string): string {
    (if IsWellFormedAddress(sender) && IsWellFormedAddress(receiver) then "✓ Valid address formats"
     else "⚠ Invalid address format detected") + "\n"
    + (if !IsWellFormedAddress(sender) then "- Sender address format issues: " + sender else "") + "\n"
    + (if !IsWellFormedAddress(receiver) then "- Receiver address format issues: " + receiver else "") + "\n"
  }

  function AmountPart(amount: real, amountText: string): string {
    "2. Amount Analysis:\n- Amount: " + amountText + " ETH\n"
    + (if amount > 5.0 then "- ⚠ Unusually large transaction" else "- ✓ Within normal range") + "\n"
    + (if IsWhole(amount) then "- ⚠ Round number detected - common in fraud schemes" else "") + "\n"
  }

  function DescriptionPart(description: Option<string>, found: seq<string>): string {
    "3. Description Analysis:\n"
    + (if found != [] then "- ⚠ Suspicious elements detected: " + Join(found, ", ")
       else "- ✓ No suspicious keywords detected") + "\n"
    + "- Description: " + (if description.Some? && description.value != "" then description.value
                          else "No description provided") + "\n"
  }

  function RiskPart(scoreText: string, factors: seq<string>): string {
    "4. Overall Risk Assessment:\n- Risk Score: " + scoreText + "\n"
    + (if factors != [] then Join(FactorBullets(factors), "\n") else "- No significant risk factors identified.") + "\n"
  }

  function AdvicePart(recommendations: string): string {
    "5. Recommendations:\n" + recommendations + "\n"
  }

  const AddressTitle: string := "1. Address Analysis:"

  /** The mock's explanation: a leading newline, then five numbered sections separated by blank lines. */
  function MockExplanation(sender: string, receiver: string, amount: real, amountText: string,
                           description: Option<string>, scoreText: string, factors: seq<string>,
                           found: seq<string>, recommendations: string): string
  {
    "\n" + (AddressTitle + ("\n" + MockSections(sender, receiver, amount, amountText, description, scoreText,
                                                  factors, found, recommendations)))
  }

  /** The explanation after its title line: the address findings, then sections 2 to 5. */
  function MockSections(sender: string, receiver: string, amount: real, amountText: string,
                        description: Option<string>, scoreText: string, factors: seq<string>,
                        found: seq<string>, recommendations: string): (r: string)
    ensures |r| > 0 && (r[0] == '✓' || r[0] == '⚠')
  {
    AddressPart(sender, receiver)
    + ("\n" + (AmountPart(amount, amountText)
    + ("\n" + (DescriptionPart(description, found)
    + ("\n" + (RiskPart(scoreText, factors)
    + ("\n" + AdvicePart(recommendations))))))))
  }

  /** The complete mock answer for given inputs and draw. */
  function MockAnalysis(sender: string, receiver: string, amount: real, amountText: string,
                        description: Option<string>, draw: real, showScore: real -> string): Analysis
  {
    var found := FoundKeywords(description);
    var score := MockScore(sender, receiver, amount, found, draw);
    var factors := MockRiskFactors(sender, receiver, amount, amountText, found);
    Analysis(score,
             MockExplanation(sender, receiver, amount, amountText, description, showScore(score), factors,
                             found, Join(RecommendationLines(score, factors), "\n")),
             factors)
  }

  /** The explanation opens with a newline and the first numbered section's title line. */
  lemma MockExplanationOpening(sender: string, receiver: string, amount: real, amountText: string,
                               description: Option<string>, scoreText: string, factors: seq<string>,
                               found: seq<string>, recommendations: string)
    ensures var e := MockExplanation(sender, receiver, amount, amountText, description, scoreText, factors,
                                     found, recommendations);
      StartsWith(e, "\n" + AddressTitle + "\n")
  {
    var rest := MockSections(sender, receiver, amount, amountText, description, scoreText, factors, found,
                             recommendations);
    NestedPrefix("\n", AddressTitle, "\n", rest);
  }

  lemma NestedPrefix(a: string, b: string, c: string, rest: string)
    ensures a + b + c <= a + (b + (c + rest))
  {
    assert a + (b + (c + rest)) == (a + b + c) + rest;
  }

  /**
   * The scoring half of `_mock_analyze_transaction`: accumulates the score and the risk
   * factors check by check, scans the keywords, and caps the score.
   */
  method MockScoreAndFactors(sender: string, receiver: string, amount: real, amountText: string,
                             description: Option<string>, draw: real)
      returns (score: real, riskFactors: seq<string>, foundKeywords: seq<string>)
    ensures foundKeywords == FoundKeywords(description)
    ensures score == MockScore(sender, receiver, amount, foundKeywords, draw)
    ensures riskFactors == MockRiskFactors(sender, receiver, amount, amountText, foundKeywords)
  {
    var scoreBase := 0.1;
    riskFactors := [];
    scoreBase := scoreBase + draw;
    if !IsWellFormedAddress(sender) {
      riskFactors := riskFactors + [InvalidSenderFactor];
      scoreBase := scoreBase + 0.2;
    }
    ghost var factors := [] + (if !IsWellFormedAddress(sender) then [InvalidSenderFactor] else []);
    ghost var raw := 0.1 + draw + Indicator(!IsWellFormedAddress(sender), 0.2);
    assert riskFactors == factors && scoreBase == raw;
    if !IsWellFormedAddress(receiver) {
      riskFactors := riskFactors + [InvalidReceiverFactor];
      scoreBase := scoreBase + 0.2;
    }
    factors := factors + (if !IsWellFormedAddress(receiver) then [InvalidReceiverFactor] else []);
    raw := raw + Indicator(!IsWellFormedAddress(receiver), 0.2);
    assert riskFactors == factors && scoreBase == raw;
    if amount > 5.0 {
      riskFactors := riskFactors + ["Large transaction amount: " + amountText + " ETH"];
      scoreBase := scoreBase + 0.2;
    }
    factors := factors + (if amount > 5.0 then ["Large transaction amount: " + amountText + " ETH"] else []);
    raw := raw + Indicator(amount > 5.0, 0.2);
    assert riskFactors == factors && scoreBase == raw;
    if amount == amount.Floor as real {
      riskFactors := riskFactors + [RoundAmountFactor];
      scoreBase := scoreBase + 0.1;
    }
    factors := factors + (if IsWhole(amount) then [RoundAmountFactor] else []);
    raw := raw + Indicator(IsWhole(amount), 0.1);
    assert riskFactors == factors && scoreBase == raw;
    foundKeywords := [];
    if description.Some? && description.value != "" {
      foundKeywords, scoreBase := ScanKeywords(Lower(description.value), scoreBase);
    }
    if foundKeywords != [] {
      riskFactors := riskFactors + [KeywordFactorPrefix + Join(foundKeywords, ", ")];
    }
    raw := raw + 0.15 * |foundKeywords| as real;
    assert scoreBase == raw;
    factors := factors + (if foundKeywords != [] then [KeywordFactorPrefix + Join(foundKeywords, ", ")] else []);
    assert riskFactors == factors;
    MockRiskFactorsInCheckOrder(sender, receiver, amount, amountText, foundKeywords);
    score := if scoreBase <= 0.95 then scoreBase else 0.95;
  }

  /** The keyword loop: each listed keyword that occurs in the text, in order, adds 0.15. */
  method ScanKeywords(descriptionLower: string, scoreBase: real) returns (found: seq<string>, score: real)
    ensures found == KeywordsIn(descriptionLower, SuspiciousKeywords)
    ensures score == scoreBase + 0.15 * |found| as real
  {
    found := [];
    score := scoreBase;
    var i := 0;
    while i < |SuspiciousKeywords|
      invariant 0 <= i <= |SuspiciousKeywords|
      invariant found == KeywordsIn(descriptionLower, SuspiciousKeywords[..i])
      invariant score == scoreBase + 0.15 * |found| as real
    {
      var keyword := SuspiciousKeywords[i];
      assert SuspiciousKeywords[..i + 1][..i] == SuspiciousKeywords[..i];
      if Contains(descriptionLower, keyword) {
        found := found + [keyword];
        score := score + 0.15;
      }
      i := i + 1;
    }
    assert SuspiciousKeywords[..|SuspiciousKeywords|] == SuspiciousKeywords;
  }

  /** `_mock_analyze_transaction`: the score and factors, then the advice and the explanation. */
  method MockAnalyze(sender: string, receiver: string, amount: real, amountText: string,
                     description: Option<string>, draw: real, showScore: real -> string)
      returns (a: Analysis)
    ensures a == MockAnalysis(sender, receiver, amount, amountText, description, draw, showScore)
  {
    var score, riskFactors, foundKeywords := MockScoreAndFactors(sender, receiver, amount, amountText, description, draw);
    var recommendations := GenerateRecommendations(score, riskFactors);
    var explanation := MockExplanation(sender, receiver, amount, amountText, description, showScore(score),
                                       riskFactors, foundKeywords, recommendations);
    a := Analysis(score, explanation, riskFactors);
  }

  // ---------------------------------------------------------------- recommendations

  const SafeAdvice: string := "Transaction appears safe. Standard precautions apply."
  const Preamble: string := "Before proceeding with this transaction:"
  const SenderAdvice: string := "• Verify the sender's address format and checksum"
  const ReceiverAdvice: string := "• Double-check the recipient's address"
  const AmountAdvice: seq<string> :=
    ["• Consider splitting into smaller transactions",
     "• Verify the amount with the recipient through a separate channel"]
  const KeywordAdvice: seq<string> :=
    ["• Be cautious of urgent or pressure tactics",
     "• Verify the transaction purpose through trusted channels"]
  const HighRiskBlock: seq<string> :=
    ["\nHIGH RISK ALERT:",
     "• Strongly recommended to delay this transaction",
     "• Contact your security team or blockchain advisor",
     "• Consider reporting to relevant authorities"]

  /**
   * `phrase in str(factors)`. The phrases tested this way hold only letters and spaces, which
   * the list's printed form neither adds nor escapes, so the test is "some factor contains it".
   */
  predicate Mentions(factors: seq<string>, phrase: string) {
    exists i | 0 <= i < |factors| :: Contains(factors[i], phrase)
  }

  /** `any(word in str(f).lower() for f in factors)`. */
  predicate MentionsLowered(factors: seq<string>, word: string) {
    exists i | 0 <= i < |factors| :: Contains(Lower(factors[i]), word)
  }

  /**
   * The lines of the advice: below 0.3 only the all-clear line; otherwise the preamble, the
   * advice each trigger calls for, and the high-risk block when the score is above 0.7.
   */
  function RecommendationLines(score: real, factors: seq<string>): (lines: seq<string>)
    ensures score < 0.3 ==> lines == [SafeAdvice]
    ensures score >= 0.3 ==> |lines| >= 1 && lines[0] == Preamble
  {
    AdviceLines(score, Mentions(factors, "Invalid sender address"), Mentions(factors, "Invalid receiver address"),
                MentionsLowered(factors, "amount"), MentionsLowered(factors, "keyword"))
  }

  /** The advice for a score and the four triggers. */
  function AdviceLines(score: real, badSender: bool, badReceiver: bool, amount: bool, keyword: bool): (lines: seq<string>)
    ensures score < 0.3 ==> lines == [SafeAdvice]
    ensures score >= 0.3 ==> |lines| >= 1 && lines[0] == Preamble
  {
    if score < 0.3 then [SafeAdvice]
    else
      [Preamble]
      + (if badSender then [SenderAdvice] else [])
      + (if badReceiver then [ReceiverAdvice] else [])
      + (if amount then AmountAdvice else [])
      + (if keyword then KeywordAdvice else [])
      + (if score > 0.7 then HighRiskBlock else [])
  }

  /** From 0.3 on, the sender and receiver advice appear exactly when their triggers hold. */
  lemma AddressAdvice(score: real, badSender: bool, badReceiver: bool, amount: bool, keyword: bool)
    requires score >= 0.3
    ensures var lines := AdviceLines(score, badSender, badReceiver, amount, keyword);
      (SenderAdvice in lines <==> badSender) && (ReceiverAdvice in lines <==> badReceiver)
  {
    AdviceLinesDiffer();
  }

  /** From 0.3 on, the amount and keyword advice appear exactly when their triggers hold. */
  lemma AmountAndKeywordAdvice(score: real, badSender: bool, badReceiver: bool, amount: bool, keyword: bool)
    requires score >= 0.3
    ensures var lines := AdviceLines(score, badSender, badReceiver, amount, keyword);
      (AmountAdvice[0] in lines <==> amount) && (KeywordAdvice[0] in lines <==> keyword)
  {
    AdviceLinesDiffer();
  }

  /** The high-risk block appears exactly when the score is above 0.7, and then it comes last. */
  lemma HighRiskAdvice(score: real, badSender: bool, badReceiver: bool, amount: bool, keyword: bool)
    ensures var lines := AdviceLines(score, badSender, badReceiver, amount, keyword);
      (HighRiskBlock[0] in lines <==> score > 0.7) &&
      (score > 0.7 ==> |lines| >= 5 && lines[|lines| - 4..] == HighRiskBlock)
  {
    var lines := AdviceLines(score, badSender, badReceiver, amount, keyword);
    AdviceLinesDiffer();
    if score > 0.7 {
      assert lines[|lines| - 4..] == HighRiskBlock;
    }
  }

  /**
   * The advice of `generate_recommendations` for given factors: each piece appears exactly
   * when its trigger is among the factors, and the high-risk block, last, exactly above 0.7.
   */
  lemma RecommendationFacts(score: real, factors: seq<string>)
    ensures var lines := RecommendationLines(score, factors);
      (score >= 0.3 ==> (SenderAdvice in lines <==> Mentions(factors, "Invalid sender address"))) &&
      (score >= 0.3 ==> (ReceiverAdvice in lines <==> Mentions(factors, "Invalid receiver address"))) &&
      (score >= 0.3 ==> (AmountAdvice[0] in lines <==> MentionsLowered(factors, "amount"))) &&
      (score >= 0.3 ==> (KeywordAdvice[0] in lines <==> MentionsLowered(factors, "keyword"))) &&
      (HighRiskBlock[0] in lines <==> score > 0.7) &&
      (score > 0.7 ==> |lines| >= 5 && lines[|lines| - 4..] == HighRiskBlock)
  {
    var s, r := Mentions(factors, "Invalid sender address"), Mentions(factors, "Invalid receiver address");
    var a, k := MentionsLowered(factors, "amount"), MentionsLowered(factors, "keyword");
    if score >= 0.3 {
      AddressAdvice(score, s, r, a, k);
      AmountAndKeywordAdvice(score, s, r, a, k);
    }
    HighRiskAdvice(score, s, r, a, k);
  }

  /** The advice lines have pairwise different lengths, so they are pairwise different. */
  lemma AdviceLinesDiffer()
    ensures SenderAdvice !in [Preamble, ReceiverAdvice, SafeAdvice] + AmountAdvice + KeywordAdvice + HighRiskBlock
    ensures ReceiverAdvice !in [Preamble, SenderAdvice, SafeAdvice] + AmountAdvice + KeywordAdvice + HighRiskBlock
    ensures AmountAdvice[0] !in [Preamble, SenderAdvice, ReceiverAdvice, SafeAdvice, AmountAdvice[1]] + KeywordAdvice + HighRiskBlock
    ensures KeywordAdvice[0] !in [Preamble, SenderAdvice, ReceiverAdvice, SafeAdvice, KeywordAdvice[1]] + AmountAdvice + HighRiskBlock
    ensures HighRiskBlock[0] !in [Preamble, SenderAdvice, ReceiverAdvice, SafeAdvice] + AmountAdvice + KeywordAdvice + HighRiskBlock[1..]
  {
  }

  /** Below 0.3 the advice is exactly the all-clear sentence, whatever the factors. */
  lemma LowScoreAdvice(score: real, factors: seq<string>)
    requires score < 0.3
    ensures Join(RecommendationLines(score, factors), "\n") == SafeAdvice
  {
  }

  /** `generate_recommendations`: appends the advice line by line and joins with newlines. */
  method GenerateRecommendations(score: real, riskFactors: seq<string>) returns (text: string)
    ensures text == Join(RecommendationLines(score, riskFactors), "\n")
  {
    if score < 0.3 {
      return SafeAdvice;
    }
    var badSender := Mentions(riskFactors, "Invalid sender address");
    var badReceiver := Mentions(riskFactors, "Invalid receiver address");
    var amountFlagged := MentionsLowered(riskFactors, "amount");
    var keywordFlagged := MentionsLowered(riskFactors, "keyword");
    var recommendations := CollectAdvice(score, badSender, badReceiver, amountFlagged, keywordFlagged);
    text := Join(recommendations, "\n");
  }

  /** The appends of `generate_recommendations` once the score is 0.3 or more, given its four tests. */
  method CollectAdvice(score: real, badSender: bool, badReceiver: bool, amountFlagged: bool, keywordFlagged: bool)
      returns (recommendations: seq<string>)
    requires score >= 0.3
    ensures recommendations == AdviceLines(score, badSender, badReceiver, amountFlagged, keywordFlagged)
  {
    recommendations := [Preamble];
    if badSender {
      recommendations := recommendations + [SenderAdvice];
    }
    ghost var expected := [Preamble] + (if badSender then [SenderAdvice] else []);
    assert recommendations == expected;
    if badReceiver {
      recommendations := recommendations + [ReceiverAdvice];
    }
    expected := expected + (if badReceiver then [ReceiverAdvice] else []);
    assert recommendations == expected;
    if amountFlagged {
      recommendations := recommendations + [AmountAdvice[0]];
      recommendations := recommendations + [AmountAdvice[1]];
    }
    expected := expected + (if amountFlagged then AmountAdvice else []);
    assert recommendations == expected;
    if keywordFlagged {
      recommendations := recommendations + [KeywordAdvice[0]];
      recommendations := recommendations + [KeywordAdvice[1]];
    }
    expected := expected + (if keywordFlagged then KeywordAdvice else []);
    assert recommendations == expected;
    if score > 0.7 {
      recommendations := recommendations + [HighRiskBlock[0]];
      recommendations := recommendations + [HighRiskBlock[1]];
      recommendations := recommendations + [HighRiskBlock[2]];
      recommendations := recommendations + [HighRiskBlock[3]];
    }
    expected := expected + (if score > 0.7 then HighRiskBlock else []);
    assert recommendations == expected;
  }

  // ---------------------------------------------------------------- parsing a model reply

  /** `max(0.0, min(1.0, score))`. */
  function ClampScore(score: real): (r: real)
    ensures 0.0 <= r <= 1.0
    ensures 0.0 <= score <= 1.0 ==> r == score
    ensures score < 0.0 ==> r == 0.0
    ensures score > 1.0 ==> r == 1.0
  {
    if score < 0.0 then 0.0 else if score > 1.0 then 1.0 else score
  }

  predicate IsBullet(c: char) {
    c == '•'
  }

  predicate IsDash(c: char) {
    c == '-'
  }

  /** A reply line is a risk factor when, trimmed, it starts with a bullet or a dash. */
  predicate IsFactorLine(line: string) {
    var t := Strip(line, IsPySpace);
    StartsWith(t, "•") || StartsWith(t, "-")
  }

  /** The factor text of a line: trimmed, leading bullets then leading dashes removed, trimmed again. */
  function FactorText(line: string): (r: string)
    ensures r != [] ==> !IsPySpace(r[0]) && !IsPySpace(r[|r| - 1])
  {
    Strip(Unmarked(line), IsPySpace)
  }

  /** A line trimmed, then without its leading bullets and then its leading dashes. */
  function Unmarked(line: string): string {
    LStrip(LStrip(Strip(line, IsPySpace), IsBullet), IsDash)
  }

  /** `f` of each element that satisfies `keep`, in order. */
  function KeepMap(xs: seq<string>, keep: string -> bool, f: string -> string): (r: seq<string>)
    ensures |r| <= |xs|
    decreases |xs|
  {
    if xs == [] then []
    else
      var init, last := xs[..|xs| - 1], xs[|xs| - 1];
      KeepMap(init, keep, f) + (if keep(last) then [f(last)] else [])
  }

  lemma KeepMapSnoc(xs: seq<string>, x: string, keep: string -> bool, f: string -> string)
    ensures KeepMap(xs + [x], keep, f) == KeepMap(xs, keep, f) + (if keep(x) then [f(x)] else [])
  {
    assert (xs + [x])[..|xs|] == xs;
  }

  /** Keeping distributes over concatenation, so the kept elements stay in their order. */
  lemma {:induction false} KeepMapAppend(a: seq<string>, b: seq<string>, keep: string -> bool, f: string -> string)
    ensures KeepMap(a + b, keep, f) == KeepMap(a, keep, f) + KeepMap(b, keep, f)
    decreases |b|
  {
    if b == [] {
      assert a + b == a;
    } else {
      var ab := a + b;
      assert ab[..|ab| - 1] == a + b[..|b| - 1];
      assert ab[|ab| - 1] == b[|b| - 1];
      KeepMapAppend(a, b[..|b| - 1], keep, f);
    }
  }

  /** Every kept result is `f` of a kept element, and nothing is kept when no element qualifies. */
  lemma {:induction false} KeepMapSource(xs: seq<string>, keep: string -> bool, f: string -> string)
    ensures forall y | y in KeepMap(xs, keep, f) :: exists x | x in xs :: keep(x) && y == f(x)
    ensures (forall i | 0 <= i < |xs| :: !keep(xs[i])) ==> KeepMap(xs, keep, f) == []
    decreases |xs|
  {
    if xs != [] {
      var init := xs[..|xs| - 1];
      KeepMapSource(init, keep, f);
      assert forall i | 0 <= i < |init| :: init[i] == xs[i];
      assert forall x | x in init :: x in xs;
    }
  }

  /** The factor texts of the factor lines, in order. */
  function FactorsOf(lines: seq<string>): seq<string> {
    KeepMap(lines, IsFactorLine, FactorText)
  }

  /** A single line yields its factor text exactly when it is a factor line. */
  lemma FactorsOfOneLine(line: string)
    ensures FactorsOf([line]) == if IsFactorLine(line) then [FactorText(line)] else []
  {
    assert [line][..0] == [];
  }

  /**
   * The factors of a reply are those of its first lines followed by those of the rest; each
   * is trimmed, and a reply without factor lines has none.
   */
  lemma FactorsOfFacts(lines: seq<string>, k: nat)
    requires k <= |lines|
    ensures FactorsOf(lines) == FactorsOf(lines[..k]) + FactorsOf(lines[k..])
    ensures forall f | f in FactorsOf(lines) :: f == [] || (!IsPySpace(f[0]) && !IsPySpace(f[|f| - 1]))
    ensures (forall i | 0 <= i < |lines| :: !IsFactorLine(lines[i])) ==> FactorsOf(lines) == []
  {
    assert lines == lines[..k] + lines[k..];
    KeepMapAppend(lines[..k], lines[k..], IsFactorLine, FactorText);
    KeepMapSource(lines, IsFactorLine, FactorText);
  }

  /** The loop of the extraction: walk the lines, keeping `f(line)` for every line that passes `keep`. */
  method KeepMapLoop(lines: seq<string>, keep: string -> bool, f: string -> string)
      returns (kept: seq<string>)
    ensures kept == KeepMap(lines, keep, f)
  {
    kept := [];
    var i := 0;
    while i < |lines|
      invariant 0 <= i <= |lines|
      invariant kept == KeepMap(lines[..i], keep, f)
    {
      var line := lines[i];
      assert lines[..i + 1] == lines[..i] + [line];
      KeepMapSnoc(lines[..i], line, keep, f);
      if keep(line) {
        kept := kept + [f(line)];
      }
      i := i + 1;
    }
    assert lines[..|lines|] == lines;
  }

  /** The risk factors of a reply: the factor text of every factor line, in order. */
  method ExtractRiskFactors(analysis: string) returns (riskFactors: seq<string>)
    ensures riskFactors == FactorsOf(Split(analysis, '\n'))
  {
    riskFactors := KeepMapLoop(Split(analysis, '\n'), IsFactorLine, FactorText);
  }

  // ---------------------------------------------------------------- entry point

  /** What the model chain produced: no answer from any model, or a reply text. */
  datatype GeminiReply = NoModelAnswered | Reply(text: string)

  /**
   * `analyze_transaction`. Without a key, without an answer or with an empty reply it returns
   * the mock. With a reply it parses the score and the factors, but the explanation template
   * calls a helper that is defined nowhere, so it raises and the handler returns the mock:
   * every path answers with the mock analysis.
   */
  method AnalyzeTransaction(geminiKey: string, reply: GeminiReply, scoreMatch: Option<real>,
                            sender: string, receiver: string, amount: real, amountText: string,
                            description: Option<string>, draw: real, showScore: real -> string)
      returns (a: Analysis)
    ensures a == MockAnalysis(sender, receiver, amount, amountText, description, draw, showScore)
  {
    if geminiKey == "" {
      a := MockAnalyze(sender, receiver, amount, amountText, description, draw, showScore);
      return;
    }
    if reply.NoModelAnswered? || reply.text == "" {
      a := MockAnalyze(sender, receiver, amount, amountText, description, draw, showScore);
      return;
    }
    var analysis := Strip(reply.text, IsPySpace);
    var score := ClampScore(if scoreMatch.Some? then scoreMatch.value else 0.5);
    var riskFactors := ExtractRiskFactors(analysis);
    // building the explanation raises (an undefined helper is called); the handler falls back
    a := MockAnalyze(sender, receiver, amount, amountText, description, draw, showScore);
  }
}
