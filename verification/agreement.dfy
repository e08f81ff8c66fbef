/**
 * How the parts fit together: the status the backend stores and the colours the card
 * draws from the score, the addresses the form generates and the format the mock checks,
 * the mock's own factors and advice, and the explanation the mock writes as
 * formatExplanation splits it into sections.
 */
module Agreement {
  import opened Basics
  import opened Text
  import FraudStatus
  import Views
  import GeminiService
  import TransactionForm

  /** The badge of the stored status and the score bar always show the same colour. */
  lemma BadgeMatchesScoreBar(score: real)
    ensures FraudStatus.StatusColour(Views.DeriveStatus(score)) == FraudStatus.ScoreBand(Some(score))
  {
  }

  /**
   * A request the backend rejects is answered with 400 and the serializer's error map as
   * `detail`; the form, handed that object, shows "[object Object]" rather than a message.
   */
  lemma RejectedRequestShowsObjectText(req: Views.ValidatedRequest, id: string,
                                       analysis: Result<Views.AnalysisDict>, now: string, answerId: Option<string>)
    requires req.Invalid?
    ensures var r := Views.ProcessResponse(req, id, analysis, now);
      r.code == 400 && "detail" in r.body && r.body["detail"].Obj? &&
      TransactionForm.SubmitEffect(TransactionForm.Answered(r.code, TransactionForm.Object, answerId)) ==
        TransactionForm.ShowError(TransactionForm.ObjectText)
  {
  }

  /** A generated address has the shape the mock accepts. */
  lemma GeneratedAddressIsWellFormed(draws: seq<real>)
    requires |draws| == 40 && forall k | 0 <= k < 40 :: 0.0 <= draws[k] < 1.0
    ensures GeminiService.IsWellFormedAddress(TransactionForm.GenerateAddress(draws))
  {
  }

  /** A randomly filled form never draws an address factor from the mock. */
  lemma RandomFormHasNoAddressFactors(senderDraws: seq<real>, receiverDraws: seq<real>, amountDraw: real,
                                      descriptionDraw: real, amount: real, found: seq<string>)
    requires |senderDraws| == 40 && forall k | 0 <= k < 40 :: 0.0 <= senderDraws[k] < 1.0
    requires |receiverDraws| == 40 && forall k | 0 <= k < 40 :: 0.0 <= receiverDraws[k] < 1.0
    requires 0.0 <= amountDraw < 1.0 && 0.0 <= descriptionDraw < 1.0
    ensures var form := TransactionForm.RandomForm(senderDraws, receiverDraws, amountDraw, descriptionDraw);
      var factors := GeminiService.MockRiskFactors(form["sender"], form["receiver"], amount, form["amount"], found);
      GeminiService.InvalidSenderFactor !in factors && GeminiService.InvalidReceiverFactor !in factors
  {
    var form := TransactionForm.RandomForm(senderDraws, receiverDraws, amountDraw, descriptionDraw);
    GeminiService.MockAddressFactors(form["sender"], form["receiver"], amount, form["amount"], found);
  }

  /**
   * The mock never leaves a malformed sender unadvised: the sender's weight alone lifts the
   * score to the advice threshold, and its factor names the sender address.
   */
  lemma MalformedSenderIsAdvised(sender: string, receiver: string, amount: real, amountText: string,
                                 found: seq<string>, draw: real)
    requires 0.0 <= draw <= 0.3
    requires !GeminiService.IsWellFormedAddress(sender)
    ensures var factors := GeminiService.MockRiskFactors(sender, receiver, amount, amountText, found);
      var score := GeminiService.MockScore(sender, receiver, amount, found, draw);
      GeminiService.SenderAdvice in GeminiService.RecommendationLines(score, factors)
  {
    var factors := GeminiService.MockRiskFactors(sender, receiver, amount, amountText, found);
    var score := GeminiService.MockScore(sender, receiver, amount, found, draw);
    GeminiService.MockAddressFactors(sender, receiver, amount, amountText, found);
    var i :| 0 <= i < |factors| && factors[i] == GeminiService.InvalidSenderFactor;
    assert GeminiService.InvalidSenderFactor[..|"Invalid sender address"|] == "Invalid sender address";
    assert IsAt(factors[i], "Invalid sender address", 0);
    GeminiService.RecommendationFacts(score, factors);
  }

  /**
   * An explanation that opens with a newline, a numbered title line and a line that does
   * not start with a digit is shown as an empty section and then a section with that title.
   */
  lemma OpeningSections(explanation: string, title: string, rest: string)
    requires explanation == "\n" + (title + ("\n" + rest))
    requires '\n' !in title && FraudStatus.StartsWithItemMarker(title + ("\n" + rest))
    requires rest == [] || !IsDigit(rest[0])
    ensures var sections := FraudStatus.Sections(explanation);
      |sections| >= 2 && sections[0] == "" && FraudStatus.FormatSection(sections[1]).title == title
  {
    var cut := FraudStatus.StartsWithItemMarker;
    var x := title + ("\n" + rest);
    assert ("\n" + x)[1..] == x;
    assert SplitAt("\n" + x, '\n', cut) == [""] + SplitAt(x, '\n', cut);
    SplitAtHead(title, "\n" + rest, '\n', cut);
    var line := "\n" + rest;
    assert line[1..] == rest;
    assert !cut(rest);
    var section := title + SplitAt(line, '\n', cut)[0];
    assert SplitAt(line, '\n', cut)[0] == "\n" + SplitAt(rest, '\n', cut)[0];
    assert section == title + "\n" + SplitAt(rest, '\n', cut)[0];
    FraudStatus.TitleIsFirstLine(section, title);
  }

  /** The mock's first title reads as an item marker, whatever follows it. */
  lemma AddressTitleIsItemMarker(rest: string)
    ensures FraudStatus.StartsWithItemMarker(GeminiService.AddressTitle + rest)
  {
    var t := GeminiService.AddressTitle + rest;
    assert t[0] == '1' && t[1] == '.' && t[2] == ' ';
    assert t[1..][1..][0] == ' ';
  }

  /**
   * formatExplanation splits the mock's explanation into an empty section (the leading
   * newline) and then a section titled "1. Address Analysis:".
   */
  lemma MockExplanationSections(sender: string, receiver: string, amount: real, amountText: string,
                                description: Option<string>, scoreText: string, factors: seq<string>,
                                found: seq<string>, recommendations: string)
    ensures var e := GeminiService.MockExplanation(sender, receiver, amount, amountText, description, scoreText,
                                                   factors, found, recommendations);
      var sections := FraudStatus.Sections(e);
      |sections| >= 2 && sections[0] == "" &&
      FraudStatus.FormatSection(sections[1]).title == GeminiService.AddressTitle
  {
    var rest := GeminiService.MockSections(sender, receiver, amount, amountText, description, scoreText,
                                           factors, found, recommendations);
    var e := GeminiService.MockExplanation(sender, receiver, amount, amountText, description, scoreText,
                                           factors, found, recommendations);
    AddressTitleIsItemMarker("\n" + rest);
    OpeningSections(e, GeminiService.AddressTitle, rest);
  }
}
