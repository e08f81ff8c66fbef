/**
 * The submission form (src/components/TransactionForm.tsx): the four text fields, the
 * single-field update on input, the random filler, and the outcome of a submission: the
 * loading flag, the error banner, and the navigation to the result page.
 *
 * The POST and the parsing of its JSON answer are not modelled; a submission ends in a
 * `PostOutcome` that says what the answer was. The random draws of the filler are parameters.
 */
module TransactionForm {
  import opened Basics
  import opened Text

  const FieldNames: set<string> := {"sender", "receiver", "amount", "description"}

  /** The form as first shown: the four fields, all empty. */
  function BlankForm(): (form: map<string, string>)
    ensures form.Keys == FieldNames
    ensures forall name | name in form :: form[name] == ""
  {
    map["sender" := "", "receiver" := "", "amount" := "", "description" := ""]
  }

  // ---------------------------------------------------------------- the random filler

  /** `Math.floor(draw * n)` for a draw of `Math.random()`. */
  function Pick(draw: real, n: nat): (k: nat)
    requires 0.0 <= draw < 1.0 && n > 0
    ensures k < n
  {
    var x := draw * n as real;
    assert x < n as real by {
      assert (1.0 - draw) * n as real > 0.0;
    }
    x.Floor as nat
  }

  predicate IsLowerHex(c: char) {
    '0' <= c <= '9' || 'a' <= c <= 'f'
  }

  /** `v.toString(16)` for a single hexadecimal digit: lower-case. */
  function HexDigit(v: nat): (c: char)
    requires v < 16
    ensures IsLowerHex(c)
  {
    if v < 10 then ('0' as int + v) as char else ('a' as int + v - 10) as char
  }

  function HexValue(c: char): nat {
    if '0' <= c <= '9' then c as int - '0' as int
    else if 'a' <= c <= 'f' then c as int - 'a' as int + 10
    else 0
  }

  /**
   * A random address: "0x" and forty lower-case hexadecimal digits, digit `k` being the
   * `k`-th draw scaled to 0..15.
   */
  function GenerateAddress(draws: seq<real>): (address: string)
    requires |draws| == 40 && forall k | 0 <= k < 40 :: 0.0 <= draws[k] < 1.0
    ensures |address| == 42 && StartsWith(address, "0x")
    ensures forall k | 2 <= k < 42 :: IsLowerHex(address[k]) && HexValue(address[k]) == Pick(draws[k - 2], 16)
  {
    "0x" + seq(40, k requires 0 <= k < 40 => HexDigit(Pick(draws[k], 16)))
  }

  /** `(Math.random() * 9.9 + 0.1)` rounded to cents, as `toFixed(2)` rounds it. */
  function AmountCents(draw: real): (cents: nat)
    requires 0.0 <= draw < 1.0
    ensures 10 <= cents <= 1000
  {
    ((draw * 9.9 + 0.1) * 100.0 + 0.5).Floor as nat
  }

  /** The amount with two decimals: the whole part, a point, and two digits of cents. */
  function AmountText(draw: real): (text: string)
    requires 0.0 <= draw < 1.0
    ensures |text| >= 4 && text[|text| - 3] == '.'
    ensures forall k | 0 <= k < |text| && k != |text| - 3 :: IsDigit(text[k])
  {
    var cents := AmountCents(draw);
    NatToString(cents / 100) + "." + [DigitChar(cents % 100 / 10), DigitChar(cents % 10)]
  }

  /** Reading the amount text back gives the rounded amount: whole part and cents. */
  lemma AmountTextReadsBack(draw: real)
    requires 0.0 <= draw < 1.0
    ensures var text := AmountText(draw);
      DigitsValue(text[..|text| - 3]) * 100 + DigitsValue(text[|text| - 2..]) == AmountCents(draw)
  {
    var cents := AmountCents(draw);
    var whole := NatToString(cents / 100);
    var text := AmountText(draw);
    assert text[..|text| - 3] == whole;
    NatToStringRoundTrip(cents / 100);
    var fraction := [DigitChar(cents % 100 / 10), DigitChar(cents % 10)];
    assert text[|text| - 2..] == fraction;
    assert fraction[..1] == [DigitChar(cents % 100 / 10)];
    assert [DigitChar(cents % 100 / 10)][..0] == [];
  }

  const Descriptions: seq<string> := [
    "Regular payment", "Monthly subscription", "Service fee", "Investment transfer",
    "Urgent payment required", "Quick transfer needed", "Business transaction", "Personal transfer"
  ]

  /** A random description is one of the eight samples. */
  function DescriptionOf(draw: real): (description: string)
    requires 0.0 <= draw < 1.0
    ensures description in Descriptions
  {
    Descriptions[Pick(draw, |Descriptions|)]
  }

  /** The form the filler sets: every field replaced. */
  function RandomForm(senderDraws: seq<real>, receiverDraws: seq<real>, amountDraw: real,
                      descriptionDraw: real): (form: map<string, string>)
    requires |senderDraws| == 40 && forall k | 0 <= k < 40 :: 0.0 <= senderDraws[k] < 1.0
    requires |receiverDraws| == 40 && forall k | 0 <= k < 40 :: 0.0 <= receiverDraws[k] < 1.0
    requires 0.0 <= amountDraw < 1.0 && 0.0 <= descriptionDraw < 1.0
    ensures form.Keys == FieldNames
    ensures |form["sender"]| == 42 && StartsWith(form["sender"], "0x")
    ensures |form["receiver"]| == 42 && StartsWith(form["receiver"], "0x")
    ensures form["description"] in Descriptions
  {
    map["sender" := GenerateAddress(senderDraws), "receiver" := GenerateAddress(receiverDraws),
        "amount" := AmountText(amountDraw), "description" := DescriptionOf(descriptionDraw)]
  }

  // ---------------------------------------------------------------- submission

  /** The JSON body of the POST; `parseFloat` is a parameter, `None` standing for NaN. */
  datatype Request = Request(sender: string, receiver: string, amount: Option<real>, description: string)

  function RequestOf(form: map<string, string>, parseAmount: string -> Option<real>): (r: Request)
    requires FieldNames <= form.Keys
    ensures r.sender == form["sender"] && r.receiver == form["receiver"]
    ensures r.amount == parseAmount(form["amount"]) && r.description == form["description"]
  {
    Request(form["sender"], form["receiver"], parseAmount(form["amount"]), form["description"])
  }

  /**
   * The `detail` member of an answer, as far as `data.detail || ...` and `new Error(...)`
   * tell values apart: absent (or `null`), a string, or an object such as the map of
   * validation errors the backend sends with a 400.
   */
  datatype Detail = NoDetail | Text(text: string) | Object

  /** `String(value)` of a plain object, the message `new Error` takes from it. */
  const ObjectText := "[object Object]"

  /**
   * How a submission ended: an answer whose JSON body was read (its status, its `detail`,
   * its `id` when present), or a thrown error (the POST failed or the body was not JSON),
   * with its message when it is an `Error`.
   */
  datatype PostOutcome =
    | Answered(status: nat, detail: Detail, id: Option<string>)
    | Thrown(message: Option<string>)

  predicate IsOk(status: nat) {
    200 <= status <= 299
  }

  /** What the page does once the answer is in: go to the result page or show an error. */
  datatype Effect = Navigate(path: string) | ShowError(message: string)

  const FallbackError := "Failed to submit transaction"

  function HttpErrorMessage(status: nat): string {
    "HTTP error! status: " + NatToString(status)
  }

  /** `${data.id}`: a missing id prints as "undefined". */
  function IdText(id: Option<string>): string {
    if id.Some? then id.value else "undefined"
  }

  /** `data.detail` is truthy: a non-empty string or an object. */
  predicate Truthy(detail: Detail) {
    detail.Object? || (detail.Text? && detail.text != "")
  }

  /** The message of `new Error(data.detail || fallback)` for a non-ok answer. */
  function DetailMessage(detail: Detail, status: nat): string {
    match detail
    case Object => ObjectText
    case Text(text) => if text != "" then text else HttpErrorMessage(status)
    case NoDetail => HttpErrorMessage(status)
  }

  /**
   * Only an ok answer navigates, to the result page of its id. A non-ok answer shows its
   * detail when that is a non-empty string, "[object Object]" when it is an object, and
   * otherwise names the status; a thrown error shows its own message, or the fallback.
   */
  function SubmitEffect(outcome: PostOutcome): (e: Effect)
    ensures e.Navigate? <==> outcome.Answered? && IsOk(outcome.status)
    ensures e.Navigate? ==> e.path == "/result?id=" + IdText(outcome.id)
    ensures outcome.Answered? && !IsOk(outcome.status) && outcome.detail.Text? && outcome.detail.text != "" ==>
      e.message == outcome.detail.text
    ensures outcome.Answered? && !IsOk(outcome.status) && outcome.detail.Object? ==>
      e.message == ObjectText
    ensures outcome.Answered? && !IsOk(outcome.status) && !Truthy(outcome.detail) ==>
      e.message == HttpErrorMessage(outcome.status)
    ensures outcome.Thrown? ==> e.message == outcome.message.GetOr(FallbackError)
  {
    match outcome
    case Answered(status, detail, id) =>
      if IsOk(status) then Navigate("/result?id=" + IdText(id))
      else ShowError(DetailMessage(detail, status))
    case Thrown(message) =>
      ShowError(message.GetOr(FallbackError))
  }

  /** The status message tells non-ok answers apart: different statuses, different messages. */
  lemma HttpErrorMessageNamesStatus(a: nat, b: nat)
    ensures HttpErrorMessage(a) == HttpErrorMessage(b) <==> a == b
  {
    var prefix := "HTTP error! status: ";
    if HttpErrorMessage(a) == HttpErrorMessage(b) {
      assert NatToString(a) == HttpErrorMessage(a)[|prefix|..];
      assert NatToString(b) == HttpErrorMessage(b)[|prefix|..];
      NatToStringInjective(a, b);
    }
  }

  /** The query of the result page names the id the answer carried. */
  lemma NavigationCarriesId(status: nat, detail: Detail, id: string)
    requires IsOk(status)
    ensures var e := SubmitEffect(Answered(status, detail, Some(id)));
      e.Navigate? && StartsWith(e.path, "/result?id=") && e.path[|"/result?id="|..] == id
  {
  }

  // ---------------------------------------------------------------- the component's state

  /** The component's state: its three state hooks and the routes pushed so far. */
  datatype FormState = FormState(isLoading: bool, error: Option<string>, formData: map<string, string>,
                                 pushed: seq<string>)

  function Initial(): FormState {
    FormState(false, None, BlankForm(), [])
  }

  /** The four fields are always present. */
  predicate Inv(s: FormState) {
    FieldNames <= s.formData.Keys
  }

  /** An input event: the named field takes the value, nothing else changes. */
  function InputStep(s: FormState, name: string, value: string): (t: FormState)
    ensures t.formData.Keys == s.formData.Keys + {name} && t.formData[name] == value
    ensures forall other | other in s.formData && other != name :: t.formData[other] == s.formData[other]
    ensures t.isLoading == s.isLoading && t.error == s.error && t.pushed == s.pushed
  {
    s.(formData := s.formData[name := value])
  }

  /** The filler replaces the whole form. */
  function FillStep(s: FormState, form: map<string, string>): FormState {
    s.(formData := form)
  }

  /** The submission starts: loading, and the error cleared. */
  function BeginStep(s: FormState): (t: FormState)
    ensures t.isLoading && t.error.None?
    ensures t.formData == s.formData && t.pushed == s.pushed
  {
    s.(isLoading := true, error := None)
  }

  /** The submission ends: the effect of the outcome, and loading off whatever it was. */
  function FinishStep(s: FormState, outcome: PostOutcome): (t: FormState)
    ensures !t.isLoading && t.formData == s.formData
    ensures SubmitEffect(outcome).Navigate? ==>
      t.pushed == s.pushed + [SubmitEffect(outcome).path] && t.error == s.error
    ensures SubmitEffect(outcome).ShowError? ==>
      t.pushed == s.pushed && t.error == Some(SubmitEffect(outcome).message)
  {
    match SubmitEffect(outcome)
    case Navigate(path) => s.(isLoading := false, pushed := s.pushed + [path])
    case ShowError(message) => s.(isLoading := false, error := Some(message))
  }

  lemma StepsKeepInv(s: FormState, name: string, value: string, outcome: PostOutcome)
    requires Inv(s)
    ensures Inv(InputStep(s, name, value)) && Inv(BeginStep(s)) && Inv(FinishStep(s, outcome))
  {
  }

  /**
   * A whole submission: afterwards loading is off; an ok answer leaves no error and adds
   * one route, any other outcome leaves an error and no route.
   */
  lemma SubmissionOutcome(s: FormState, outcome: PostOutcome)
    ensures var t := FinishStep(BeginStep(s), outcome);
      !t.isLoading && t.formData == s.formData &&
      (t.error.None? <==> outcome.Answered? && IsOk(outcome.status)) &&
      (|t.pushed| == |s.pushed| + 1 <==> outcome.Answered? && IsOk(outcome.status)) &&
      (|t.pushed| == |s.pushed| <==> !(outcome.Answered? && IsOk(outcome.status)))
  {
  }

  /** The component itself: the state hooks are its fields, the route history a sequence. */
  class SubmitForm {
    var isLoading: bool
    var error: Option<string>
    var formData: map<string, string>
    var pushed: seq<string>

    function State(): FormState
      reads this
    {
      FormState(isLoading, error, formData, pushed)
    }

    ghost predicate Valid()
      reads this
    {
      Inv(State())
    }

    constructor()
      ensures State() == Initial() && Valid()
    {
      isLoading := false;
      error := None;
      formData := BlankForm();
      pushed := [];
    }

    /** `handleInputChange`: a functional update of the one named field. */
    method HandleInputChange(name: string, value: string)
      requires Valid()
      modifies this
      ensures State() == InputStep(old(State()), name, value) && Valid()
    {
      formData := formData[name := value];
    }

    /** `generateRandomTransaction`: every field from the draws. */
    method FillRandom(senderDraws: seq<real>, receiverDraws: seq<real>, amountDraw: real, descriptionDraw: real)
      requires |senderDraws| == 40 && forall k | 0 <= k < 40 :: 0.0 <= senderDraws[k] < 1.0
      requires |receiverDraws| == 40 && forall k | 0 <= k < 40 :: 0.0 <= receiverDraws[k] < 1.0
      requires 0.0 <= amountDraw < 1.0 && 0.0 <= descriptionDraw < 1.0
      modifies this
      ensures State() == FillStep(old(State()), RandomForm(senderDraws, receiverDraws, amountDraw, descriptionDraw))
      ensures Valid()
    {
      formData := RandomForm(senderDraws, receiverDraws, amountDraw, descriptionDraw);
    }

    /** The start of `handleSubmit`: loading on, error cleared, and the body of the POST. */
    method BeginSubmit(parseAmount: string -> Option<real>) returns (request: Request)
      requires Valid()
      modifies this
      ensures State() == BeginStep(old(State())) && Valid()
      ensures request == RequestOf(formData, parseAmount)
    {
      isLoading := true;
      error := None;
      request := RequestOf(formData, parseAmount);
    }

    /** The rest of `handleSubmit`: the `try`, the `catch`, and the `finally`. */
    method FinishSubmit(outcome: PostOutcome)
      requires Valid()
      modifies this
      ensures State() == FinishStep(old(State()), outcome) && Valid()
    {
      match outcome {
        case Answered(status, detail, id) =>
          if !IsOk(status) {
            error := Some(DetailMessage(detail, status));
          } else {
            pushed := pushed + ["/result?id=" + IdText(id)];
          }
        case Thrown(message) =>
          error := Some(message.GetOr(FallbackError));
      }
      isLoading := false;
    }
  }
}
