# Transaction fraud detection — a Dafny model

This project models the core of a small transaction-fraud checker. A Next.js front end
submits a cryptocurrency transaction (sender, receiver, amount, description) to a Django
back end. The back end asks a language-model service for a risk analysis, falling back to a
built-in heuristic "mock" analysis. It derives a status label (`Clear`, `Suspicious`,
`Fraudulent`) from the score, stores the document in MongoDB and answers. The result page then
polls the status endpoint until the stored document appears and shows it on a verdict card.

The model has one module per core file, plus two shared modules:

- `ResultPage` (`result_page.dfy`) covers the result page's polling effect.
  - It is a state machine (`PollState`) with one step function per event: effect start,
    fetch resolution, timer, cleanup.
  - The class `ResultPoller` holds the same state in fields. Its methods are proved to
    perform exactly those steps.
  - Traces of events (`Run`) give the retry, exhaustion and cleanup properties.
- `FraudStatus` (`fraud_status.dfy`) covers the verdict card's presentation rules. These are
  the badge colour, the score-bar band and the segmentation of an explanation into titled
  sections with tagged lines.
- `Views` (`views.dfy`) covers the three Django views.
  - The database is a class `Store` whose collection is a sequence of documents.
  - Submission, status lookup and health are functions of its state, with the submission
    and lookup methods proved against them.
- `GeminiService` (`gemini_service.dfy`) covers the analysis service.
  - The heuristic mock analysis has its keyword loop proved against a specification
    function.
  - `generate_recommendations` is modelled as a method built step by step.
  - It also covers the score clamp, the extraction of risk-factor lines (a loop) and
    `analyze_transaction`'s control flow.
- `TransactionForm` (`transaction_form.dfy`) covers the submission form.
  - The random-fill generators are functions of explicit random draws.
  - The submit handler's outcome is modelled, and the component is a class whose fields
    are its state hooks.
- `Text` and `Basics` hold the string and option helpers that the modules share.
- `Agreement` (`agreement.dfy`) relates the modules to each other:
  - the stored status and the card colours;
  - generated addresses and the mock's format check;
  - the mock's factors and its advice;
  - the mock's explanation and the card's section split.

Random numbers, the clock, uuids, the network, `parseFloat`, number-to-text rendering and the
score regular expression are parameters of the operations that use them.

## Model

| member | source | states |
|---|---|---|
| ResultPage.ClassifyResponse | src/app/result/page.tsx:45-80 | An unparsable body is a thrown error. With a parsed body, 503 and 404 are "not ready" whatever the JSON value, 2xx passes on the value (a record, a falsy value or any other value), and any other status is an error status. |
| ResultPage.OutcomeKindsPartition | src/app/result/page.tsx:49-80 | Every fetch outcome is exactly one of: success, not-ready (retried, not counted) or qualifying failure (counted). |
| ResultPage.NotReadyNeedsJsonBody | src/app/result/page.tsx:46-59 | Not-ready holds iff the body parsed and the status is 404 or 503. An unparsable body always counts as a failure. |
| ResultPage.StepsKeepInv | src/app/result/page.tsx:32-99 | Effect start, response, timer and cleanup each preserve the page invariant. The invariant bounds the retry count by MAX_RETRIES, allows at most one fetch or timer pending, keeps result and error empty while loading, and leaves nothing pending once loading ends. |
| ResultPage.NotReadySchedulesOneRetry | src/app/result/page.tsx:50-89 | A 503 or 404 leaves the count, loading, result and error unchanged. It sets exactly one timer when mounted and none after cleanup. |
| ResultPage.SuccessStops | src/app/result/page.tsx:61-89 | An ok response stores its JSON value as the result, ends loading and leaves no fetch or timer pending. |
| ResultPage.FailureCountsOrExhausts | src/app/result/page.tsx:69-99 | Below MAX_RETRIES, a counted failure adds one to the count. The changed dependency re-runs the effect, which fetches at once when mounted. At the limit, the page shows the exhaustion error and stops. |
| ResultPage.RunKeepsInv | src/app/result/page.tsx:32-99 | Any sequence of events preserves the invariant. |
| ResultPage.FetchesAreSequential | src/app/result/page.tsx:42-91 | One event starts at most one request. A new request starts only when none was awaited. |
| ResultPage.NotReadyRounds | src/app/result/page.tsx:83-89 | Each not-ready answer is followed by its timer, giving two events per answer. |
| ResultPage.RunAppend | src/app/result/page.tsx:32-99 | Running two event sequences one after the other equals running their concatenation. |
| ResultPage.NotReadyPollsForever | src/app/result/page.tsx:50-89 | Any number of 503/404 rounds polls once per round and changes nothing else: no count, no error, still loading. |
| ResultPage.FailureEvents | src/app/result/page.tsx:78-99 | Each counted failure is one response event. |
| ResultPage.FailuresBelowLimit | src/app/result/page.tsx:72-99 | Counted failures that stay within the limit raise the count by one each and keep the page loading and fetching. |
| ResultPage.ExhaustionAfterElevenFailures | src/app/result/page.tsx:72-78 | From the first run, ten counted failures leave the page polling with the count at ten. The eleventh ends in the exhaustion error, with eleven requests made in all. |
| ResultPage.FailureEventsAppend | src/app/result/page.tsx:78-99 | Appending one failure to the outcomes appends one response event. |
| ResultPage.NoRequestsAfterCleanup | src/app/result/page.tsx:43-98 | After cleanup, no event makes a request or sets a timer. |
| ResultPage.RunTwo | src/app/result/page.tsx:32-99 | Running a two-event trace applies the events in order. |
| ResultPage.LateResponseIsApplied | src/app/result/page.tsx:42-98 | A response that was already awaited at cleanup still sets the result and ends loading. |
| ResultPage.NotFoundTwiceThenRecord | src/app/result/page.tsx:56-89 | Two 404s and then the record: the page shows the record after three requests, with the count at zero and no error. |
| ResultPage.NoIdStops | src/app/result/page.tsx:33-37 | Without a usable id the page shows "No transaction ID provided", is not loading, makes no request, and no later event changes it. |
| ResultPage.NoIdRunIsStill | src/app/result/page.tsx:33-37 | A page with nothing mounted, pending or awaited stays as it is under any events. |
| ResultPage.FalsyBodyShowsFallback | src/app/result/page.tsx:61-120 | An ok answer with a falsy body (`null`) ends loading with no error and no result, so the page shows the fallback error text. |
| ResultPage.ViewOf | src/app/result/page.tsx:101-146 | A spinner iff loading, with the attempt line iff the count is positive. An error view iff not loading and there is a truthy error or a falsy result; it shows the error or the fallback text. Otherwise the verdict card for the stored value. |
| ResultPage.ResultPoller.constructor | src/app/result/page.tsx:25-28 | The first render: state as `Initial`, invariant established. |
| ResultPage.ResultPoller.Start | src/app/result/page.tsx:32-91 | The effect's run; state becomes `StartStep` of the old state and the invariant holds. |
| ResultPage.ResultPoller.OnResponse | src/app/result/page.tsx:42-89 | The awaited fetch's completion; state becomes `ResponseStep` of the old state and the invariant holds. |
| ResultPage.ResultPoller.OnTimer | src/app/result/page.tsx:83-89 | The timer fires; state becomes `TimerStep` of the old state and the invariant holds. |
| ResultPage.ResultPoller.Cancel | src/app/result/page.tsx:93-98 | The cleanup; state becomes `CancelStep` of the old state and the invariant holds. |
| FraudStatus.StatusColour | src/components/FraudStatus.tsx:42-53 | Green iff `Clear`, yellow iff `Suspicious`, red iff `Fraudulent`, gray for every other label. |
| FraudStatus.ScoreBand | src/components/FraudStatus.tsx:147-151 | Red iff the score is at least 0.8, yellow iff it is in [0.5, 0.8), otherwise green (also when no score is given). Never gray. |
| FraudStatus.TagOf | src/components/FraudStatus.tsx:77-81 | A warning iff the line holds ⚠; an affirmation iff it holds ✓ but not ⚠; neutral otherwise. |
| FraudStatus.Sections | src/components/FraudStatus.tsx:59 | The split yields at least one section. |
| FraudStatus.SectionsJoin | src/components/FraudStatus.tsx:59 | Joining the sections with newlines gives back the explanation. |
| FraudStatus.SectionsStartAtMarkers | src/components/FraudStatus.tsx:59 | Every section after the first starts with a numbered item marker (digits, a dot, whitespace). |
| FraudStatus.SectionsAreMaximal | src/components/FraudStatus.tsx:59 | No section contains a newline followed by an item marker, so no split point is missed. |
| FraudStatus.UnmarkedExplanationIsOneSection | src/components/FraudStatus.tsx:59 | An explanation with no newline followed by a marker is a single section. |
| FraudStatus.FirstRowFacts | src/components/FraudStatus.tsx:64-65 | The title row is a prefix of the section, holds no newline, and ends where the section ends or at a newline. |
| FraudStatus.ShownLineKeepsTag | src/components/FraudStatus.tsx:74-84 | Trimming a body line keeps it on one line. The tag the raw line gets is the tag of the trimmed text. |
| FraudStatus.FormatSection | src/components/FraudStatus.tsx:64-84 | The title is the section's first line. The body lines are the remaining lines in order, each trimmed and tagged. |
| FraudStatus.ShowLines | src/components/FraudStatus.tsx:74-84 | The shown rows correspond one to one, in order, to the raw rows. |
| FraudStatus.BodyLinesShowTheirTag | src/components/FraudStatus.tsx:74-84 | Every body line is a single line whose tag is that of its own text. |
| FraudStatus.FormatExplanation | src/components/FraudStatus.tsx:55-92 | An empty explanation renders nothing. Otherwise it renders one formatted section per split section, in order. |
| FraudStatus.SingleLineExplanation | src/components/FraudStatus.tsx:55-66 | A non-empty explanation without newlines is one section, titled with the whole text, with no body. |
| FraudStatus.TitleIsFirstLine | src/components/FraudStatus.tsx:64-65 | A section that starts with a newline-free line and a newline is titled with that line. |
| Views.DeriveStatus | backend/api/views.py:54 | `Clear` iff score < 0.5; `Suspicious` iff 0.5 <= score < 0.8; `Fraudulent` iff score >= 0.8. |
| Views.BuildDocument | backend/api/views.py:47-59 | The stored document has exactly its ten fields. They are the request's fields, the derived status and the score. The explanation defaults to "" and the risk factors to [] when the analysis lacks them. |
| Views.CleanResponse | backend/api/views.py:74-85 | The answer has the nine response fields, with no `_id` and no description. Each is copied from the document. |
| Views.ProcessResponse | backend/api/views.py:17-87 | 400 with the validation errors iff the request is invalid. 500 "Analysis error" with the message iff the analysis failed. Otherwise 200 with the cleaned document. |
| Views.ResponseStatusFollowsScore | backend/api/views.py:54-87 | The status a submission answers with is the one derived from the analysis score. |
| Views.Store.constructor | backend/api/views.py:62-64 | The connection and the collection are as given. |
| Views.ProcessTransaction | backend/api/views.py:17-87 | Answers with `ProcessResponse`. A valid, analysed submission is appended, with its `_id`, to a reachable collection unless the insert fails. Otherwise the store is unchanged. |
| Views.FindOne | backend/api/views.py:122 | None iff no document carries the id; otherwise a document that carries it. |
| Views.StatusResponse | backend/api/views.py:97-143 | 503 iff there is no connection or no collection, with the two distinct messages. 500 iff the query fails. 404 iff no document matches. Otherwise 200 with the first match minus `_id`. |
| Views.GetTransactionStatus | backend/api/views.py:97-143 | The endpoint answers with `StatusResponse` of the store's state. |
| Views.StoredTransactionIsFound | backend/api/views.py:48-136 | After a submission with a fresh id is stored, the status endpoint returns 200 with exactly the stored document, without its `_id`. |
| Views.ResponseEchoesDocument | backend/api/views.py:48-85 | The submission's answer agrees with the stored document on every field. It lacks only the description. |
| Views.FindOneAfterFresh | backend/api/views.py:122 | A document with a fresh id appended to the collection is the one `find_one` returns. |
| Views.HealthReport | backend/api/views.py:153-175 | `healthy` iff the database is connected and a key is configured, `degraded` otherwise. `gemini` reads `configured` iff there is a key. The mongodb object reports both flags. |
| GeminiService.KeywordsIn | backend/api/gemini_service.py:241-248 | At most as many keywords are found as there are keywords. |
| GeminiService.KeywordsInMembers | backend/api/gemini_service.py:243-247 | A word is found iff it is a keyword contained in the text. |
| GeminiService.KeywordsInOrder | backend/api/gemini_service.py:245-247 | The found keywords keep the keyword list's order. |
| GeminiService.KeywordsInDistinct | backend/api/gemini_service.py:245-247 | Distinct keywords are found at most once each. |
| GeminiService.SubsequenceOfPrefix | backend/api/gemini_service.py:245-247 | A subsequence of a list prefix is a subsequence of the extended list. |
| GeminiService.FoundKeywordsFacts | backend/api/gemini_service.py:241-248 | The mock's keywords are found in list order, without repeats, exactly when they appear in the lower-cased, non-empty description. |
| GeminiService.MockScoreBounds | backend/api/gemini_service.py:216-254 | With the random draw in [0, 0.3], the mock's score lies in [0.1, 0.95]. |
| GeminiService.MockRiskFactorsInCheckOrder | backend/api/gemini_service.py:222-251 | The factors are the five checks' contributions appended in the order the checks run. |
| GeminiService.MockRiskFactorsLast | backend/api/gemini_service.py:250-251 | The keyword factor, if any, comes after all the others. |
| GeminiService.LaterFactorsAreNotAddressFactors | backend/api/gemini_service.py:230-251 | No amount, round-number or keyword factor can be mistaken for an address factor. |
| GeminiService.MockAddressFactors | backend/api/gemini_service.py:222-228 | The sender (receiver) factor is present iff that address is not 42 characters starting with `0x`. |
| GeminiService.MockAddressFactorsOrder | backend/api/gemini_service.py:222-228 | The sender factor comes first; the receiver factor comes right after it, or first when the sender is fine. |
| GeminiService.NotKeywordFactor | backend/api/gemini_service.py:224-251 | No other factor starts with the keyword factor's prefix. |
| GeminiService.MockKeywordFactor | backend/api/gemini_service.py:250-251 | A keyword factor is present iff some keyword was found, and there is never more than one. |
| GeminiService.FactorBullets | backend/api/gemini_service.py:257-278 | One `- ` bullet per factor, in order. |
| GeminiService.MockSections | backend/api/gemini_service.py:258-278 | The text after the title line starts with the ✓ or ⚠ address verdict. |
| GeminiService.MockExplanationOpening | backend/api/gemini_service.py:257-259 | The explanation opens with a newline and the line `1. Address Analysis:`. |
| GeminiService.NestedPrefix | backend/api/gemini_service.py:257-259 | Three leading pieces form a prefix of the explanation however the rest is grouped. |
| GeminiService.MockScoreAndFactors | backend/api/gemini_service.py:213-254 | The checks, run step by step, give exactly `MockScore`, `MockRiskFactors` and `FoundKeywords`. |
| GeminiService.ScanKeywords | backend/api/gemini_service.py:241-248 | The keyword loop finds `KeywordsIn` the description. It adds 0.15 to the score for each keyword found. |
| GeminiService.MockAnalyze | backend/api/gemini_service.py:204-284 | The mock answers with the score, the explanation built from that score, the factors and the advice, and the factors themselves. |
| GeminiService.RecommendationLines | backend/api/gemini_service.py:179-202 | Below 0.3, only the all-clear line. Otherwise the preamble comes first. |
| GeminiService.AdviceLines | backend/api/gemini_service.py:183-200 | Below 0.3, only the all-clear line. Otherwise the preamble comes first. |
| GeminiService.AddressAdvice | backend/api/gemini_service.py:185-188 | From 0.3 up, the sender (receiver) line is present iff its flag is set. |
| GeminiService.AmountAndKeywordAdvice | backend/api/gemini_service.py:189-194 | From 0.3 up, each two-line amount (keyword) block is present iff its flag is set. |
| GeminiService.HighRiskAdvice | backend/api/gemini_service.py:196-200 | The high-risk block is present iff the score exceeds 0.7. |
| GeminiService.RecommendationFacts | backend/api/gemini_service.py:179-202 | Every advice block is present iff its trigger holds: a factor naming an invalid sender or receiver, a factor mentioning "amount" or "keyword", or a score above 0.7. |
| GeminiService.AdviceLinesDiffer | backend/api/gemini_service.py:181-200 | The advice lines are pairwise distinct, so a line's presence identifies its block. |
| GeminiService.LowScoreAdvice | backend/api/gemini_service.py:180-181 | Below 0.3, the advice text is exactly the all-clear sentence. |
| GeminiService.GenerateRecommendations | backend/api/gemini_service.py:179-202 | The text is `RecommendationLines` joined with newlines. |
| GeminiService.CollectAdvice | backend/api/gemini_service.py:183-200 | Appending the blocks one by one yields `AdviceLines`. |
| GeminiService.ClampScore | backend/api/gemini_service.py:114 | The result lies in [0, 1]. Scores inside are kept, scores below become 0 and scores above become 1. |
| GeminiService.FactorText | backend/api/gemini_service.py:120 | The extracted factor has no leading or trailing whitespace. |
| GeminiService.KeepMap | backend/api/gemini_service.py:117-120 | Filtering and mapping never lengthens the list. |
| GeminiService.KeepMapSnoc | backend/api/gemini_service.py:118-120 | One more line adds its factor iff it is kept. |
| GeminiService.KeepMapAppend | backend/api/gemini_service.py:118-120 | Extraction distributes over concatenated line lists. |
| GeminiService.KeepMapSource | backend/api/gemini_service.py:118-120 | Every extracted factor comes from some kept line. No kept line means no factors. |
| GeminiService.FactorsOfOneLine | backend/api/gemini_service.py:119-120 | A single line gives its factor iff it starts, after whitespace, with a bullet or a dash. |
| GeminiService.FactorsOfFacts | backend/api/gemini_service.py:117-120 | Extraction is compositional over any split of the lines. Every factor is trimmed, and a reply with no bullet or dash line gives no factors. |
| GeminiService.KeepMapLoop | backend/api/gemini_service.py:117-120 | The loop computes `KeepMap` of the lines. |
| GeminiService.ExtractRiskFactors | backend/api/gemini_service.py:116-120 | The factors are those of the reply's newline-split lines. |
| GeminiService.AnalyzeTransaction | backend/api/gemini_service.py:13-177 | Every path answers with the mock analysis of the same inputs: no key, no model answer, an empty reply, and also a parsed reply, whose explanation template raises and is caught. |
| Text.Lower | backend/api/gemini_service.py:244 | Lower-casing keeps the length. |
| Text.LowerAppend | backend/api/gemini_service.py:244 | Lower-casing distributes over concatenation. |
| Text.JoinHead | backend/api/gemini_service.py:251 | A join starts with its first part. With two or more parts, it is the first part, the separator and the join of the rest. |
| Text.JoinPrepend | src/components/FraudStatus.tsx:59 | Prepending a character to a join prepends it to the first part. |
| Text.SplitAt | src/components/FraudStatus.tsx:59 | Splitting yields at least one piece. |
| Text.CutsAtShift | src/components/FraudStatus.tsx:59 | A split point in the tail is a split point in the whole, shifted by one. |
| Text.SplitAtJoin | src/components/FraudStatus.tsx:59 | Joining the pieces with the separator gives back the text. |
| Text.SplitAtCutBefore | src/components/FraudStatus.tsx:59 | Every piece but the first begins at a split point. |
| Text.SplitAtCuts | src/components/FraudStatus.tsx:59 | Every piece but the first begins with text the split predicate accepts. |
| Text.SplitAtNoCutInside | src/components/FraudStatus.tsx:59 | No piece contains a split point. |
| Text.SplitAtMaximal | src/components/FraudStatus.tsx:59 | No piece can be split further. |
| Text.SplitAtUnique | src/components/FraudStatus.tsx:59 | A list of pieces that joins back to the text, begins at split points and contains none is the split itself. |
| Text.Split | src/components/FraudStatus.tsx:64 | Splitting on a character yields at least one piece, as JavaScript's and Python's `split` do. |
| Text.SplitJoinAndNoSeparator | backend/api/gemini_service.py:118 | Splitting on a character and joining back is the identity. No piece holds the separator. |
| Text.SplitWithoutSeparator | src/components/FraudStatus.tsx:64 | A text without the separator is one piece. |
| Text.SplitAtHead | src/components/FraudStatus.tsx:59-64 | A head without the separator ends up, whole, at the start of the first piece. |
| Text.LStrip | backend/api/gemini_service.py:120 | The result is a suffix of the input that starts with a character not stripped. Every character removed is one that is stripped. |
| Text.RStrip | backend/api/gemini_service.py:120 | The result is a prefix of the input that ends with a character not stripped. Every character removed is one that is stripped. |
| Text.Strip | backend/api/gemini_service.py:105 | The result is an infix of the input with no stripped character at either end. |
| Text.StripKeeps | src/components/FraudStatus.tsx:83 | Stripping adds no character and removes no character it does not strip. |
| Text.NatToString | src/components/TransactionForm.tsx:67 | The decimal text of a number is non-empty and all digits. |
| Text.NatToStringRoundTrip | src/components/TransactionForm.tsx:67 | Reading the decimal text back gives the number. |
| Text.NatToStringInjective | src/components/TransactionForm.tsx:67 | Different numbers have different decimal texts. |
| TransactionForm.BlankForm | src/components/TransactionForm.tsx:10-15 | The form starts with the four fields, all empty. |
| TransactionForm.Pick | src/components/TransactionForm.tsx:19-20 | Flooring a draw in [0,1) times n gives an index below n. |
| TransactionForm.HexDigit | src/components/TransactionForm.tsx:20 | A value below 16 renders as a lower-case hex digit. |
| TransactionForm.GenerateAddress | src/components/TransactionForm.tsx:19-20 | `0x` and then 40 lower-case hex digits, the k-th of which has the value of the k-th draw. |
| TransactionForm.AmountCents | src/components/TransactionForm.tsx:23 | The amount in hundredths lies between 10 and 1000. |
| TransactionForm.AmountText | src/components/TransactionForm.tsx:23 | The amount text is digits with a dot before the last two. |
| TransactionForm.AmountTextReadsBack | src/components/TransactionForm.tsx:23 | The amount text, read back, is the amount in hundredths. |
| TransactionForm.DescriptionOf | src/components/TransactionForm.tsx:26-41 | The description is one of the eight sample descriptions. |
| TransactionForm.RandomForm | src/components/TransactionForm.tsx:17-43 | The filled form has the four fields and two well-shaped addresses. Its description is one of the samples. |
| TransactionForm.RequestOf | src/components/TransactionForm.tsx:56-61 | The request carries the form's fields, with the amount parsed. |
| TransactionForm.SubmitEffect | src/components/TransactionForm.tsx:64-74 | Navigation iff the answer is ok, to `/result?id=` and the id. A non-ok answer shows a non-empty string `detail`, "[object Object]" for an object `detail` (the backend's validation-error map), and otherwise the HTTP status message. A thrown error shows its message or the fallback. |
| TransactionForm.HttpErrorMessageNamesStatus | src/components/TransactionForm.tsx:67 | Two status messages are equal iff the statuses are equal. |
| TransactionForm.NavigationCarriesId | src/components/TransactionForm.tsx:71 | An ok answer with an id navigates to that id's result page. |
| TransactionForm.InputStep | src/components/TransactionForm.tsx:80-85 | Only the named field changes, to the typed value. Every other field and the rest of the state are kept. |
| TransactionForm.BeginStep | src/components/TransactionForm.tsx:46-48 | Submission turns loading on and clears the error; nothing else changes. |
| TransactionForm.FinishStep | src/components/TransactionForm.tsx:64-77 | Loading ends and the form is kept. Navigation pushes one route and leaves no error. An error effect sets the message and pushes nothing. |
| TransactionForm.StepsKeepInv | src/components/TransactionForm.tsx:45-85 | Typing, starting and finishing a submission keep the four fields present. |
| TransactionForm.SubmissionOutcome | src/components/TransactionForm.tsx:45-78 | After a whole submission, loading is off. The error is clear, and exactly one route is pushed, iff the answer was ok. |
| TransactionForm.SubmitForm.constructor | src/components/TransactionForm.tsx:7-15 | The initial state: not loading, no error, blank form, no route pushed. |
| TransactionForm.SubmitForm.HandleInputChange | src/components/TransactionForm.tsx:80-85 | The state becomes `InputStep` of the old state. |
| TransactionForm.SubmitForm.FillRandom | src/components/TransactionForm.tsx:17-43 | The form data becomes the randomly filled form. |
| TransactionForm.SubmitForm.BeginSubmit | src/components/TransactionForm.tsx:45-61 | The state becomes `BeginStep`, and the request built from the form is returned. |
| TransactionForm.SubmitForm.FinishSubmit | src/components/TransactionForm.tsx:64-77 | The state becomes `FinishStep` of the old state for the fetch's outcome. |
| Agreement.BadgeMatchesScoreBar | backend/api/views.py:54 | The badge colour of the stored status equals the score bar's colour for every score. |
| Agreement.RejectedRequestShowsObjectText | backend/api/views.py:22-27 | The backend answers a rejected request with 400 and an object `detail`; the form then shows "[object Object]". |
| Agreement.GeneratedAddressIsWellFormed | src/components/TransactionForm.tsx:19-20 | A generated address passes the mock's 42-characters-and-`0x` check. |
| Agreement.RandomFormHasNoAddressFactors | src/components/TransactionForm.tsx:37-42 | A randomly filled form never draws an invalid-address factor from the mock. |
| Agreement.MalformedSenderIsAdvised | backend/api/gemini_service.py:223-225 | A malformed sender always gets the sender advice line, because its weight lifts any score over 0.3 and its factor names the address. |
| Agreement.OpeningSections | src/components/FraudStatus.tsx:59-65 | An explanation that opens with a newline and a numbered title line gives an empty first section and then a section with that title. |
| Agreement.AddressTitleIsItemMarker | backend/api/gemini_service.py:258 | `1. Address Analysis:` starts with an item marker. |
| Agreement.MockExplanationSections | backend/api/gemini_service.py:257-259 | The mock's explanation, split by `formatExplanation`, gives an empty section and then the section titled `1. Address Analysis:`. |

## Left out

- Rendering is not modelled: JSX, styling, animation and the Markdown renderer. Only the data
  each view is built from is modelled.
- `formatExplanation` (src/components/FraudStatus.tsx:55-92) is defined but not called. The
  card renders the explanation with its Markdown renderer (:196-206). The function is modelled
  as written.
- The network, JSON (de)serialisation, `fetch` and its transport failures are not modelled.
  Each request's result is an input: `FetchOutcome`, `PostOutcome`, `GeminiReply`, and the
  `insertFails` and `queryError` parameters.
- Timers are events; the one-second polling interval is not modelled, since there is no clock.
- A change of the `id` query parameter while the result page is mounted is not modelled; the
  page's id is fixed for its lifetime.
- The console and logger output is not modelled.
- The random draws (`Math.random`, `random.uniform`), the clock (`datetime.now`) and
  `uuid4` are parameters.
- Number-to-text rendering is a parameter or a given string: Python's `str(float)` in the mock's texts
  (`amountText`, `showScore`) and JavaScript's `toFixed(2)`. `AmountText` renders the
  hundredths exactly, where `toFixed` rounds the binary double.
- TransactionForm.RequestOf: `parseFloat` is a parameter; its parsing rules are not modelled.
- Lower-casing (`Text.Lower`) maps ASCII letters only; Unicode case folding is not
  modelled.
- The model chain of the language-model client (listing, picking and configuring the
  models, gemini_service.py:27-98) is one input, `GeminiReply`.
- The score regular expression (gemini_service.py:110-111) is a parameter, `scoreMatch`.
- The analysis template that follows (:123-167) calls helpers defined nowhere, so it always
  raises. The model takes the handler at :175-177, which returns the mock.
- The catch-all `except` handlers are not modelled: views.py:89-94 and :145-150, and the
  health check's failure answer at :177-185. They answer only exceptions the model does not
  produce.
- Views.ProcessTransaction: request validation (serializers.py and models.py) is not part of
  this model. A request arrives already valid or with its error map.
- mongodb.py is not part of this model; the database is the `Store` class. urls.py,
  TestBackendButton.tsx and the other pages are outside the core.
- ResultPage.ExhaustionAfterElevenFailures states the page's behaviour: the exhaustion
  error comes only on the eleventh counted failure. The check `retryCount >= MAX_RETRIES` runs
  before the increment, so ten failures are retried, not "at most ten attempts".
- ResultPage.LateResponseIsApplied: cleanup does not abort an awaited fetch, so its result
  is still applied after unmounting. The model keeps this behaviour.
- GeminiService.AnalyzeTransaction: every path returns the mock analysis. This follows the
  code, not a design in which a model reply's score and factors reach the caller.
- TransactionForm.SubmitEffect: a `detail` that is a number, a boolean or an array is not
  modelled; `Detail` tells apart only absent, string and object values.
- ResultPage.ViewOf: for an ok body that is truthy but not a transaction record, the page
  renders the card with missing fields; the model stops at `Verdict(OtherValue)`.
