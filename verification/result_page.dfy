/**
 * The result page's polling loop (src/app/result/page.tsx). The page keeps four pieces of
 * React state (result, loading, error, retryCount); one run of its effect owns a `mounted`
 * flag, at most one pending timer and at most one awaited status fetch.
 *
 * Time, timers and the network are not modelled: a pending timer is a flag and its firing is
 * the `OnTimer` step; an awaited fetch is a flag and its completion is the `OnResponse` step,
 * which receives the already classified outcome. `fetches` counts the status requests issued.
 */
module ResultPage {
  import opened Basics
  import opened Text

  const MaxRetries: nat := 10

  const NoIdMessage: string := "No transaction ID provided"
  const ExhaustedMessage: string :=
    "Failed to fetch transaction result after multiple attempts. Please try again."
  const FallbackMessage: string := "Failed to fetch transaction result. Please try again."

  datatype TransactionRecord = TransactionRecord(
    id: string, sender: string, receiver: string, amount: real, status: string,
    score: real, explanation: string, riskFactors: Option<seq<string>>, timestamp: string)

  /**
   * A parsed JSON body, as far as the page tells values apart: a transaction record, a falsy
   * value (`null`, `false`, `0`, `""`), or any other value, such as the `{"error": ...}` object
   * the status endpoint sends with its 404 and 503 answers.
   */
  datatype Json = Record(record: TransactionRecord) | Falsy | OtherValue

  /** How one awaited status fetch ended, after `response.json()` and the status checks. */
  datatype FetchOutcome =
    | Fetched(data: Json)                  // an ok status with a JSON body
    | ServiceUnavailable                   // 503 with a JSON body
    | NotFound                             // 404 with a JSON body
    | ErrorStatus(code: int)               // another non-ok status with a JSON body
    | Thrown                               // the request rejected or the body was not JSON

  /**
   * Classifies a response. The body is parsed before the status is looked at, so a body that
   * is not JSON (`None`) makes even a 404 or a 503 a thrown failure. An ok answer passes on
   * whatever JSON value it carried.
   */
  function ClassifyResponse(status: int, body: Option<Json>): (o: FetchOutcome)
    ensures body.None? ==> o == Thrown
    ensures body.Some? && status == 503 ==> o == ServiceUnavailable
    ensures body.Some? && status == 404 ==> o == NotFound
    ensures body.Some? && 200 <= status < 300 ==> o == Fetched(body.value)
    ensures body.Some? && status != 503 && status != 404 && !(200 <= status < 300) ==> o == ErrorStatus(status)
  {
    if body.None? then Thrown
    else if status == 503 then ServiceUnavailable
    else if status == 404 then NotFound
    else if 200 <= status < 300 then Fetched(body.value)
    else ErrorStatus(status)
  }

  /** 503 and 404 mean "not ready yet": retried, never counted. */
  predicate IsNotReady(o: FetchOutcome) {
    o.ServiceUnavailable? || o.NotFound?
  }

  /** Everything that is neither success nor not-ready counts towards exhaustion. */
  predicate IsQualifyingFailure(o: FetchOutcome) {
    o.ErrorStatus? || o.Thrown?
  }

  lemma OutcomeKindsPartition(o: FetchOutcome)
    ensures o.Fetched? || IsNotReady(o) || IsQualifyingFailure(o)
    ensures !(o.Fetched? && IsNotReady(o)) && !(o.Fetched? && IsQualifyingFailure(o))
    ensures !(IsNotReady(o) && IsQualifyingFailure(o))
  {
  }

  /** Not-ready needs a parsed body with status 404 or 503; an unparsable body is a failure. */
  lemma NotReadyNeedsJsonBody(status: int, body: Option<Json>)
    ensures IsNotReady(ClassifyResponse(status, body)) <==> body.Some? && (status == 404 || status == 503)
    ensures body.None? ==> IsQualifyingFailure(ClassifyResponse(status, body))
  {
  }

  /** The id query parameter is usable when it is present and not empty. */
  predicate HasId(id: Option<string>) {
    id.Some? && id.value != ""
  }

  /** The page's state plus the state of the current run of its effect; `result` starts as `null`. */
  datatype PollState = PollState(
    transactionId: Option<string>,
    result: Json,
    loading: bool,
    error: Option<string>,
    retryCount: nat,
    started: bool,        // the effect has run
    mounted: bool,        // the effect's `mounted` flag
    timerPending: bool,   // a `setTimeout(poll, PollingInterval)` that has not fired or been cleared
    fetchInFlight: bool,  // a status fetch whose response has not been handled
    fetches: nat)         // status requests issued so far

  /** The first render, before the effect has run. */
  function Initial(id: Option<string>): PollState {
    PollState(id, Falsy, true, None, 0, false, false, false, false, 0)
  }

  /** What the page keeps true at every step. */
  predicate Inv(s: PollState) {
    && s.retryCount <= MaxRetries
    && (s.loading ==> s.result.Falsy? && s.error.None?)
    && !(s.timerPending && s.fetchInFlight)
    && (s.timerPending ==> s.mounted)
    && (s.mounted ==> s.started && HasId(s.transactionId))
    && (s.mounted && s.loading ==> s.timerPending || s.fetchInFlight)
    && (!s.loading ==> !s.timerPending && !s.fetchInFlight)
    && (!s.started ==> s == Initial(s.transactionId))
  }

  /**
   * The effect's first run. Without an id it reports the error and stops; otherwise it sets
   * `mounted` and calls `poll`, whose `fetchResult` passes the mounted check and fetches.
   */
  function StartStep(s: PollState): PollState
    requires !s.started
  {
    if !HasId(s.transactionId) then
      s.(error := Some(NoIdMessage), loading := false, started := true)
    else
      s.(started := true, mounted := true, fetchInFlight := true, fetches := s.fetches + 1)
  }

  /**
   * The awaited fetch resolves. `mounted` is not consulted here, only afterwards in `poll`,
   * so the outcome is applied even after cleanup. A counted failure calls `setRetryCount`;
   * `retryCount` is a dependency of the effect, so while it is mounted React runs its cleanup
   * (clearing the timer `poll` has just set) and runs it again, which fetches at once.
   */
  function ResponseStep(s: PollState, o: FetchOutcome): PollState
    requires s.fetchInFlight
  {
    var s := s.(fetchInFlight := false);
    if IsNotReady(o) then s.(timerPending := s.mounted)
    else if o.Fetched? then s.(result := o.data, loading := false)
    else if s.retryCount >= MaxRetries then s.(error := Some(ExhaustedMessage), loading := false)
    else if s.mounted then
      s.(retryCount := s.retryCount + 1, fetchInFlight := true, fetches := s.fetches + 1)
    else s.(retryCount := s.retryCount + 1)
  }

  /** The timer fires and `poll` runs again; `fetchResult` fetches only while mounted. */
  function TimerStep(s: PollState): PollState
    requires s.timerPending
  {
    s.(timerPending := false, fetchInFlight := s.mounted,
       fetches := if s.mounted then s.fetches + 1 else s.fetches)
  }

  /** The effect's cleanup: clear `mounted` and the pending timer. An awaited fetch is not aborted. */
  function CancelStep(s: PollState): PollState {
    s.(mounted := false, timerPending := false)
  }

  lemma StepsKeepInv(s: PollState, o: FetchOutcome)
    requires Inv(s)
    ensures !s.started ==> Inv(StartStep(s))
    ensures s.fetchInFlight ==> Inv(ResponseStep(s, o))
    ensures s.timerPending ==> Inv(TimerStep(s))
    ensures Inv(CancelStep(s))
  {
  }

  /** A 503 or 404 leaves the count and `loading` alone and, while mounted, sets exactly one timer. */
  lemma NotReadySchedulesOneRetry(s: PollState, o: FetchOutcome)
    requires Inv(s) && s.fetchInFlight && IsNotReady(o)
    ensures var t := ResponseStep(s, o);
      t.retryCount == s.retryCount && t.loading == s.loading && t.result == s.result &&
      t.error == s.error && !t.fetchInFlight && t.fetches == s.fetches &&
      t.timerPending == s.mounted
  {
  }

  /** An ok answer stores its data, ends loading and leaves nothing pending. */
  lemma SuccessStops(s: PollState, d: Json)
    requires Inv(s) && s.fetchInFlight
    ensures var t := ResponseStep(s, Fetched(d));
      t.result == d && !t.loading && !t.timerPending && !t.fetchInFlight &&
      t.retryCount == s.retryCount && t.fetches == s.fetches
  {
  }

  /**
   * A counted failure below the limit adds exactly one to the count and, while mounted,
   * fetches again at once; at the limit it reports exhaustion and stops.
   */
  lemma FailureCountsOrExhausts(s: PollState, o: FetchOutcome)
    requires Inv(s) && s.fetchInFlight && IsQualifyingFailure(o)
    ensures var t := ResponseStep(s, o);
      if s.retryCount < MaxRetries then
        t.retryCount == s.retryCount + 1 && t.loading == s.loading && !t.timerPending &&
        t.fetchInFlight == s.mounted && t.fetches == s.fetches + (if s.mounted then 1 else 0)
      else
        t.error == Some(ExhaustedMessage) && !t.loading && t.retryCount == MaxRetries &&
        !t.timerPending && !t.fetchInFlight && t.fetches == s.fetches
  {
  }

  /** An event the environment can deliver to the page. */
  datatype Event = Respond(outcome: FetchOutcome) | TimerFires | Unmount

  /** One event; a response with no fetch awaited, or a timer that is not pending, changes nothing. */
  function Apply(s: PollState, e: Event): PollState {
    match e
    case Respond(o) => if s.fetchInFlight then ResponseStep(s, o) else s
    case TimerFires => if s.timerPending then TimerStep(s) else s
    case Unmount => CancelStep(s)
  }

  function Run(s: PollState, events: seq<Event>): PollState
    decreases |events|
  {
    if events == [] then s else Run(Apply(s, events[0]), events[1..])
  }

  lemma {:induction false} RunKeepsInv(s: PollState, events: seq<Event>)
    requires Inv(s)
    ensures Inv(Run(s, events))
    decreases |events|
  {
    if events != [] {
      var o := if events[0].Respond? then events[0].outcome else Thrown;
      StepsKeepInv(s, o);
      RunKeepsInv(Apply(s, events[0]), events[1..]);
    }
  }

  /**
   * A request is issued only when none is awaited: every step adds at most one request, and
   * only once the previous one has been handled (a response) or none is pending (a timer).
   */
  lemma FetchesAreSequential(s: PollState, e: Event)
    requires Inv(s)
    ensures Apply(s, e).fetches <= s.fetches + 1
    ensures Apply(s, e).fetches == s.fetches + 1 ==>
      (e.Respond? && s.fetchInFlight) || (e.TimerFires? && !s.fetchInFlight)
  {
  }

  /** Each not-ready response followed by the firing of the timer it set. */
  function NotReadyRounds(outcomes: seq<FetchOutcome>): (events: seq<Event>)
    ensures |events| == 2 * |outcomes|
  {
    if outcomes == [] then [] else [Respond(outcomes[0]), TimerFires] + NotReadyRounds(outcomes[1..])
  }

  lemma RunAppend(s: PollState, a: seq<Event>, b: seq<Event>)
    ensures Run(s, a + b) == Run(Run(s, a), b)
    decreases |a|
  {
    if a == [] {
      assert a + b == b;
    } else {
      assert (a + b)[0] == a[0] && (a + b)[1..] == a[1..] + b;
      RunAppend(Apply(s, a[0]), a[1..], b);
    }
  }

  /**
   * While only 503s and 404s come back, the page keeps polling for ever: after each round the
   * same state returns, one request later, with the count still where it was.
   */
  lemma {:induction false} NotReadyPollsForever(s: PollState, outcomes: seq<FetchOutcome>)
    requires Inv(s) && s.mounted && s.loading && s.fetchInFlight
    requires forall k | 0 <= k < |outcomes| :: IsNotReady(outcomes[k])
    ensures Run(s, NotReadyRounds(outcomes)) == s.(fetches := s.fetches + |outcomes|)
    decreases |outcomes|
  {
    if outcomes != [] {
      var t := Apply(Apply(s, Respond(outcomes[0])), TimerFires);
      assert t == s.(fetches := s.fetches + 1);
      assert NotReadyRounds(outcomes) == [Respond(outcomes[0]), TimerFires] + NotReadyRounds(outcomes[1..]);
      RunAppend(s, [Respond(outcomes[0]), TimerFires], NotReadyRounds(outcomes[1..]));
      RunTwo(s, Respond(outcomes[0]), TimerFires);
      NotReadyPollsForever(t, outcomes[1..]);
    }
  }

  /** Counted failures, each answered at once by the restarted effect's fetch. */
  function FailureEvents(outcomes: seq<FetchOutcome>): (events: seq<Event>)
    ensures |events| == |outcomes|
  {
    if outcomes == [] then [] else [Respond(outcomes[0])] + FailureEvents(outcomes[1..])
  }

  /** Counted failures while below the limit raise the count by one each and keep polling. */
  lemma {:induction false} FailuresBelowLimit(s: PollState, outcomes: seq<FetchOutcome>)
    requires Inv(s) && s.mounted && s.loading && s.fetchInFlight
    requires forall k | 0 <= k < |outcomes| :: IsQualifyingFailure(outcomes[k])
    requires s.retryCount + |outcomes| <= MaxRetries
    ensures Run(s, FailureEvents(outcomes)) ==
      s.(retryCount := s.retryCount + |outcomes|, fetches := s.fetches + |outcomes|)
    decreases |outcomes|
  {
    if outcomes != [] {
      var t := Apply(s, Respond(outcomes[0]));
      assert t == s.(retryCount := s.retryCount + 1, fetches := s.fetches + 1);
      FailuresBelowLimit(t, outcomes[1..]);
    }
  }

  /**
   * From the page's first run, ten counted failures leave it polling with the count at ten;
   * the eleventh is seen while the count is already ten and ends in the exhaustion error.
   */
  lemma ExhaustionAfterElevenFailures(id: string, outcomes: seq<FetchOutcome>)
    requires id != ""
    requires |outcomes| == MaxRetries + 1
    requires forall k | 0 <= k < |outcomes| :: IsQualifyingFailure(outcomes[k])
    ensures var s := StartStep(Initial(Some(id)));
      var polling := Run(s, FailureEvents(outcomes[..MaxRetries]));
      polling.loading && polling.retryCount == MaxRetries && polling.fetchInFlight &&
      var failed := Run(s, FailureEvents(outcomes));
      !failed.loading && failed.error == Some(ExhaustedMessage) && failed.result.Falsy? &&
      failed.retryCount == MaxRetries && !failed.fetchInFlight && !failed.timerPending &&
      failed.fetches == MaxRetries + 1
  {
    var s := StartStep(Initial(Some(id)));
    var first := outcomes[..MaxRetries];
    FailuresBelowLimit(s, first);
    assert outcomes == first + [outcomes[MaxRetries]];
    assert FailureEvents(outcomes) == FailureEvents(first) + [Respond(outcomes[MaxRetries])] by {
      FailureEventsAppend(first, outcomes[MaxRetries]);
    }
    RunAppend(s, FailureEvents(first), [Respond(outcomes[MaxRetries])]);
  }

  lemma {:induction false} FailureEventsAppend(outcomes: seq<FetchOutcome>, o: FetchOutcome)
    ensures FailureEvents(outcomes + [o]) == FailureEvents(outcomes) + [Respond(o)]
    decreases |outcomes|
  {
    if outcomes != [] {
      assert (outcomes + [o])[1..] == outcomes[1..] + [o];
      FailureEventsAppend(outcomes[1..], o);
    }
  }

  /**
   * After cleanup nothing is requested and no timer is set, whatever arrives; the state
   * may still change, because a response already awaited is applied.
   */
  lemma {:induction false} NoRequestsAfterCleanup(s: PollState, events: seq<Event>)
    requires Inv(s) && !s.mounted
    ensures var t := Run(s, events);
      t.fetches == s.fetches && !t.timerPending && !t.mounted
    decreases |events|
  {
    if events != [] {
      var o := if events[0].Respond? then events[0].outcome else Thrown;
      StepsKeepInv(s, o);
      NoRequestsAfterCleanup(Apply(s, events[0]), events[1..]);
    }
  }

  lemma RunTwo(s: PollState, e1: Event, e2: Event)
    ensures Run(s, [e1, e2]) == Apply(Apply(s, e1), e2)
  {
    assert [e1, e2][1..] == [e2];
    assert [e2][1..] == [];
    var t := Apply(Apply(s, e1), e2);
    assert Run(t, []) == t;
    assert Run(Apply(s, e1), [e2]) == Run(t, []);
  }

  /** A response that was awaited when the page was cleaned up still sets the result. */
  lemma LateResponseIsApplied(id: string, r: TransactionRecord)
    requires id != ""
    ensures var t := Run(StartStep(Initial(Some(id))), [Unmount, Respond(Fetched(Record(r)))]);
      t.result == Record(r) && !t.loading && t.fetches == 1
  {
    RunTwo(StartStep(Initial(Some(id))), Unmount, Respond(Fetched(Record(r))));
  }

  /** Two 404s and then the record: the page shows it, with the count still zero. */
  lemma NotFoundTwiceThenRecord(id: string, r: TransactionRecord)
    requires id != ""
    ensures var t := Run(StartStep(Initial(Some(id))),
      [Respond(NotFound), TimerFires, Respond(NotFound), TimerFires, Respond(Fetched(Record(r)))]);
      t.result == Record(r) && !t.loading && t.retryCount == 0 && t.error.None? && t.fetches == 3
  {
    var s0 := StartStep(Initial(Some(id)));
    var round := [Respond(NotFound), TimerFires];
    var events := round + round + [Respond(Fetched(Record(r)))];
    assert [Respond(NotFound), TimerFires, Respond(NotFound), TimerFires, Respond(Fetched(Record(r)))] == events;
    RunAppend(s0, round + round, [Respond(Fetched(Record(r)))]);
    RunAppend(s0, round, round);
    RunTwo(s0, Respond(NotFound), TimerFires);
    var s1 := Apply(Apply(s0, Respond(NotFound)), TimerFires);
    RunTwo(s1, Respond(NotFound), TimerFires);
    var s2 := Apply(Apply(s1, Respond(NotFound)), TimerFires);
    assert [Respond(Fetched(Record(r)))][1..] == [];
    assert Run(s2, [Respond(Fetched(Record(r)))]) == Apply(s2, Respond(Fetched(Record(r))));
  }

  /**
   * Without a usable id the effect reports the error and returns before `mounted` is set:
   * no request is made, and no later event changes the page.
   */
  lemma NoIdStops(id: Option<string>, events: seq<Event>)
    requires !HasId(id)
    ensures var s := StartStep(Initial(id));
      s.error == Some(NoIdMessage) && !s.loading && s.fetches == 0 &&
      ViewOf(s) == ErrorView(NoIdMessage) && Run(s, events) == s
  {
    var s := StartStep(Initial(id));
    NoIdRunIsStill(s, events);
  }

  lemma {:induction false} NoIdRunIsStill(s: PollState, events: seq<Event>)
    requires !s.mounted && !s.timerPending && !s.fetchInFlight
    ensures Run(s, events) == s
    decreases |events|
  {
    if events != [] {
      assert Apply(s, events[0]) == s;
      NoIdRunIsStill(s, events[1..]);
    }
  }

  /**
   * An ok answer whose body is falsy (`null`, say) stores it as the result and ends loading,
   * so the page falls through to the error view with the fallback text.
   */
  lemma FalsyBodyShowsFallback(id: string)
    requires id != ""
    ensures var t := Run(StartStep(Initial(Some(id))), [Respond(Fetched(Falsy))]);
      !t.loading && t.error.None? && ViewOf(t) == ErrorView(FallbackMessage)
  {
    var s := StartStep(Initial(Some(id)));
    assert [Respond(Fetched(Falsy))][1..] == [];
    assert Run(s, [Respond(Fetched(Falsy))]) == Run(Apply(s, Respond(Fetched(Falsy))), []);
  }

  /** What the page renders. */
  datatype View = Spinner(attempt: Option<string>) | ErrorView(message: string) | Verdict(data: Json)

  /** An error string is shown only when it is truthy, that is, not empty. */
  predicate Truthy(e: Option<string>) {
    e.Some? && e.value != ""
  }

  /**
   * The spinner while loading (with "Attempt n of 10..." once a failure was counted); the
   * error view when there is an error or no result; otherwise the verdict.
   */
  function ViewOf(s: PollState): (v: View)
    ensures v.Spinner? <==> s.loading
    ensures v.Spinner? ==> (v.attempt.Some? <==> s.retryCount > 0)
    ensures v.ErrorView? <==> !s.loading && (Truthy(s.error) || s.result.Falsy?)
    ensures v.ErrorView? ==> v.message == (if Truthy(s.error) then s.error.value else FallbackMessage)
    ensures v.Verdict? <==> !s.loading && !Truthy(s.error) && !s.result.Falsy?
    ensures v.Verdict? ==> v.data == s.result
  {
    if s.loading then
      Spinner(if s.retryCount > 0
              then Some("Attempt " + NatToString(s.retryCount) + " of " + NatToString(MaxRetries) + "...")
              else None)
    else if Truthy(s.error) || s.result.Falsy? then
      ErrorView(if Truthy(s.error) then s.error.value else FallbackMessage)
    else Verdict(s.result)
  }

  /** The page's state; its methods are the effect, the fetch completion, the timer and the cleanup. */
  class ResultPoller {
    const transactionId: Option<string>
    var result: Json
    var loading: bool
    var error: Option<string>
    var retryCount: nat
    var started: bool
    var mounted: bool
    var timerPending: bool
    var fetchInFlight: bool
    var fetches: nat

    function State(): PollState
      reads this
    {
      PollState(transactionId, result, loading, error, retryCount, started, mounted,
                timerPending, fetchInFlight, fetches)
    }

    ghost predicate Valid()
      reads this
    {
      Inv(State())
    }

    constructor (id: Option<string>)
      ensures State() == Initial(id) && Valid()
    {
      transactionId := id;
      result, loading, error, retryCount := Falsy, true, None, 0;
      started, mounted, timerPending, fetchInFlight, fetches := false, false, false, false, 0;
    }

    /** The effect runs for the first time. */
    method Start()
      requires Valid() && !started
      modifies this
      ensures State() == StartStep(old(State())) && Valid()
    {
      started := true;
      if !HasId(transactionId) {
        error := Some(NoIdMessage);
        loading := false;
        return;
      }
      mounted := true;
      // poll() -> fetchResult(): mounted, so the request goes out
      fetchInFlight := true;
      fetches := fetches + 1;
    }

    /** The awaited status fetch resolves with outcome `o`. */
    method OnResponse(o: FetchOutcome)
      requires Valid() && fetchInFlight
      modifies this
      ensures State() == ResponseStep(old(State()), o) && Valid()
    {
      fetchInFlight := false;
      var shouldStop: bool;
      var countChanged := false;
      if o.ServiceUnavailable? || o.NotFound? {
        shouldStop := false;
      } else if o.Fetched? {
        result := o.data;
        loading := false;
        shouldStop := true;
      } else if retryCount >= MaxRetries {
        error := Some(ExhaustedMessage);
        loading := false;
        shouldStop := true;
      } else {
        retryCount := retryCount + 1;
        countChanged := true;
        shouldStop := false;
      }
      // back in poll()
      if !shouldStop && mounted {
        timerPending := true;
      }
      if countChanged && mounted {
        // retryCount is an effect dependency: cleanup of this run ...
        mounted := false;
        timerPending := false;
        // ... and the next run, whose poll() fetches at once
        mounted := true;
        fetchInFlight := true;
        fetches := fetches + 1;
      }
      StepsKeepInv(old(State()), o);
    }

    /** The pending timer fires and `poll` runs. */
    method OnTimer()
      requires Valid() && timerPending
      modifies this
      ensures State() == TimerStep(old(State())) && Valid()
    {
      timerPending := false;
      if mounted {
        fetchInFlight := true;
        fetches := fetches + 1;
      }
    }

    /** The effect's cleanup. */
    method Cancel()
      requires Valid()
      modifies this
      ensures State() == CancelStep(old(State())) && Valid()
    {
      mounted := false;
      timerPending := false;
    }
  }
}
