/** The dashboard service: `GET /api/dashboard` with two retries, the date mapping, and
    an error handler that falls back to the sample list for 404 and network errors
    (src/app/dashboard/dashboard.service.ts). */
module DashboardApi {
  import opened Wrappers
  import opened Http
  import opened DashboardData

  const Retries := 2
  const NotFound := 404
  /** The status Angular reports when no response arrived at all. */
  const NetworkFailure := 0
  const FetchErrorText := "Unable to fetch dashboard data. Please try again later."

  /** How the returned observable can fail: with the service's `Error`, or with the
      `TypeError` of reading a property of `undefined`. */
  datatype FetchError = ErrorMessage(message: string) | UndefinedReceiver

  predicate FallsBack(status: nat) {
    status == NotFound || status == NetworkFailure
  }

  /** `handleError` as intended: the sample list for 404 or a network failure, the fixed
      user-facing error for every other status. */
  function HandleError(response: HttpErrorResponse, now: int): (r: Result<seq<DashboardItem<int>>, FetchError>)
    ensures r.Ok? <==> FallsBack(response.status)
    ensures r.Ok? ==> r.value == MockData(now)
    ensures r.Err? ==> r.error == ErrorMessage(FetchErrorText)
  {
    if FallsBack(response.status) then Ok(MockData(now)) else Err(ErrorMessage(FetchErrorText))
  }

  /** `handleError` as it runs when passed unbound to `catchError`: `this` is undefined,
      so the fallback branch throws at `this.getMockData()`; the other branch does not
      use `this` and behaves as intended. */
  function HandleErrorAsWritten(response: HttpErrorResponse, now: int): (r: Result<seq<DashboardItem<int>>, FetchError>)
    ensures r.Err?
  {
    if FallsBack(response.status) then Err(UndefinedReceiver) else Err(ErrorMessage(FetchErrorText))
  }

  /** As written, a 404 or a network failure errors out instead of yielding the sample
      list; for every other status the two handlers agree. */
  lemma UnboundHandlerLosesFallback(response: HttpErrorResponse, now: int)
    ensures FallsBack(response.status) ==>
      HandleErrorAsWritten(response, now) == Err(UndefinedReceiver) && HandleError(response, now) == Ok(MockData(now))
    ensures !FallsBack(response.status) ==> HandleErrorAsWritten(response, now) == HandleError(response, now)
  {
  }

  /** A concrete case: a 404 with no body. */
  lemma NotFoundCounterexample(now: int)
    ensures HandleErrorAsWritten(HttpErrorResponse(404, NoMessage), now) != HandleError(HttpErrorResponse(404, NoMessage), now)
  {
    UnboundHandlerLosesFallback(HttpErrorResponse(404, NoMessage), now);
  }

  /** `retry(n)` from attempt `attempt` on, where `replyTo(j)` is the server's reply to
      attempt j: the attempt whose reply is delivered — the first success, or the last
      attempt allowed when every one fails. */
  function DeliveredAttempt<T>(replyTo: nat -> HttpReply<T>, attempt: nat, retriesLeft: nat): (k: nat)
    ensures attempt <= k <= attempt + retriesLeft
    ensures forall j :: attempt <= j < k ==> replyTo(j).Failure?
    ensures replyTo(k).Success? || k == attempt + retriesLeft
    decreases retriesLeft
  {
    if replyTo(attempt).Success? || retriesLeft == 0 then attempt
    else DeliveredAttempt(replyTo, attempt + 1, retriesLeft - 1)
  }

  /** Only the replies to the attempts from `attempt` to `attempt + retriesLeft` matter. */
  lemma {:induction false} DeliveredAttemptBounded<T>(f: nat -> HttpReply<T>, g: nat -> HttpReply<T>, attempt: nat, retriesLeft: nat)
    requires forall j :: attempt <= j <= attempt + retriesLeft ==> f(j) == g(j)
    ensures DeliveredAttempt(f, attempt, retriesLeft) == DeliveredAttempt(g, attempt, retriesLeft)
    decreases retriesLeft
  {
    if !(f(attempt).Success? || retriesLeft == 0) {
      DeliveredAttemptBounded(f, g, attempt + 1, retriesLeft - 1);
    }
  }

  /** `getDashboardData()` with the intended error handler: the first successful reply
      among attempts 0, 1 and 2, with its dates parsed; otherwise the error handler's
      answer for the third failure. */
  function GetDashboardData(replyTo: nat -> HttpReply<seq<DashboardItem<string>>>, parseDate: string -> int, now: int)
    : (r: Result<seq<DashboardItem<int>>, FetchError>)
    ensures forall j :: 0 <= j <= Retries && replyTo(j).Success? && (forall i :: 0 <= i < j ==> replyTo(i).Failure?) ==>
      r == Ok(WithDates(replyTo(j).body, parseDate))
    ensures (forall j :: 0 <= j <= Retries ==> replyTo(j).Failure?) ==> r == HandleError(replyTo(Retries).response, now)
  {
    var k := DeliveredAttempt(replyTo, 0, Retries);
    match replyTo(k)
    case Success(items) => Ok(WithDates(items, parseDate))
    case Failure(response) => HandleError(response, now)
  }

  /** At most three requests are made: replies to later attempts never matter. */
  lemma AtMostThreeAttempts(f: nat -> HttpReply<seq<DashboardItem<string>>>, g: nat -> HttpReply<seq<DashboardItem<string>>>,
                            parseDate: string -> int, now: int)
    requires forall j :: 0 <= j <= Retries ==> f(j) == g(j)
    ensures GetDashboardData(f, parseDate, now) == GetDashboardData(g, parseDate, now)
  {
    DeliveredAttemptBounded(f, g, 0, Retries);
  }
}
