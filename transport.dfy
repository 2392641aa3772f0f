/** The transport retry layer of `OllamaClient._handle_request`: what one
    attempt yields, how a 404 and an empty body are normalised, and the
    reference meaning of the whole retry loop (at most `maxRetries`
    attempts, a doubling delay between failures, the last failure's
    message as the result when every attempt fails). */
module Transport {
  import opened Json
  import opened Strings

  /** What one `method(url, **kwargs)` call produced.
      `Resp` is a response that arrived: its status, its decoded body
      (`None` when the content is empty) and the message the attempt
      records if `raise_for_status` raises for it. The other three are the
      exceptions the loop catches; `ReqErr` carries the recorded message. */
  datatype Outcome =
    | Resp(status: int, body: Option<Dict>, failure: string)
    | ConnErr
    | TimedOut
    | ReqErr(message: string)

  const UnreachableMessage := "Unable to connect to Ollama server"
  const TimedOutMessage := "Connection to Ollama server timed out"

  /** One attempt either returns a value or fails with the message it records. */
  datatype Step = Done(value: Dict) | Failed(message: string)

  /** `raise_for_status` raises for client and server error statuses. */
  predicate RaisesForStatus(status: int) {
    400 <= status < 600
  }

  /** What a 404 is rewritten to. */
  function NotFoundResult(endpoint: string): (r: Dict)
    ensures r == map[] || r == map["models" := JArr([])]
    ensures "models" in r <==> Contains(endpoint, "tags") || Contains(endpoint, "ps")
  {
    if Contains(endpoint, "tags") || Contains(endpoint, "ps") then map["models" := JArr([])] else map[]
  }

  /** The body of the `try` block for one attempt, with its `except` arms. */
  function Attempt(endpoint: string, o: Outcome): (s: Step)
    ensures o.Resp? && o.status == 404 ==> s == Done(NotFoundResult(endpoint))
    ensures o.Resp? && o.status != 404 && !RaisesForStatus(o.status) ==> s == Done(o.body.GetOr(map[]))
    ensures o.Resp? && o.status != 404 && RaisesForStatus(o.status) ==> s == Failed(o.failure)
    ensures o.ReqErr? ==> s == Failed(o.message)
    ensures !o.Resp? ==> s.Failed?
    ensures o == ConnErr ==> s.message == UnreachableMessage
    ensures o == TimedOut ==> s.message == TimedOutMessage
  {
    match o
    case Resp(status, body, failure) =>
      if status == 404 then Done(NotFoundResult(endpoint))
      else if RaisesForStatus(status) then Failed(failure)
      else Done(body.GetOr(map[]))
    case ConnErr => Failed(UnreachableMessage)
    case TimedOut => Failed(TimedOutMessage)
    case ReqErr(m) => Failed(m)
  }

  /** `{'error': last_error}` */
  function ErrorResult(lastError: Option<string>): Dict {
    map["error" := OptStr(lastError)]
  }

  /** One leading `/` is removed from the endpoint. */
  function StripLeadingSlash(endpoint: string): (r: string)
    ensures StartsWith(endpoint, "/") ==> "/" + r == endpoint
    ensures !StartsWith(endpoint, "/") ==> r == endpoint
  {
    if StartsWith(endpoint, "/") then endpoint[1..] else endpoint
  }

  lemma PlainEndpoint(endpoint: string)
    requires endpoint != "" && endpoint[0] != '/'
    ensures StripLeadingSlash(endpoint) == endpoint
  {
    assert endpoint[..1] != "/";
  }

  /** The `requests` function a call goes through. */
  datatype Verb = GET | POST | DELETE

  /** The request as it is sent on every attempt: verb, URL, headers,
      timeout and the JSON body, if any. */
  datatype Request = Request(verb: Verb, url: string, headers: map<string, string>, timeout: Option<int>, json: Option<Dict>)

  /** `_get_headers`: JSON content type, plus a bearer token when an API key is set. */
  function DefaultHeaders(apiKey: Option<string>): (h: map<string, string>)
    ensures "Content-Type" in h && h["Content-Type"] == "application/json"
    ensures ("Authorization" in h) <==> apiKey.Some? && apiKey.value != ""
    ensures "Authorization" in h ==> h["Authorization"] == "Bearer " + apiKey.value
    ensures h.Keys <= {"Content-Type", "Authorization"}
  {
    var base := map["Content-Type" := "application/json"];
    if apiKey.Some? && apiKey.value != "" then base["Authorization" := "Bearer " + apiKey.value] else base
  }

  /** What a call of the retry loop returns, the delays it slept, and how
      many attempts it made. */
  datatype Dispatch = Dispatch(result: Dict, sleeps: seq<nat>, attempts: nat)

  function Pow2(n: nat): nat {
    if n == 0 then 1 else 2 * Pow2(n - 1)
  }

  /** The first `n` delays of a backoff that starts at `delay` and doubles. */
  function Backoff(delay: nat, n: nat): seq<nat> {
    seq(n, i requires 0 <= i < n => delay * Pow2(i))
  }

  /** The first attempt index in `[from, n)` whose attempt returns, or `n`. */
  function FirstDone(endpoint: string, outcome: nat -> Outcome, from: nat, n: nat): (k: nat)
    requires from <= n
    ensures from <= k <= n
    ensures k < n ==> Attempt(endpoint, outcome(k)).Done?
    ensures forall i :: from <= i < k ==> Attempt(endpoint, outcome(i)).Failed?
    decreases n - from
  {
    if from == n then n
    else if Attempt(endpoint, outcome(from)).Done? then from
    else FirstDone(endpoint, outcome, from + 1, n)
  }

  /** The first returning attempt is the one with only failures before it. */
  lemma {:induction false} FirstDoneAt(endpoint: string, outcome: nat -> Outcome, from: nat, n: nat, k: nat)
    requires from <= k <= n
    requires k < n ==> Attempt(endpoint, outcome(k)).Done?
    requires forall i :: from <= i < k ==> Attempt(endpoint, outcome(i)).Failed?
    ensures FirstDone(endpoint, outcome, from, n) == k
    decreases k - from
  {
    if from < k {
      FirstDoneAt(endpoint, outcome, from + 1, n, k);
    }
  }

  /** One more delay, twice the previous one. */
  lemma BackoffSnoc(delay: nat, n: nat)
    ensures Backoff(delay, n + 1) == Backoff(delay, n) + [delay * Pow2(n)]
  {
  }

  /** Reference meaning of the retry loop: the first attempt that does not
      raise decides the result, after one delay per earlier failure; when all
      `maxRetries` attempts fail, the result is `{'error': m}` with `m` the
      last attempt's message, and there is no delay after the last one. */
  function Execute(maxRetries: nat, retryDelay: nat, endpoint: string, outcome: nat -> Outcome): (d: Dispatch)
    ensures d.attempts <= maxRetries && (maxRetries > 0 ==> d.attempts >= 1)
    ensures |d.sleeps| == if d.attempts == 0 then 0 else d.attempts - 1
    ensures forall i :: 0 <= i < |d.sleeps| ==> d.sleeps[i] == retryDelay * Pow2(i)
  {
    var k := FirstDone(endpoint, outcome, 0, maxRetries);
    if k < maxRetries then
      Dispatch(Attempt(endpoint, outcome(k)).value, Backoff(retryDelay, k), k + 1)
    else if maxRetries == 0 then
      Dispatch(ErrorResult(None), [], 0)
    else
      Dispatch(ErrorResult(Some(Attempt(endpoint, outcome(maxRetries - 1)).message)),
               Backoff(retryDelay, maxRetries - 1), maxRetries)
  }

  /** What the retry loop's result means: every attempt but the last one
      made failed; a last attempt that returned decides the result; a last
      attempt that failed was the last permitted one, and its message is
      the error. */
  lemma ExecuteMeaning(maxRetries: nat, retryDelay: nat, endpoint: string, outcome: nat -> Outcome)
    ensures var d := Execute(maxRetries, retryDelay, endpoint, outcome);
      && (forall i :: 0 <= i < d.attempts - 1 ==> Attempt(endpoint, outcome(i)).Failed?)
      && (d.attempts > 0 && Attempt(endpoint, outcome(d.attempts - 1)).Done? ==>
            d.result == Attempt(endpoint, outcome(d.attempts - 1)).value)
      && (d.attempts > 0 && Attempt(endpoint, outcome(d.attempts - 1)).Failed? ==>
            d.attempts == maxRetries && d.result == map["error" := JStr(Attempt(endpoint, outcome(d.attempts - 1)).message)])
      && (d.attempts < maxRetries ==> Attempt(endpoint, outcome(d.attempts - 1)).Done?)
  {
  }

  /** The client's policy (3 attempts, first delay 1): at most three
      attempts, the delays slept are 1 then 2, one fewer delay than attempts,
      and a persistently failing endpoint gives exactly 3 attempts, delays
      [1, 2] and the third failure's message. */
  lemma DefaultPolicy(endpoint: string, outcome: nat -> Outcome)
    ensures var d := Execute(3, 1, endpoint, outcome);
      && 1 <= d.attempts <= 3
      && |d.sleeps| == d.attempts - 1
      && d.sleeps == [1, 2][..|d.sleeps|]
    ensures (forall i :: 0 <= i < 3 ==> Attempt(endpoint, outcome(i)).Failed?) ==>
      Execute(3, 1, endpoint, outcome)
        == Dispatch(map["error" := JStr(Attempt(endpoint, outcome(2)).message)], [1, 2], 3)
  {
    assert Pow2(0) == 1 && Pow2(1) == 2;
    assert Backoff(1, 0) == [];
    assert Backoff(1, 1) == [1];
    assert Backoff(1, 2) == [1, 2];
  }

  /** A response that arrives decides the call on the first attempt:
      a 404 from the tags or process-list endpoint is an empty model list,
      and a success with an empty body is `{}`. */
  lemma FirstResponseDecides(maxRetries: nat, retryDelay: nat, endpoint: string, outcome: nat -> Outcome)
    requires maxRetries > 0
    requires outcome(0).Resp? && !(outcome(0).status != 404 && RaisesForStatus(outcome(0).status))
    ensures var d := Execute(maxRetries, retryDelay, endpoint, outcome);
      && d.attempts == 1 && d.sleeps == []
      && ((outcome(0).status == 404 && (Contains(endpoint, "tags") || Contains(endpoint, "ps")))
            ==> d.result == map["models" := JArr([])])
      && ((outcome(0).status == 404 && !Contains(endpoint, "tags") && !Contains(endpoint, "ps"))
            ==> d.result == map[])
      && (outcome(0).status != 404 && outcome(0).body == None ==> d.result == map[])
  {
    assert Attempt(endpoint, outcome(0)).Done?;
    assert Backoff(retryDelay, 0) == [];
  }
}
