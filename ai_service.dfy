/** The image provider client (src/services/ai_service.py). HTTP is replaced
    by oracles: `post` answers the submission request, `fetch` answers the
    k-th result request, and `latency` says how many seconds the k-th
    result request takes. The poll loop's clock starts at 0 and advances by
    each request's latency and by 2 seconds per sleep. */
module AiService {
  import opened Values
  import Text

  // ----- Submission -----

  /** The keys a submission payload may carry. */
  const PayloadKeys: set<string> :=
    {"prompt", "width", "height", "prompt_upsampling", "seed", "safety_tolerance", "output_format"}

  /** The payload value of an optional key when the caller does not supply it. */
  function PayloadDefault(key: string): Value {
    if key == "width" || key == "height" then Int(1024)
    else if key == "prompt_upsampling" then Bool(false)
    else if key == "safety_tolerance" then Int(2)
    else if key == "output_format" then Str("jpeg")
    else Null
  }

  /** The dict comprehension that keeps the entries whose value is not `None`. */
  function DropNulls(m: map<string, Value>): (r: map<string, Value>)
    ensures r.Keys <= m.Keys
    ensures forall k :: k in m ==> (k in r <==> m[k] != Null)
    ensures forall k :: k in r ==> r[k] == m[k] && r[k] != Null
  {
    map k | k in m && m[k] != Null :: m[k]
  }

  /** The entry the payload literal writes for `key`: the prompt, or the
      keyword argument of that name, or else the key's default. */
  function Requested(prompt: string, kwargs: map<string, Value>, key: string): Value {
    if key == "prompt" then Str(prompt) else Get(kwargs, key, PayloadDefault(key))
  }

  /** The JSON body of `generate_image(prompt, **kwargs)`: the payload
      literal with its `None`-valued entries removed. */
  function BuildPayload(prompt: string, kwargs: map<string, Value>): (p: map<string, Value>)
    ensures p.Keys <= PayloadKeys
    ensures forall k :: k in p ==> p[k] != Null
    ensures "prompt" in p && p["prompt"] == Str(prompt)
  {
    DropNulls(map k | k in PayloadKeys :: Requested(prompt, kwargs, k))
  }

  /** `seed` has no default: it is sent only when the caller supplies a
      value other than `None`. */
  lemma PayloadSeed(prompt: string, kwargs: map<string, Value>)
    ensures var p := BuildPayload(prompt, kwargs);
      "seed" in p <==> "seed" in kwargs && kwargs["seed"] != Null
  {
    assert PayloadDefault("seed") == Null;
  }

  /** An option the caller supplies is sent as given, or left out when it
      is `None`. */
  lemma PayloadOverride(prompt: string, kwargs: map<string, Value>, key: string)
    requires key in PayloadKeys && key != "prompt" && key in kwargs
    ensures var p := BuildPayload(prompt, kwargs);
      (key in p <==> kwargs[key] != Null) && (key in p ==> p[key] == kwargs[key])
  {
  }

  /** An option the caller does not supply, other than `seed`, is sent with
      its default: width and height 1024, no prompt upsampling, safety
      tolerance 2, JPEG output. */
  lemma PayloadDefaults(prompt: string, kwargs: map<string, Value>, key: string)
    requires key in PayloadKeys && key != "prompt" && key != "seed" && key !in kwargs
    ensures var p := BuildPayload(prompt, kwargs);
      key in p && p[key] == PayloadDefault(key) && PayloadDefault(key) != Null
  {
  }

  /** The submission endpoint under the configured base URL. */
  function Endpoint(baseUrl: string): string {
    baseUrl + "/v1/flux-pro-1.1"
  }

  /** The two fields read from an accepted submission. */
  datatype Accepted = Accepted(id: string, pollingUrl: Option<string>)

  /** What the submission request yields: a response with its status code
      (its body is read only for 200), a client (network) error, or any
      other exception, with its message. */
  datatype SubmitReply =
    | Response(status: int, body: Accepted)
    | NetworkError
    | OtherException(message: string)

  const CreditsMessage := "Insufficient credits. " + "Please check your BFL account."
  const ProviderRateLimitMessage := "Rate limit exceeded. Please try again later."
  const NetworkMessage := "Network error occurred. Please try again."

  /** How `generate_image` turns a reply into its result or the message of
      the exception it raises. */
  function SubmitOutcome(reply: SubmitReply): (r: Result<Accepted, string>)
    ensures r.Ok? <==> reply.Response? && reply.status == 200
    ensures r.Ok? ==> r.value == reply.body
    ensures reply.Response? && reply.status == 429 ==> r == Err(ProviderRateLimitMessage)
    ensures reply.Response? && reply.status == 402 ==> r == Err(CreditsMessage)
    ensures reply.Response? && reply.status !in {200, 429, 402} ==>
      r == Err("API request failed: " + Text.IntToString(reply.status))
    ensures reply.NetworkError? ==> r == Err(NetworkMessage)
    ensures reply.OtherException? ==> r == Err(reply.message)
  {
    match reply
    case Response(status, body) =>
      if status == 200 then Ok(body)
      else if status == 429 then Err(ProviderRateLimitMessage)
      else if status == 402 then Err(CreditsMessage)
      else Err("API request failed: " + Text.IntToString(status))
    case NetworkError => Err(NetworkMessage)
    case OtherException(message) => Err(message)
  }

  /** `generate_image(prompt, **kwargs)` against the oracle `post`, which
      receives the endpoint and the payload: one request, to the
      generation endpoint, carrying the payload built from the prompt and
      the options, whose reply decides the outcome. */
  function GenerateImage(post: (string, map<string, Value>) -> SubmitReply, baseUrl: string,
                         prompt: string, kwargs: map<string, Value>): (r: Result<Accepted, string>)
    ensures var reply := post(Endpoint(baseUrl), BuildPayload(prompt, kwargs));
      r == SubmitOutcome(reply) &&
      (r.Ok? <==> reply.Response? && reply.status == 200) &&
      (r.Ok? ==> r.value == reply.body)
  {
    SubmitOutcome(post(Endpoint(baseUrl), BuildPayload(prompt, kwargs)))
  }

  /** Distinct refusal codes give distinct messages: the message a failed
      submission raises tells which status code the provider sent. */
  lemma SubmitMessageIdentifiesStatus(c1: int, c2: int, b1: Accepted, b2: Accepted)
    requires c1 != 200 && c2 != 200
    requires SubmitOutcome(Response(c1, b1)) == SubmitOutcome(Response(c2, b2))
    ensures c1 == c2
  {
    var prefix := "API request failed: ";
    var s1, s2 := Text.IntToString(c1), Text.IntToString(c2);
    assert (prefix + s1)[0] == 'A' && (prefix + s2)[0] == 'A';
    assert ProviderRateLimitMessage[0] == 'R' && CreditsMessage[0] == 'I';
    if c1 !in {429, 402} && c2 !in {429, 402} {
      assert prefix + s1 == prefix + s2;
      assert s1 == (prefix + s1)[|prefix|..];
      assert s2 == (prefix + s2)[|prefix|..];
      Text.IntToStringInjective(c1, c2);
    }
  }

  // ----- Result requests -----

  /** `polling_url or f"{base_url}/v1/get_result"`. */
  function ResultUrl(baseUrl: string, pollingUrl: Option<string>): (url: string)
    ensures pollingUrl.Some? && pollingUrl.value != "" ==> url == pollingUrl.value
    ensures pollingUrl.None? || pollingUrl.value == "" ==> url == baseUrl + "/v1/get_result"
  {
    match pollingUrl
    case Some(u) => if u != "" then u else baseUrl + "/v1/get_result"
    case None => baseUrl + "/v1/get_result"
  }

  /** What a result request yields: a response whose body (read only for
      200) is a JSON object, a client error, or any other exception. */
  datatype FetchReply =
    | Fetched(status: int, body: map<string, Value>)
    | FetchNetworkError
    | FetchException(message: string)

  /** `get_result`: the body of a 200 response, or the message of the
      exception it raises. */
  function GetResult(reply: FetchReply): (r: Result<map<string, Value>, string>)
    ensures r.Ok? <==> reply.Fetched? && reply.status == 200
    ensures r.Ok? ==> r.value == reply.body
    ensures reply.Fetched? && reply.status != 200 ==>
      r == Err("Failed to get result: " + Text.IntToString(reply.status))
    ensures reply.FetchNetworkError? ==> r == Err(NetworkMessage)
    ensures reply.FetchException? ==> r == Err(reply.message)
  {
    match reply
    case Fetched(status, body) =>
      if status == 200 then Ok(body) else Err("Failed to get result: " + Text.IntToString(status))
    case FetchNetworkError => Err(NetworkMessage)
    case FetchException(message) => Err(message)
  }

  // ----- Polling -----

  /** How the poll loop treats a status: stop with the result as it is
      (`Ready`, a failure, or anything unrecognised), or keep polling. */
  datatype StatusClass = ReadyStatus | FailureStatus | WaitingStatus | UnknownStatus

  function Classify(status: Value): (c: StatusClass)
    ensures c == ReadyStatus <==> status == Str("Ready")
    ensures c == FailureStatus <==>
      status in {Str("Error"), Str("Failed"), Str("Content Moderated")}
    ensures c == WaitingStatus <==> status in {Str("Pending"), Str("Request Moderated")}
  {
    if status == Str("Ready") then ReadyStatus
    else if status in {Str("Error"), Str("Failed"), Str("Content Moderated")} then FailureStatus
    else if status in {Str("Pending"), Str("Request Moderated")} then WaitingStatus
    else UnknownStatus
  }

  /** `result.get("status")`. */
  function StatusOf(result: map<string, Value>): Value {
    Get(result, "status", Null)
  }

  /** The result synthesised when the deadline has passed. */
  const TimeoutResult: map<string, Value> :=
    map["status" := Str("Timeout"), "error" := Str("Request timed out")]

  /** The result synthesised from an exception raised by `get_result`. */
  function ErrorResult(message: string): map<string, Value> {
    map["status" := Str("Error"), "error" := Str(message)]
  }

  /** Seconds since the loop started when the reply to request `k` has
      arrived: every request's latency so far plus a 2-second sleep between
      consecutive requests. */
  function Elapsed(latency: nat -> nat, k: nat): (e: nat)
    ensures e >= 2 * k
  {
    if k == 0 then latency(0) else Elapsed(latency, k - 1) + 2 + latency(k)
  }

  /** Request `k` is followed by another one: its reply is a waiting status
      and the deadline has not passed. */
  predicate KeepsPolling(fetch: (string, string, nat) -> FetchReply, latency: nat -> nat,
                         url: string, taskId: string, timeout: int, k: nat) {
    var r := GetResult(fetch(url, taskId, k));
    r.Ok? && Classify(StatusOf(r.value)) == WaitingStatus && Elapsed(latency, k) <= timeout
  }

  /** The result returned when polling stops at a reply. */
  function Settle(r: Result<map<string, Value>, string>): map<string, Value> {
    match r
    case Err(message) => ErrorResult(message)
    case Ok(body) => if Classify(StatusOf(body)) == WaitingStatus then TimeoutResult else body
  }

  /** `poll_for_result` issued `fetches` requests and returned `result`:
      every request but the last was followed by another, the last was not,
      and the result is settled from the last reply. */
  ghost predicate PollSpec(fetch: (string, string, nat) -> FetchReply, latency: nat -> nat,
                           url: string, taskId: string, timeout: int,
                           result: map<string, Value>, fetches: nat) {
    fetches >= 1 &&
    (forall k: nat :: k < fetches - 1 ==> KeepsPolling(fetch, latency, url, taskId, timeout, k)) &&
    !KeepsPolling(fetch, latency, url, taskId, timeout, fetches - 1) &&
    result == Settle(GetResult(fetch(url, taskId, fetches - 1)))
  }

  /** `poll_for_result(task_id, polling_url, timeout)`. Every request goes to
      the same URL; the result never has a waiting status; and the loop
      stops after at most `timeout / 2 + 2` requests. */
  method PollForResult(fetch: (string, string, nat) -> FetchReply, latency: nat -> nat,
                       baseUrl: string, taskId: string, pollingUrl: Option<string>, timeout: int)
    returns (result: map<string, Value>, fetches: nat)
    ensures PollSpec(fetch, latency, ResultUrl(baseUrl, pollingUrl), taskId, timeout, result, fetches)
    ensures Classify(StatusOf(result)) != WaitingStatus
    ensures fetches == 1 || 2 * (fetches - 2) <= timeout
  {
    var url := ResultUrl(baseUrl, pollingUrl);
    fetches := 0;
    var clock: nat := 0;
    while true
      invariant forall k: nat :: k < fetches ==> KeepsPolling(fetch, latency, url, taskId, timeout, k)
      invariant clock == if fetches == 0 then 0 else Elapsed(latency, fetches - 1) + 2
      invariant fetches == 0 || 2 * (fetches - 1) <= timeout
      decreases timeout + 2 - 2 * fetches
    {
      clock := clock + latency(fetches);
      var reply := GetResult(fetch(url, taskId, fetches));
      fetches := fetches + 1;
      match reply
      case Err(message) =>
        result := ErrorResult(message);
        assert StatusOf(result) == Str("Error");
        return;
      case Ok(body) =>
        if Classify(StatusOf(body)) != WaitingStatus {
          return body, fetches;
        }
        if clock > timeout {
          result := TimeoutResult;
          assert StatusOf(result) == Str("Timeout");
          return;
        }
        clock := clock + 2;
    }
  }

  /** A reply that is not a waiting status ends polling: if request `k` was
      issued and its reply is an error or a non-waiting body, it was the last
      request, and the result is the error result or that body unchanged. */
  lemma StopsAtSettledReply(fetch: (string, string, nat) -> FetchReply, latency: nat -> nat,
                            url: string, taskId: string, timeout: int,
                            result: map<string, Value>, fetches: nat, k: nat)
    requires PollSpec(fetch, latency, url, taskId, timeout, result, fetches)
    requires k < fetches
    requires var r := GetResult(fetch(url, taskId, k));
      r.Err? || Classify(StatusOf(r.value)) != WaitingStatus
    ensures k == fetches - 1
    ensures var r := GetResult(fetch(url, taskId, k));
      result == if r.Err? then ErrorResult(r.error) else r.value
  {
    assert !KeepsPolling(fetch, latency, url, taskId, timeout, k);
  }

  /** The requests issued and the result are determined by the provider's
      replies and latencies. */
  lemma PollSpecUnique(fetch: (string, string, nat) -> FetchReply, latency: nat -> nat,
                       url: string, taskId: string, timeout: int,
                       r1: map<string, Value>, f1: nat, r2: map<string, Value>, f2: nat)
    requires PollSpec(fetch, latency, url, taskId, timeout, r1, f1)
    requires PollSpec(fetch, latency, url, taskId, timeout, r2, f2)
    ensures f1 == f2 && r1 == r2
  {
  }

  /** A provider that answers every request at once with `Pending`. */
  function AlwaysPending(url: string, taskId: string, k: nat): FetchReply {
    Fetched(200, map["status" := Str("Pending")])
  }

  function NoLatency(k: nat): nat { 0 }

  lemma {:induction false} ElapsedNoLatency(k: nat)
    ensures Elapsed(NoLatency, k) == 2 * k
  {
    if k > 0 {
      ElapsedNoLatency(k - 1);
    }
  }

  /** Against a provider that stays `Pending`, polling with a non-negative
      timeout gives up with the timeout result after `timeout / 2 + 2`
      requests: the first one whose reply arrives after the deadline. */
  lemma PendingProviderTimesOut(url: string, taskId: string, timeout: int,
                                result: map<string, Value>, fetches: nat)
    requires timeout >= 0
    requires PollSpec(AlwaysPending, NoLatency, url, taskId, timeout, result, fetches)
    ensures result == TimeoutResult
    ensures fetches == timeout / 2 + 2
  {
    var body := map["status" := Str("Pending")];
    assert StatusOf(body) == Str("Pending");
    ElapsedNoLatency(fetches - 1);
    if fetches >= 2 {
      assert KeepsPolling(AlwaysPending, NoLatency, url, taskId, timeout, fetches - 2);
      ElapsedNoLatency(fetches - 2);
    }
  }
}
