/** The HTTP transport (`transport.py`) and the error taxonomy it raises
    (`errors.py`).

    The `httpx` client is replaced by an oracle: the sequence of outcomes the
    successive attempts of one request would meet, each either a network
    failure or a response. Each `time.sleep` becomes an entry, in
    milliseconds, of a list of delays the request returns. */
module Transport {
  import opened Wrappers
  import opened Text
  import Auth

  // ---------------------------------------------------------------------
  // Error taxonomy

  /** The flat hierarchy under `EigenlakeError`. */
  datatype ErrorKind =
    | AuthenticationError
    | NotFoundError
    | ConflictError
    | ValidationError
    | APIError
    | NetworkError

  /** A raised `EigenlakeError`: its class and its one detail string. */
  datatype Failure = Failure(kind: ErrorKind, detail: string)

  // ---------------------------------------------------------------------
  // Responses and attempts

  /** What `resp.json()` gives, as far as the detail extraction looks at it. */
  datatype JsonBody =
    | NotJson                          // `resp.json()` raised
    | NotObject                        // valid JSON, but not an object
    | Object(detail: Option<string>)   // an object; `Some(str(v))` when its "detail" is a non-null `v`

  datatype Response = Response(status: nat, text: string, json: JsonBody)

  /** The outcome of one attempt: `httpx.RequestError` or a response. */
  datatype Attempt = NetErr(message: string) | Resp(response: Response)

  /** One request as handed to the HTTP client: verb and path. */
  datatype Call = Call(verb: string, path: string)

  // ---------------------------------------------------------------------
  // Connection configuration

  /** The only header name the transport ever sets. */
  const ApiKeyHeader: string := "X-API-Key"

  predicate IsSlash(c: char) { c == '/' }

  /** `base_url.rstrip("/")`. */
  function TrimTrailingSlashes(url: string): (r: string)
    ensures |r| <= |url| && r == url[..|r|]
    ensures forall i :: |r| <= i < |url| ==> url[i] == '/'
    ensures r != [] ==> r[|r| - 1] != '/'
  {
    url[..ScanBackward(url, IsSlash, 0, |url|)]
  }

  /** `max(0, int(retries))`: the number of retries after the first attempt. */
  function EffectiveRetries(retries: int): (n: nat)
    ensures retries >= 0 ==> n == retries
    ensures retries < 0 ==> n == 0
  {
    if retries < 0 then 0 else retries
  }

  /** `_auth_headers`: the `X-API-Key` header carrying the trimmed key, or no
      header at all when the key is missing or blank. */
  function AuthHeaders(apiKey: Option<string>): (h: map<string, string>)
    ensures h == map[] <==> All(OrEmpty(apiKey), IsSpace)
    ensures h != map[] ==> h == map[ApiKeyHeader := Strip(OrEmpty(apiKey))]
    ensures h.Keys <= {ApiKeyHeader}
    ensures ApiKeyHeader in h ==> var v := h[ApiKeyHeader];
                                  v != [] && !IsSpace(v[0]) && !IsSpace(v[|v| - 1])
  {
    var token := Strip(OrEmpty(apiKey));
    StripEmptyIff(OrEmpty(apiKey));
    if token == [] then map[] else map[ApiKeyHeader := token]
  }

  /** The transport sends a key exactly when `Auth.api_key` would accept it,
      and then sends the key that `Auth.api_key` would keep. */
  lemma AuthHeadersAgreeWithApiKey(apiKey: Option<string>)
    ensures AuthHeaders(apiKey) == map[] <==> Auth.ApiKey(apiKey).Err?
    ensures Auth.ApiKey(apiKey).Ok? ==>
              AuthHeaders(apiKey) == map[ApiKeyHeader := Auth.ApiKey(apiKey).value.key]
  {
    var h := AuthHeaders(apiKey);
    if Auth.ApiKey(apiKey).Ok? {
      assert h != map[];
    }
  }

  /** The path normalisation at the top of `request`: a leading `/` is added
      unless one is already there. */
  function NormalizePath(path: string): (r: string)
    ensures r != [] && r[0] == '/'
    ensures |path| <= |r| <= |path| + 1 && r[|r| - |path|..] == path
    ensures path != [] && path[0] == '/' ==> r == path
  {
    if path != [] && path[0] == '/' then path else "/" + path
  }

  // ---------------------------------------------------------------------
  // Status classification

  predicate IsSuccess(status: nat) {
    200 <= status < 300
  }

  /** True when the response's JSON is an object with a non-null "detail". */
  predicate HasDetail(resp: Response) {
    resp.json.Object? && resp.json.detail.Some?
  }

  /** `_detail`: the body's "detail", else the trimmed body text, else
      "HTTP <status>". */
  function Detail(resp: Response): (d: string)
    ensures HasDetail(resp) ==> d == resp.json.detail.value
    ensures !HasDetail(resp) && !All(resp.text, IsSpace) ==> d == Strip(resp.text)
    ensures !HasDetail(resp) && All(resp.text, IsSpace) ==> d == "HTTP " + Decimal(resp.status)
    ensures d == [] ==> HasDetail(resp)
  {
    StripEmptyIff(resp.text);
    if HasDetail(resp) then resp.json.detail.value
    else if Strip(resp.text) != [] then Strip(resp.text)
    else "HTTP " + Decimal(resp.status)
  }

  /** The generic fallback detail names the status code, which can be read
      back from it. */
  lemma DetailNamesStatus(resp: Response)
    requires !HasDetail(resp) && All(resp.text, IsSpace)
    ensures Detail(resp)[..5] == "HTTP "
    ensures All(Detail(resp)[5..], IsDigit)
    ensures ParseDecimal(Detail(resp)[5..]) == resp.status
  {
    var d := Detail(resp);
    assert d[5..] == Decimal(resp.status);
    DecimalRoundTrip(resp.status);
  }

  /** The status-to-class table of `_raise_for_status` for non-2xx codes. */
  function KindOf(status: nat): (k: ErrorKind)
    ensures k == AuthenticationError <==> status == 401 || status == 403
    ensures k == NotFoundError <==> status == 404
    ensures k == ConflictError <==> status == 409
    ensures k == ValidationError <==> status == 400 || status == 422
    ensures k == APIError <==> status !in {400, 401, 403, 404, 409, 422}
    ensures k != NetworkError
  {
    if status == 401 || status == 403 then AuthenticationError
    else if status == 404 then NotFoundError
    else if status == 409 then ConflictError
    else if status == 400 || status == 422 then ValidationError
    else APIError
  }

  /** `_raise_for_status`: a 2xx response passes through; any other raises
      the error of its class, carrying the extracted detail. */
  function RaiseForStatus(resp: Response): (r: Result<Response, Failure>)
    ensures r.Ok? <==> IsSuccess(resp.status)
    ensures r.Ok? ==> r.value == resp
    ensures r.Err? ==> r.error.kind == KindOf(resp.status) && r.error.detail == Detail(resp)
    ensures r.Err? ==> r.error.kind != NetworkError
  {
    if IsSuccess(resp.status) then Ok(resp)
    else Err(Failure(KindOf(resp.status), Detail(resp)))
  }

  // ---------------------------------------------------------------------
  // The retry policy, as a specification

  /** An outcome that `request` retries while attempts remain: a network
      failure or a 5xx response. */
  predicate Transient(a: Attempt)
    ensures !Transient(a) ==> a.Resp? && a.response.status < 500
  {
    a.NetErr? || a.response.status >= 500
  }

  /** A transient response is an error response that `_raise_for_status`
      would report as a plain `APIError`. */
  lemma TransientResponseIsApiError(a: Attempt)
    requires Transient(a) && a.Resp?
    ensures !IsSuccess(a.response.status)
    ensures RaiseForStatus(a.response) == Err(Failure(APIError, Detail(a.response)))
  {
  }

  /** How an attempt that is not retried ends the request. */
  function Conclude(a: Attempt): (r: Result<Response, Failure>)
    ensures r.Ok? <==> a.Resp? && IsSuccess(a.response.status)
    ensures a.NetErr? ==> r == Err(Failure(NetworkError, a.message))
    ensures a.Resp? ==> r == RaiseForStatus(a.response)
  {
    match a
    case NetErr(message) => Err(Failure(NetworkError, message))
    case Resp(response) => RaiseForStatus(response)
  }

  /** The pause before retry number `k` (counted from 0): 200 ms * (k + 1). */
  function Backoff(k: nat): nat {
    200 * (k + 1)
  }

  /** The pauses taken before the first `n` retries. */
  function Delays(n: nat): (d: seq<nat>)
    ensures |d| == n
    ensures forall k :: 0 <= k < n ==> d[k] == Backoff(k)
    ensures forall i, j :: 0 <= i < j < n ==> d[i] < d[j]
  {
    seq(n, k requires 0 <= k < n => Backoff(k))
  }

  /** The index of the attempt that ends the request when attempts
      `from`..`retries` meet `outcomes`: the first one that is not transient,
      or the last one allowed. */
  function LastAttempt(outcomes: seq<Attempt>, retries: nat, from: nat): (j: nat)
    requires from <= retries < |outcomes|
    ensures from <= j <= retries
    ensures forall i :: from <= i < j ==> Transient(outcomes[i])
    ensures j < retries ==> !Transient(outcomes[j])
    decreases retries - from
  {
    if from == retries || !Transient(outcomes[from]) then from
    else LastAttempt(outcomes, retries, from + 1)
  }

  /** The attempt that ends the request is determined by the outcomes: any
      `k` preceded only by transient outcomes, and either the last allowed
      attempt or a non-transient one, is it. */
  lemma {:induction false} LastAttemptIs(outcomes: seq<Attempt>, retries: nat, from: nat, k: nat)
    requires from <= k <= retries < |outcomes|
    requires forall i :: from <= i < k ==> Transient(outcomes[i])
    requires k == retries || !Transient(outcomes[k])
    ensures LastAttempt(outcomes, retries, from) == k
    decreases k - from
  {
    if from < k {
      LastAttemptIs(outcomes, retries, from + 1, k);
    }
  }

  /** `n` copies of the same call. */
  function Repeat(c: Call, n: nat): (r: seq<Call>)
    ensures |r| == n && forall i :: 0 <= i < n ==> r[i] == c
  {
    seq(n, _ => c)
  }

  lemma RepeatSnoc(c: Call, n: nat)
    ensures Repeat(c, n) + [c] == Repeat(c, n + 1)
  {
  }

  lemma DelaysSnoc(n: nat)
    ensures Delays(n) + [Backoff(n)] == Delays(n + 1)
  {
  }

  /** What one call of `request` observably does. */
  datatype Trace = Trace(result: Result<Response, Failure>, sent: seq<Call>, delays: seq<nat>)

  /** The reference behaviour of `request`: send `call` until an attempt ends
      the request, pausing `Backoff(k)` after each retried attempt `k`. */
  function Expected(call: Call, retries: nat, outcomes: seq<Attempt>): (t: Trace)
    requires retries < |outcomes|
    ensures 1 <= |t.sent| <= retries + 1
    ensures forall c :: c in t.sent ==> c == call
    ensures t.delays == Delays(|t.sent| - 1)
    ensures forall i :: 0 <= i < |t.sent| - 1 ==> Transient(outcomes[i])
    ensures t.result == Conclude(outcomes[|t.sent| - 1])
  {
    var j := LastAttempt(outcomes, retries, 0);
    Trace(Conclude(outcomes[j]), Repeat(call, j + 1), Delays(j))
  }

  /** The request stops early only on an attempt that is not retried: an
      ending attempt before the last allowed one is never transient. */
  lemma ExpectedStopsOnlyWhenFinal(call: Call, retries: nat, outcomes: seq<Attempt>)
    requires retries < |outcomes|
    ensures var t := Expected(call, retries, outcomes);
      |t.sent| - 1 < retries ==> !Transient(outcomes[|t.sent| - 1])
  {
  }

  /** Once attempt `k` is known to end the request, the whole trace is
      known: `k + 1` sends, `k` pauses, and how attempt `k` concludes. */
  lemma ExpectedAt(call: Call, retries: nat, outcomes: seq<Attempt>, k: nat)
    requires k <= retries < |outcomes|
    requires forall i :: 0 <= i < k ==> Transient(outcomes[i])
    requires k == retries || !Transient(outcomes[k])
    ensures Expected(call, retries, outcomes)
            == Trace(Conclude(outcomes[k]), Repeat(call, k + 1), Delays(k))
  {
    LastAttemptIs(outcomes, retries, 0, k);
  }

  /** A response that is neither 2xx nor 5xx (or any 2xx) ends the request on
      the attempt where it arrives: it is never retried. */
  lemma NonTransientIsFinal(call: Call, retries: nat, outcomes: seq<Attempt>, k: nat)
    requires k <= retries < |outcomes|
    requires forall i :: 0 <= i < k ==> Transient(outcomes[i])
    requires outcomes[k].Resp? && outcomes[k].response.status < 500
    ensures |Expected(call, retries, outcomes).sent| == k + 1
    ensures Expected(call, retries, outcomes).result == RaiseForStatus(outcomes[k].response)
  {
    LastAttemptIs(outcomes, retries, 0, k);
  }

  /** When every allowed attempt meets a transient outcome, all
      `retries + 1` attempts are made; the last network failure surfaces as
      `NetworkError` with its message, the last 5xx as `APIError`. */
  lemma ExhaustedRetries(call: Call, retries: nat, outcomes: seq<Attempt>)
    requires retries < |outcomes|
    requires forall i :: 0 <= i <= retries ==> Transient(outcomes[i])
    ensures |Expected(call, retries, outcomes).sent| == retries + 1
    ensures |Expected(call, retries, outcomes).delays| == retries
    ensures outcomes[retries].NetErr? ==>
              Expected(call, retries, outcomes).result
                == Err(Failure(NetworkError, outcomes[retries].message))
    ensures outcomes[retries].Resp? ==>
              Expected(call, retries, outcomes).result
                == Err(Failure(APIError, Detail(outcomes[retries].response)))
  {
    LastAttemptIs(outcomes, retries, 0, retries);
  }

  /** A `NetworkError` is raised only after the last allowed attempt has
      failed at the network level, and it carries that failure's message. */
  lemma NetworkErrorOnlyWhenExhausted(call: Call, retries: nat, outcomes: seq<Attempt>)
    requires retries < |outcomes|
    requires Expected(call, retries, outcomes).result.Err?
    requires Expected(call, retries, outcomes).result.error.kind == NetworkError
    ensures |Expected(call, retries, outcomes).sent| == retries + 1
    ensures outcomes[retries].NetErr?
    ensures Expected(call, retries, outcomes).result.error.detail == outcomes[retries].message
  {
  }

  // ---------------------------------------------------------------------
  // The transport object

  class Transport {
    /** The base URL with its trailing slashes removed. */
    const baseUrl: string
    /** The retry budget: attempts beyond the first. */
    const retries: nat
    /** The default headers every request carries. */
    const headers: map<string, string>

    /** `Transport.__init__`, without the timeout and the `httpx` client. */
    constructor (baseUrl: string, apiKey: Option<string>, retries: int := 2)
      ensures this.baseUrl == TrimTrailingSlashes(baseUrl)
      ensures this.retries == EffectiveRetries(retries)
      ensures this.headers == AuthHeaders(apiKey)
    {
      this.baseUrl := TrimTrailingSlashes(baseUrl);
      this.retries := EffectiveRetries(retries);
      this.headers := AuthHeaders(apiKey);
    }

    /** `request`: up to `retries + 1` attempts, `outcomes[k]` being what
        attempt `k` meets. */
    method Request(verb: string, path: string, outcomes: seq<Attempt>)
      returns (result: Result<Response, Failure>, sent: seq<Call>, delays: seq<nat>)
      requires retries < |outcomes|
      ensures Trace(result, sent, delays)
              == Expected(Call(Upper(verb), NormalizePath(path)), retries, outcomes)
    {
      var call := Call(Upper(verb), NormalizePath(path));
      sent, delays := [], [];
      var lastExc: Option<string> := None;
      for attempt := 0 to retries + 1
        invariant attempt <= retries
        invariant sent == Repeat(call, attempt)
        invariant delays == Delays(attempt)
        invariant forall i :: 0 <= i < attempt ==> Transient(outcomes[i])
      {
        RepeatSnoc(call, attempt);
        sent := sent + [call];
        match outcomes[attempt] {
          case NetErr(message) =>
            lastExc := Some(message);
            if attempt >= retries {
              result := Err(Failure(NetworkError, message));
              ExpectedAt(call, retries, outcomes, attempt);
              return;
            }
            DelaysSnoc(attempt);
            delays := delays + [Backoff(attempt)];
          case Resp(resp) =>
            if resp.status >= 500 && attempt < retries {
              DelaysSnoc(attempt);
              delays := delays + [Backoff(attempt)];
            } else {
              result := RaiseForStatus(resp);
              ExpectedAt(call, retries, outcomes, attempt);
              return;
            }
        }
      }
      // The fallback after the loop: every iteration returns or retries, and
      // the last one cannot retry, so control never gets here.
      assert false;
      result := Err(Failure(NetworkError, lastExc.GetOr("Request failed")));
    }

    method Get(path: string, outcomes: seq<Attempt>)
      returns (result: Result<Response, Failure>, sent: seq<Call>, delays: seq<nat>)
      requires retries < |outcomes|
      ensures Trace(result, sent, delays) == Expected(Call("GET", NormalizePath(path)), retries, outcomes)
    {
      UpperIdentity("GET");
      result, sent, delays := Request("GET", path, outcomes);
    }

    method Post(path: string, outcomes: seq<Attempt>)
      returns (result: Result<Response, Failure>, sent: seq<Call>, delays: seq<nat>)
      requires retries < |outcomes|
      ensures Trace(result, sent, delays) == Expected(Call("POST", NormalizePath(path)), retries, outcomes)
    {
      UpperIdentity("POST");
      result, sent, delays := Request("POST", path, outcomes);
    }

    method Delete(path: string, outcomes: seq<Attempt>)
      returns (result: Result<Response, Failure>, sent: seq<Call>, delays: seq<nat>)
      requires retries < |outcomes|
      ensures Trace(result, sent, delays) == Expected(Call("DELETE", NormalizePath(path)), retries, outcomes)
    {
      UpperIdentity("DELETE");
      result, sent, delays := Request("DELETE", path, outcomes);
    }

    method Patch(path: string, outcomes: seq<Attempt>)
      returns (result: Result<Response, Failure>, sent: seq<Call>, delays: seq<nat>)
      requires retries < |outcomes|
      ensures Trace(result, sent, delays) == Expected(Call("PATCH", NormalizePath(path)), retries, outcomes)
    {
      UpperIdentity("PATCH");
      result, sent, delays := Request("PATCH", path, outcomes);
    }

    method Put(path: string, outcomes: seq<Attempt>)
      returns (result: Result<Response, Failure>, sent: seq<Call>, delays: seq<nat>)
      requires retries < |outcomes|
      ensures Trace(result, sent, delays) == Expected(Call("PUT", NormalizePath(path)), retries, outcomes)
    {
      UpperIdentity("PUT");
      result, sent, delays := Request("PUT", path, outcomes);
    }
  }
}
