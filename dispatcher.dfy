/** The request dispatcher of `GrocyRepository`: it joins the base URL and
    the endpoint, fetches one session token, builds the headers once, and
    makes up to three attempts, retrying a 5xx status on the first two
    attempts and any other exception (network fault, timeout, an unreadable
    JSON body) likewise, while any other status is logged and raised at once.

    The HTTP client is a function from the attempt number (1, 2, 3) to what
    that attempt brought back. */
module Dispatcher {
  import opened Common
  import HaSession

  const MaxAttempts := 3

  datatype Verb = GET | POST | PUT | DELETE

  /** The arguments of `_request`: method, endpoint, query parameters and
      JSON body. */
  datatype ApiCall = ApiCall(verb: Verb, endpoint: string, params: Option<map<string, Json>>, data: Option<map<string, Json>>)

  /** One HTTP request as sent on the wire. */
  datatype HttpRequest = HttpRequest(
    verb: Verb,
    url: string,
    headers: map<string, string>,
    params: Option<map<string, Json>>,
    body: Option<map<string, Json>>)

  /** What one attempt brought back: a response with its status and its body
      when that body parses as JSON, or a network-level exception. */
  datatype Exchange = Responded(status: int, body: Option<Json>) | NetworkError

  /** The diagnostic printed before an HTTP status error is raised. */
  datatype ErrorLog = ErrorLog(verb: Verb, url: string, status: int)

  // ---------------------------------------------------------------------
  // URL joining
  // ---------------------------------------------------------------------

  /** `s.rstrip("/")`. */
  function RStripSlash(s: string): (r: string)
    ensures r <= s
    ensures forall i :: |r| <= i < |s| ==> s[i] == '/'
    ensures r == [] || r[|r| - 1] != '/'
  {
    if s != [] && s[|s| - 1] == '/' then RStripSlash(s[..|s| - 1]) else s
  }

  /** `s.lstrip("/")`. */
  function LStripSlash(s: string): (r: string)
    ensures |r| <= |s| && r == s[|s| - |r|..]
    ensures forall i :: 0 <= i < |s| - |r| ==> s[i] == '/'
    ensures r == [] || r[0] != '/'
  {
    if s != [] && s[0] == '/' then LStripSlash(s[1..]) else s
  }

  /** `f"{self._base_url}/{endpoint.lstrip('/')}"`, where `_base_url` is
      the configured API URL with trailing slashes stripped. */
  function RequestUrl(baseUrl: string, endpoint: string): string
  {
    baseUrl + "/" + LStripSlash(endpoint)
  }

  /** The request URL is the API URL without its trailing slashes, exactly
      one slash, and the endpoint without its leading slashes: the seam never
      has a slash doubled or missing. */
  lemma RequestUrlSeam(apiUrl: string, endpoint: string)
    ensures var base := RStripSlash(apiUrl);
      var url := RequestUrl(base, endpoint);
      var k := |base|;
      && k < |url| && url[k] == '/'
      && url[..k] == base && base <= apiUrl
      && (k == 0 || url[k - 1] != '/')
      && (k + 1 == |url| || url[k + 1] != '/')
      && url[k + 1..] == LStripSlash(endpoint)
  {
    var base := RStripSlash(apiUrl);
    var url := RequestUrl(base, endpoint);
    assert url[..|base|] == base;
    assert url[|base| + 1..] == LStripSlash(endpoint);
  }

  /** Slashes added at the seam, on either side, do not change the URL. */
  lemma {:induction false} ExtraSlashesIgnored(apiUrl: string, endpoint: string)
    ensures RequestUrl(RStripSlash(apiUrl + "/"), endpoint) == RequestUrl(RStripSlash(apiUrl), endpoint)
    ensures RequestUrl(RStripSlash(apiUrl), "/" + endpoint) == RequestUrl(RStripSlash(apiUrl), endpoint)
  {
    assert (apiUrl + "/")[..|apiUrl|] == apiUrl;
    assert ("/" + endpoint)[1..] == endpoint;
  }

  // ---------------------------------------------------------------------
  // The retry pipeline, as a function
  // ---------------------------------------------------------------------

  /** What the loop does with attempt number `attempt`: return or raise now,
      or try again. */
  datatype Step = Finish(reply: Reply) | Retry

  /** A 2xx response whose body parses is returned; a 2xx whose body does not
      parse, or a network error, is an ordinary exception; any other status
      is an HTTP status error. Exceptions are retried while fewer than three
      attempts were made, status errors only when the status is a 5xx. */
  function Classify(e: Exchange, attempt: nat): (s: Step)
    ensures s.Retry? ==> attempt < MaxAttempts
  {
    match e
    case Responded(status, body) =>
      if 200 <= status < 300 then
        if body.Some? then Finish(Ok(body.value))
        else if attempt < MaxAttempts then Retry
        else Finish(Err(Raised("invalid JSON body")))
      else if 500 <= status < 600 && attempt < MaxAttempts then Retry
      else Finish(Err(HttpStatus(status)))
    case NetworkError =>
      if attempt < MaxAttempts then Retry else Finish(Err(Raised("network error")))
  }

  /** The outcome of the whole loop and how many attempts it made. */
  datatype Dispatch = Dispatch(reply: Reply, attempts: nat)

  /** The loop from attempt number `attempt` on. */
  function Run(client: nat -> Exchange, attempt: nat): (d: Dispatch)
    requires 1 <= attempt <= MaxAttempts
    ensures attempt <= d.attempts <= MaxAttempts
    ensures Classify(client(d.attempts), d.attempts) == Finish(d.reply)
    decreases MaxAttempts - attempt
  {
    match Classify(client(attempt), attempt)
    case Finish(reply) => Dispatch(reply, attempt)
    case Retry => Run(client, attempt + 1)
  }

  /** Whether an attempt is retried, stated without `Classify`'s structure. */
  predicate Retried(e: Exchange, attempt: nat)
  {
    && attempt < MaxAttempts
    && (e.NetworkError? || 500 <= e.status < 600 || (200 <= e.status < 300 && e.body.None?))
  }

  lemma ClassifyRetriesIff(e: Exchange, attempt: nat)
    ensures Classify(e, attempt).Retry? <==> Retried(e, attempt)
  {
  }

  /** The loop stops at the first attempt that is not retried, and only
      there: it makes exactly `n` attempts if and only if attempts 1 to n-1
      were retried and attempt `n` was not; the outcome is attempt `n`'s. */
  lemma {:induction false} RunStopsAtFirstFinish(client: nat -> Exchange, n: nat)
    requires 1 <= n <= MaxAttempts
    ensures Run(client, 1).attempts == n <==>
      (forall j :: 1 <= j < n ==> Retried(client(j), j)) && !Retried(client(n), n)
    ensures Run(client, 1).attempts == n ==> Classify(client(n), n) == Finish(Run(client, 1).reply)
  {
    ClassifyRetriesIff(client(1), 1);
    ClassifyRetriesIff(client(2), 2);
    ClassifyRetriesIff(client(3), 3);
    ClassifyRetriesIff(client(n), n);
    assert Run(client, 3).attempts == 3;
  }

  /** A success on attempt `k` after `k - 1` retried attempts returns the
      parsed body, and no attempt follows it. */
  lemma SuccessOnAttempt(client: nat -> Exchange, k: nat, status: int, body: Json)
    requires 1 <= k <= MaxAttempts
    requires forall j :: 1 <= j < k ==> Retried(client(j), j)
    requires client(k) == Responded(status, Some(body)) && 200 <= status < 300
    ensures Run(client, 1) == Dispatch(Ok(body), k)
  {
    RunStopsAtFirstFinish(client, k);
  }

  /** An upstream that answers 503 every time gets exactly three attempts and
      the 503 is raised. */
  lemma AlwaysUnavailable(client: nat -> Exchange)
    requires forall j :: client(j).Responded? && client(j).status == 503
    ensures Run(client, 1) == Dispatch(Err(HttpStatus(503)), 3)
  {
    RunStopsAtFirstFinish(client, 3);
  }

  /** A 404 on the first attempt is raised after that one attempt. */
  lemma ClientErrorNotRetried(client: nat -> Exchange)
    requires client(1).Responded? && client(1).status == 404
    ensures Run(client, 1) == Dispatch(Err(HttpStatus(404)), 1)
  {
    RunStopsAtFirstFinish(client, 1);
  }

  /** Any non-2xx status other than a 5xx is raised after one attempt. */
  lemma NonServerErrorNotRetried(client: nat -> Exchange, status: int)
    requires client(1).Responded? && client(1).status == status
    requires !(200 <= status < 300) && !(500 <= status < 600)
    ensures Run(client, 1) == Dispatch(Err(HttpStatus(status)), 1)
  {
    RunStopsAtFirstFinish(client, 1);
  }

  /** A 2xx response whose body never parses is sent three times and the
      decoding exception is raised: for an endpoint that answers with an
      empty body, the request is repeated. */
  lemma UnreadableBodyIsResent(client: nat -> Exchange)
    requires forall j :: client(j) == Responded(204, None)
    ensures Run(client, 1) == Dispatch(Err(Raised("invalid JSON body")), 3)
  {
    RunStopsAtFirstFinish(client, 3);
  }

  // ---------------------------------------------------------------------
  // The retry loop
  // ---------------------------------------------------------------------

  /** `f"{token}"`: a `None` token renders as the text `None`. */
  function TokenText(token: Option<string>): string
  {
    if token.Some? then token.value else "None"
  }

  /** The headers of every attempt of one call. */
  function Headers(token: Option<string>, apiKey: string): map<string, string>
  {
    map["Cookie" := "ingress_session=" + TokenText(token),
        "GROCY-API-KEY" := apiKey,
        "Content-Type" := "application/json",
        "Accept" := "application/json"]
  }

  /** The `while attempt < 3` loop of `_request`: every path returns or
      raises inside the loop, so the statements after it are unreachable. */
  method SendWithRetry(request: HttpRequest, client: nat -> Exchange)
    returns (reply: Reply, sent: seq<HttpRequest>, log: seq<ErrorLog>)
    ensures Run(client, 1) == Dispatch(reply, |sent|)
    ensures forall i :: 0 <= i < |sent| ==> sent[i] == request
    ensures log == if reply.Err? && reply.failure.HttpStatus?
                   then [ErrorLog(request.verb, request.url, reply.failure.code)] else []
  {
    var attempt := 0;
    sent := [];
    while attempt < MaxAttempts
      invariant 0 <= attempt < MaxAttempts
      invariant |sent| == attempt
      invariant forall i :: 0 <= i < |sent| ==> sent[i] == request
      invariant Run(client, 1) == Run(client, attempt + 1)
    {
      attempt := attempt + 1;
      sent := sent + [request];
      match client(attempt)
      case Responded(status, body) =>
        if 200 <= status < 300 {
          if body.Some? {
            return Ok(body.value), sent, [];
          }
          // `response.json()` raised: the generic handler takes it.
          if attempt < MaxAttempts {
            continue;
          }
          return Err(Raised("invalid JSON body")), sent, [];
        }
        if 500 <= status < 600 && attempt < MaxAttempts {
          continue;
        }
        log := [ErrorLog(request.verb, request.url, status)];
        return Err(HttpStatus(status)), sent, log;
      case NetworkError =>
        if attempt < MaxAttempts {
          continue;
        }
        return Err(Raised("network error")), sent, [];
    }
    assert false;
  }

  // ---------------------------------------------------------------------
  // The repository's request entry point
  // ---------------------------------------------------------------------

  /** `GrocyRepository`, as far as `_request` uses it. */
  class GrocyRepository {
    const baseUrl: string
    const apiKey: string
    const session: HaSession.SessionManager

    /** Both the repository and the session manager are built from the same
        configured API URL. */
    constructor (apiUrl: string, apiKey: string, session: HaSession.SessionManager)
      requires session.apiUrl == apiUrl
      ensures baseUrl == RStripSlash(apiUrl) && this.apiKey == apiKey && this.session == session
      ensures baseUrl == RStripSlash(session.apiUrl)
    {
      baseUrl := RStripSlash(apiUrl);
      this.apiKey := apiKey;
      this.session := session;
    }

    /** `_request`: one token, fetched before the loop (its failure
        propagates and nothing is sent), then the loop with one fixed request. */
    method Request(call: ApiCall, now: int, reachable: bool, client: nat -> Exchange)
      returns (reply: Reply, sent: seq<HttpRequest>, log: seq<ErrorLog>)
      requires session.Valid()
      modifies session
      ensures session.Valid()
      ensures var (st, token) := HaSession.EnsureValid(old(session.State()), now, reachable, session.apiUrl, session.haToken);
        && session.State() == st
        && (token.Err? ==> reply == Err(token.failure) && sent == [] && log == [])
        && (token.Ok? ==>
              && Run(client, 1) == Dispatch(reply, |sent|)
              && (forall i :: 0 <= i < |sent| ==>
                    sent[i] == HttpRequest(call.verb, RequestUrl(baseUrl, call.endpoint),
                                           Headers(token.value, apiKey), call.params, call.data))
              && log == if reply.Err? && reply.failure.HttpStatus?
                        then [ErrorLog(call.verb, RequestUrl(baseUrl, call.endpoint), reply.failure.code)]
                        else [])
    {
      var url := RequestUrl(baseUrl, call.endpoint);
      var token := session.EnsureValidToken(now, reachable);
      if token.Err? {
        return Err(token.failure), [], [];
      }
      var request := HttpRequest(call.verb, url, Headers(token.value, apiKey), call.params, call.data);
      reply, sent, log := SendWithRetry(request, client);
    }
  }
}
