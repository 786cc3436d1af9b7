/** The ingress session manager: it derives the Home Assistant websocket URL
    from the Grocy API URL, runs the `auth_required` / `auth` / `auth_ok`
    handshake, asks the supervisor for an ingress session token, and renews
    that token when its age, as `timedelta.seconds` reports it, exceeds 60.

    The socket is a scripted inbound queue and an outbound log; the clock is
    an injected `now` in whole seconds; the lock is modelled by treating each
    call as one atomic step. Each operation is first a function on a
    `Session` value, then a method of `SessionManager` proved equal to it. */
module HaSession {
  import opened Common

  const IngressMarker := "/api/hassio_ingress"
  const WebSocketPath := "/api/websocket"
  const FreshnessWindow := 60
  const SecondsPerDay := 86400

  // ---------------------------------------------------------------------
  // Websocket URL derivation
  // ---------------------------------------------------------------------

  /** `s.split(sep)[0]`: the text before the first occurrence of `sep`, or
      all of `s` when `sep` does not occur. */
  function BeforeFirst(s: string, sep: string): (r: string)
    requires |sep| > 0
    ensures r <= s
    ensures forall i: nat :: i < |r| ==> !OccursAt(s, i, sep)
    ensures |r| == |s| || OccursAt(s, |r|, sep)
    decreases |s|
  {
    if |s| < |sep| then s
    else if s[..|sep|] == sep then ""
    else
      var rest := BeforeFirst(s[1..], sep);
      OccursShift(s, sep);
      assert !OccursAt(s, 0, sep);
      assert [s[0]] + rest <= [s[0]] + s[1..] == s;
      [s[0]] + rest
  }

  /** An occurrence in `s[1..]` is an occurrence in `s`, one place later. */
  lemma OccursShift(s: string, sep: string)
    requires |s| > 0
    ensures forall i: nat :: OccursAt(s[1..], i, sep) <==> OccursAt(s, i + 1, sep)
    ensures forall i: nat :: 0 < i ==> (OccursAt(s, i, sep) <==> OccursAt(s[1..], i - 1, sep))
  {
    forall i: nat ensures OccursAt(s[1..], i, sep) <==> OccursAt(s, i + 1, sep) {
      if i + |sep| <= |s[1..]| {
        assert s[1..][i..i + |sep|] == s[i + 1..i + 1 + |sep|];
      }
    }
  }

  /** `s.replace(pat, rep)`: every occurrence of `pat`, found left to right
      without overlap, is replaced by `rep`. */
  function ReplaceAll(s: string, pat: string, rep: string): (r: string)
    requires |pat| > 0
    ensures !Contains(s, pat) ==> r == s
    decreases |s|
  {
    if |s| < |pat| then s
    else if s[..|pat|] == pat then
      assert OccursAt(s, 0, pat);
      rep + ReplaceAll(s[|pat|..], pat, rep)
    else
      var rest := ReplaceAll(s[1..], pat, rep);
      OccursShift(s, pat);
      [s[0]] + rest
  }

  /** The websocket URL of `connect_websocket`: the API URL up to the ingress
      path, with its scheme turned into a websocket scheme, then the
      websocket API path. */
  function WebSocketUrl(apiUrl: string): (r: string)
    ensures |r| >= |WebSocketPath| && r[|r| - |WebSocketPath|..] == WebSocketPath
  {
    var base := BeforeFirst(apiUrl, IngressMarker);
    var ws := ReplaceAll(ReplaceAll(base, "http://", "ws://"), "https://", "wss://");
    ws + WebSocketPath
  }

  /** A prefix none of whose characters starts `pat`, followed by text free
      of `pat`, is free of `pat`. */
  lemma NoSchemeIn(prefix: string, host: string, pat: string)
    requires |pat| > 0
    requires forall i :: 0 <= i < |prefix| ==> prefix[i] != pat[0]
    requires !Contains(host, pat)
    ensures !Contains(prefix + host, pat)
  {
    var s := prefix + host;
    forall i: nat ensures !OccursAt(s, i, pat) {
      if i + |pat| > |s| {
      } else if i < |prefix| {
        assert s[i..i + |pat|][0] == prefix[i];
      } else {
        assert s[i..i + |pat|] == host[i - |prefix|..i - |prefix| + |pat|];
        assert !OccursAt(host, i - |prefix|, pat);
      }
    }
  }

  /** No proper suffix of the ingress marker is a prefix of it, so an
      occurrence of the marker cannot overlap the start of another. */
  lemma MarkerHasNoBorder()
    ensures forall d :: 0 < d < |IngressMarker| ==>
      IngressMarker[d] != '/' || (d + 1 < |IngressMarker| && IngressMarker[d + 1] != 'a')
  {
  }

  /** Splitting `base + IngressMarker + rest` at the marker gives `base` back
      when `base` holds no marker. */
  lemma BeforeFirstOfMarked(base: string, rest: string)
    requires !Contains(base, IngressMarker)
    ensures BeforeFirst(base + IngressMarker + rest, IngressMarker) == base
  {
    var s := base + IngressMarker + rest;
    var n := |IngressMarker|;
    assert s[|base|..|base| + n] == IngressMarker;
    forall p: nat | p < |base| ensures !OccursAt(s, p, IngressMarker) {
      if p + n <= |base| {
        assert s[p..p + n] == base[p..p + n];
        assert !OccursAt(base, p, IngressMarker);
      } else if p + n <= |s| {
        var d := |base| - p;
        MarkerHasNoBorder();
        assert s[p..p + n][d] == s[|base|] == IngressMarker[0];
        if d + 1 < n {
          assert s[p..p + n][d + 1] == s[|base| + 1] == IngressMarker[1];
        }
      }
    }
    assert OccursAt(s, |base|, IngressMarker);
    var r := BeforeFirst(s, IngressMarker);
    assert |r| == |base|;
    assert r == s[..|base|] == base;
  }

  /** `replace` on a string that starts with the pattern and holds it nowhere
      else replaces just that occurrence. */
  lemma ReplaceLeading(pat: string, rep: string, host: string)
    requires |pat| > 0
    requires !Contains(host, pat)
    ensures ReplaceAll(pat + host, pat, rep) == rep + host
  {
    var s := pat + host;
    assert s[..|pat|] == pat;
    assert s[|pat|..] == host;
  }

  /** The URL an `http://` ingress URL leads to. */
  lemma {:induction false} WebSocketUrlOfHttp(host: string, rest: string)
    requires !Contains("http://" + host, IngressMarker)
    requires !Contains(host, "http://") && !Contains(host, "https://")
    ensures WebSocketUrl("http://" + host + IngressMarker + rest) == "ws://" + host + WebSocketPath
  {
    BeforeFirstOfMarked("http://" + host, rest);
    assert "http://" + host + IngressMarker + rest == ("http://" + host) + IngressMarker + rest;
    ReplaceLeading("http://", "ws://", host);
    NoSchemeIn("ws://", host, "https://");
  }

  /** The URL an `https://` ingress URL leads to. */
  lemma {:induction false} WebSocketUrlOfHttps(host: string, rest: string)
    requires !Contains("https://" + host, IngressMarker)
    requires !Contains(host, "http://") && !Contains(host, "https://")
    ensures WebSocketUrl("https://" + host + IngressMarker + rest) == "wss://" + host + WebSocketPath
  {
    BeforeFirstOfMarked("https://" + host, rest);
    assert "https://" + host + IngressMarker + rest == ("https://" + host) + IngressMarker + rest;
    NoHttpInHttps(host);
    ReplaceLeading("https://", "wss://", host);
  }

  /** "https://" followed by a host free of "http://" holds no "http://". */
  lemma NoHttpInHttps(host: string)
    requires !Contains(host, "http://")
    ensures !Contains("https://" + host, "http://")
  {
    var s := "https://" + host;
    forall i: nat ensures !OccursAt(s, i, "http://") {
      if i + 7 > |s| {
      } else if i == 0 {
        assert s[i..i + 7][4] == 's';
      } else if i < 8 {
        assert s[i..i + 7][0] == s[i] != 'h';
      } else {
        assert s[i..i + 7] == host[i - 8..i - 8 + 7];
        assert !OccursAt(host, i - 8, "http://");
      }
    }
  }

  // ---------------------------------------------------------------------
  // Token age
  // ---------------------------------------------------------------------

  /** `(now - issued).seconds`: the whole-second part of a `timedelta`, which
      leaves out whole days (and, with whole-second clocks, nothing else). */
  function TokenAge(now: int, issued: int): (age: int)
    ensures 0 <= age < SecondsPerDay
  {
    (now - issued) % SecondsPerDay
  }

  /** The age keeps the seconds and drops the days of the elapsed time. */
  lemma TokenAgeDropsDays(issued: int, days: int, seconds: int)
    requires 0 <= seconds < SecondsPerDay
    ensures TokenAge(issued + days * SecondsPerDay + seconds, issued) == seconds
  {
    var e := days * SecondsPerDay + seconds;
    assert e % SecondsPerDay == seconds by {
      assert e == days * SecondsPerDay + seconds;
    }
  }

  // ---------------------------------------------------------------------
  // The session, as a value
  // ---------------------------------------------------------------------

  /** What `response["result"]["session"]` gives: it raises when the
      result or the key is missing, and otherwise yields null or a string. */
  datatype SessionField = Unreadable | NullSession | SessionText(text: string)

  /** The token a readable session field stores: null stores `None`. */
  function TokenOf(f: SessionField): Option<string>
    requires !f.Unreadable?
  {
    if f.SessionText? then Some(f.text) else None
  }

  /** A message received on the websocket: its `type`, whether `success` is
      truthy, and its session field. */
  datatype Inbound = Inbound(kind: string, success: bool, session: SessionField)

  /** A message sent on the websocket: the `auth` message, or the
      `supervisor/api` request for `/ingress/session` with method `post`. */
  datatype Outbound = Auth(accessToken: string) | SessionRequest(id: int)

  /** The four fields of the manager, the messages still to arrive and the
      messages sent. `websocket` holds the URL the socket was opened on. */
  datatype Session = Session(
    websocket: Option<string>,
    token: Option<string>,
    tokenTime: Option<int>,
    requestId: int,
    inbox: seq<Inbound>,
    outbox: seq<Outbound>)

  const ClosedReason := "connection closed"

  /** The state of a newly constructed manager. */
  function Initial(script: seq<Inbound>): Session
  {
    Session(None, None, None, 1, script, [])
  }

  /** A token never exists without its issue time, nor without a socket. */
  predicate Coherent(s: Session)
  {
    && (s.token.Some? ==> s.tokenTime.Some?)
    && (s.token.Some? ==> s.websocket.Some?)
  }

  /** Session requests carry strictly increasing ids, all below the counter. */
  predicate IdsOrdered(s: Session)
  {
    && (forall i :: 0 <= i < |s.outbox| && s.outbox[i].SessionRequest? ==> s.outbox[i].id < s.requestId)
    && (forall i, j :: 0 <= i < j < |s.outbox| && s.outbox[i].SessionRequest? && s.outbox[j].SessionRequest?
          ==> s.outbox[i].id < s.outbox[j].id)
  }

  /** The cached token is missing or older than the freshness window. */
  predicate Stale(s: Session, now: int)
    requires Coherent(s)
  {
    s.token.None? || TokenAge(now, s.tokenTime.value) > FreshnessWindow
  }

  /** `connect_websocket`: the socket is recorded before any check, then the
      greeting must be `auth_required`, one `auth` message is sent, and the
      reply must be `auth_ok`. `reachable` is false when opening the socket
      itself fails, which leaves the state as it was. */
  function Connect(s: Session, reachable: bool, apiUrl: string, haToken: string): (Session, Result<()>)
  {
    if !reachable then (s, Err(Raised("cannot open websocket")))
    else
      var s1 := s.(websocket := Some(WebSocketUrl(apiUrl)));
      if s1.inbox == [] then (s1, Err(Raised(ClosedReason)))
      else if s1.inbox[0].kind != "auth_required" then (s1.(inbox := s1.inbox[1..]), Err(Raised("Expected auth_required")))
      else
        var s2 := s1.(inbox := s1.inbox[1..], outbox := s1.outbox + [Auth(haToken)]);
        if s2.inbox == [] then (s2, Err(Raised(ClosedReason)))
        else if s2.inbox[0].kind != "auth_ok" then (s2.(inbox := s2.inbox[1..]), Err(Raised("Authentication failed")))
        else (s2.(inbox := s2.inbox[1..]), Ok(()))
  }

  /** `get_session_token`: the counter is advanced first, then the request is
      sent and one reply read; a reply with `success` and a readable session
      field sets the token (to `None` when the field is null) and its time. */
  function RequestToken(s: Session, now: int): (Session, Result<Option<string>>)
  {
    var s1 := s.(requestId := s.requestId + 1);
    if s1.websocket.None? then (s1, Err(Raised("no websocket")))
    else
      var s2 := s1.(outbox := s1.outbox + [SessionRequest(s.requestId)]);
      if s2.inbox == [] then (s2, Err(Raised(ClosedReason)))
      else
        var m := s2.inbox[0];
        var s3 := s2.(inbox := s2.inbox[1..]);
        if !m.success then (s3, Err(Raised("Failed to get session token")))
        else if m.session.Unreadable? then (s3, Err(Raised("KeyError: session")))
        else (s3.(token := TokenOf(m.session), tokenTime := Some(now)), Ok(TokenOf(m.session)))
  }

  /** `ensure_valid_token`: connect when there is no socket, renew when the
      token is stale, and return the cached token. */
  function EnsureValid(s: Session, now: int, reachable: bool, apiUrl: string, haToken: string): (Session, Result<Option<string>>)
    requires Coherent(s)
  {
    var (s1, c) := if s.websocket.None? then Connect(s, reachable, apiUrl, haToken) else (s, Ok(()));
    if c.Err? then (s1, Err(c.failure))
    else if Stale(s1, now) then RequestToken(s1, now)
    else (s1, Ok(s1.token))
  }

  // ---------------------------------------------------------------------
  // Properties of the session
  // ---------------------------------------------------------------------

  /** The handshake succeeds exactly when the socket opens, the greeting is
      `auth_required` and the reply is `auth_ok`; one `auth` message carrying
      the long-lived token is sent exactly when the greeting was right; and
      once the socket opened it stays recorded, whatever the handshake did. */
  lemma ConnectOutcome(s: Session, reachable: bool, apiUrl: string, haToken: string)
    ensures var (t, r) := Connect(s, reachable, apiUrl, haToken);
      && (r.Ok? <==> reachable && |s.inbox| >= 2 && s.inbox[0].kind == "auth_required" && s.inbox[1].kind == "auth_ok")
      && t.outbox == s.outbox + (if reachable && |s.inbox| >= 1 && s.inbox[0].kind == "auth_required" then [Auth(haToken)] else [])
      && t.websocket == (if reachable then Some(WebSocketUrl(apiUrl)) else s.websocket)
      && t.token == s.token && t.tokenTime == s.tokenTime && t.requestId == s.requestId
  {
  }

  /** A session request uses the current id and consumes it whatever the
      reply; a failed renewal leaves the token and its time untouched; a
      successful one stores the session (`None` when it is null), stamps it
      with `now` and returns it. */
  lemma RequestTokenOutcome(s: Session, now: int)
    ensures var (t, r) := RequestToken(s, now);
      && t.requestId == s.requestId + 1
      && t.outbox == s.outbox + (if s.websocket.Some? then [SessionRequest(s.requestId)] else [])
      && (r.Err? ==> t.token == s.token && t.tokenTime == s.tokenTime)
      && (r.Ok? <==> s.websocket.Some? && |s.inbox| >= 1 && s.inbox[0].success && !s.inbox[0].session.Unreadable?)
      && (r.Ok? ==> t.token == r.value && t.tokenTime == Some(now) && r.value == TokenOf(s.inbox[0].session))
  {
  }

  /** A call renews (and so consumes a request id) if and only if it has, or
      gets, a handshaken socket and the token is stale. */
  lemma RenewsIffStale(s: Session, now: int, reachable: bool, apiUrl: string, haToken: string)
    requires Coherent(s)
    ensures var (t, _) := EnsureValid(s, now, reachable, apiUrl, haToken);
      var connected := s.websocket.Some? || Connect(s, reachable, apiUrl, haToken).1.Ok?;
      t.requestId == s.requestId + (if connected && Stale(s, now) then 1 else 0)
  {
  }

  /** With a socket and a fresh token, a call returns the cached token and
      changes nothing at all: nothing is sent and no id is consumed. */
  lemma FreshTokenIsReused(s: Session, now: int, reachable: bool, apiUrl: string, haToken: string)
    requires Coherent(s) && s.websocket.Some? && !Stale(s, now)
    ensures EnsureValid(s, now, reachable, apiUrl, haToken) == (s, Ok(s.token))
  {
  }

  /** A call connects at most once and renews at most once: it sends at most
      an `auth` message followed by at most one session request. When it
      returns normally, what it returned is the cached token. */
  lemma AtMostOneConnectAndRenewal(s: Session, now: int, reachable: bool, apiUrl: string, haToken: string)
    requires Coherent(s)
    ensures var (t, r) := EnsureValid(s, now, reachable, apiUrl, haToken);
      && (t.outbox == s.outbox || t.outbox == s.outbox + [Auth(haToken)]
          || t.outbox == s.outbox + [SessionRequest(s.requestId)]
          || t.outbox == s.outbox + [Auth(haToken), SessionRequest(s.requestId)])
      && (r.Ok? ==> t.token == r.value)
  {
    var (s1, c) := if s.websocket.None? then Connect(s, reachable, apiUrl, haToken) else (s, Ok(()));
    ConnectOutcome(s, reachable, apiUrl, haToken);
    if c.Ok? && Stale(s1, now) {
      RequestTokenOutcome(s1, now);
      assert s.outbox + [Auth(haToken)] + [SessionRequest(s.requestId)]
          == s.outbox + [Auth(haToken), SessionRequest(s.requestId)];
    }
  }

  /** The call preserves the coherence of the fields and keeps the ids of the
      session requests strictly increasing. */
  lemma {:induction false} EnsureValidPreserves(s: Session, now: int, reachable: bool, apiUrl: string, haToken: string)
    requires Coherent(s) && IdsOrdered(s)
    ensures var t := EnsureValid(s, now, reachable, apiUrl, haToken).0;
      Coherent(t) && IdsOrdered(t) && t.requestId >= s.requestId
  {
    var (s1, c) := if s.websocket.None? then Connect(s, reachable, apiUrl, haToken) else (s, Ok(()));
    ConnectOutcome(s, reachable, apiUrl, haToken);
    AuthKeepsOrder(s, s1, haToken);
    if c.Ok? && Stale(s1, now) {
      var t := RequestToken(s1, now).0;
      RequestTokenOutcome(s1, now);
      if s1.websocket.Some? {
        SessionRequestKeepsOrder(s1, t);
      }
    }
  }

  /** Sending the `auth` message leaves the session requests as they were. */
  lemma AuthKeepsOrder(s: Session, t: Session, haToken: string)
    requires IdsOrdered(s) && t.requestId == s.requestId
    requires t.outbox == s.outbox || t.outbox == s.outbox + [Auth(haToken)]
    ensures IdsOrdered(t)
  {
    assert forall i :: 0 <= i < |s.outbox| ==> t.outbox[i] == s.outbox[i];
  }

  /** Sending one session request with the current counter, and advancing
      the counter, keeps the ids ordered. */
  lemma SessionRequestKeepsOrder(s: Session, t: Session)
    requires IdsOrdered(s)
    requires t.outbox == s.outbox + [SessionRequest(s.requestId)] && t.requestId == s.requestId + 1
    ensures IdsOrdered(t)
  {
    forall i, j | 0 <= i < j < |t.outbox| && t.outbox[i].SessionRequest? && t.outbox[j].SessionRequest?
      ensures t.outbox[i].id < t.outbox[j].id
    {
      if j == |t.outbox| - 1 {
        assert t.outbox[i] == s.outbox[i];
      } else {
        assert t.outbox[i] == s.outbox[i] && t.outbox[j] == s.outbox[j];
      }
    }
    forall i | 0 <= i < |t.outbox| && t.outbox[i].SessionRequest?
      ensures t.outbox[i].id < t.requestId
    {
      if i < |s.outbox| {
        assert t.outbox[i] == s.outbox[i];
      }
    }
  }

  /** A handshake whose greeting is not `auth_required` fails, produces no
      token and sends nothing, yet records the socket; so the next call does
      not reconnect: it goes straight to a session request on that socket. */
  lemma {:induction false} FailedHandshakeIsNotRetried(script: seq<Inbound>, now: int, later: int, apiUrl: string, haToken: string)
    requires |script| >= 1 && script[0].kind != "auth_required"
    ensures var (t, r) := EnsureValid(Initial(script), now, true, apiUrl, haToken);
      && r.Err? && t.token.None? && t.outbox == [] && t.websocket.Some?
      && EnsureValid(t, later, true, apiUrl, haToken).0.outbox == [SessionRequest(1)]
  {
    var (t, r) := EnsureValid(Initial(script), now, true, apiUrl, haToken);
    assert t == Initial(script).(websocket := Some(WebSocketUrl(apiUrl)), inbox := script[1..]);
    RequestTokenOutcome(t, later);
  }

  /** Exactly 60 seconds, or one day and 30 seconds, is not stale; 61
      seconds, or one day and 61 seconds, is. */
  lemma StalenessBoundary(s: Session, issued: int)
    requires s.token.Some? && s.tokenTime == Some(issued) && s.websocket.Some?
    ensures !Stale(s, issued + 60)
    ensures !Stale(s, issued + SecondsPerDay + 30)
    ensures Stale(s, issued + 61)
    ensures Stale(s, issued + SecondsPerDay + 61)
  {
    TokenAgeDropsDays(issued, 0, 60);
    TokenAgeDropsDays(issued, 1, 30);
    TokenAgeDropsDays(issued, 0, 61);
    TokenAgeDropsDays(issued, 1, 61);
  }

  /** A token 45 seconds old is returned unchanged; one 75 seconds old is
      replaced by a single renewal round trip, and the new token is stamped
      with the time of the call. */
  lemma FreshnessScenario(s: Session, issued: int, renewed: string, apiUrl: string, haToken: string)
    requires Coherent(s) && s.websocket.Some? && s.token.Some? && s.tokenTime == Some(issued)
    requires |s.inbox| >= 1 && s.inbox[0] == Inbound("result", true, SessionText(renewed))
    ensures EnsureValid(s, issued + 45, true, apiUrl, haToken) == (s, Ok(s.token))
    ensures var (t, r) := EnsureValid(s, issued + 75, true, apiUrl, haToken);
      && r == Ok(Some(renewed)) && t.token == Some(renewed) && t.tokenTime == Some(issued + 75)
      && t.outbox == s.outbox + [SessionRequest(s.requestId)]
      && TokenAge(issued + 75, t.tokenTime.value) == 0
  {
    TokenAgeDropsDays(issued, 0, 45);
    TokenAgeDropsDays(issued, 0, 75);
  }

  /** A successful reply whose session is null does not raise: the call
      returns `None`, caches `None` stamped with the time of the call, and the
      very next call renews again with the next request id. */
  lemma {:induction false} NullSessionIsReturned(s: Session, now: int, later: int, apiUrl: string, haToken: string)
    requires Coherent(s) && s.websocket.Some? && Stale(s, now)
    requires |s.inbox| >= 1 && s.inbox[0].success && s.inbox[0].session == NullSession
    ensures var (t, r) := EnsureValid(s, now, true, apiUrl, haToken);
      && r == Ok(None) && t.token.None? && t.tokenTime == Some(now)
      && EnsureValid(t, later, true, apiUrl, haToken).0.outbox
         == s.outbox + [SessionRequest(s.requestId), SessionRequest(s.requestId + 1)]
  {
    var t := EnsureValid(s, now, true, apiUrl, haToken).0;
    RequestTokenOutcome(s, now);
    RequestTokenOutcome(t, later);
  }

  // ---------------------------------------------------------------------
  // The manager object
  // ---------------------------------------------------------------------

  /** `HASessionManager`: each method is one atomic step under the lock. */
  class SessionManager {
    const apiUrl: string
    const haToken: string
    var websocket: Option<string>
    var sessionToken: Option<string>
    var sessionTokenTime: Option<int>
    var requestId: int
    /** Messages the peer will send, in order. */
    var inbox: seq<Inbound>
    /** Messages sent so far, in order. */
    var outbox: seq<Outbound>

    function State(): Session
      reads this
    {
      Session(websocket, sessionToken, sessionTokenTime, requestId, inbox, outbox)
    }

    ghost predicate Valid()
      reads this
    {
      && Coherent(State())
      && IdsOrdered(State())
      && (websocket.Some? ==> websocket.value == WebSocketUrl(apiUrl))
    }

    constructor (apiUrl: string, haToken: string, script: seq<Inbound>)
      ensures Valid()
      ensures this.apiUrl == apiUrl && this.haToken == haToken
      ensures State() == Initial(script)
    {
      this.apiUrl := apiUrl;
      this.haToken := haToken;
      websocket := None;
      sessionToken := None;
      sessionTokenTime := None;
      requestId := 1;
      inbox := script;
      outbox := [];
    }

    /** `await websocket.recv()`: the next scripted message, or none when the
        peer has closed the connection. */
    method Recv() returns (m: Option<Inbound>)
      modifies this`inbox
      ensures m.Some? <==> old(inbox) != []
      ensures m.Some? ==> m.value == old(inbox)[0] && inbox == old(inbox)[1..]
      ensures m.None? ==> inbox == old(inbox)
    {
      if inbox == [] {
        m := None;
      } else {
        m := Some(inbox[0]);
        inbox := inbox[1..];
      }
    }

    method ConnectWebsocket(reachable: bool) returns (r: Result<()>)
      modifies this
      ensures (State(), r) == Connect(old(State()), reachable, apiUrl, haToken)
    {
      if !reachable {
        return Err(Raised("cannot open websocket"));
      }
      websocket := Some(WebSocketUrl(apiUrl));
      var greeting := Recv();
      if greeting.None? {
        return Err(Raised(ClosedReason));
      }
      if greeting.value.kind != "auth_required" {
        return Err(Raised("Expected auth_required"));
      }
      outbox := outbox + [Auth(haToken)];
      var reply := Recv();
      if reply.None? {
        return Err(Raised(ClosedReason));
      }
      if reply.value.kind != "auth_ok" {
        return Err(Raised("Authentication failed"));
      }
      r := Ok(());
    }

    method GetSessionToken(now: int) returns (r: Result<Option<string>>)
      modifies this
      ensures (State(), r) == RequestToken(old(State()), now)
    {
      var id := requestId;
      requestId := requestId + 1;
      if websocket.None? {
        return Err(Raised("no websocket"));
      }
      outbox := outbox + [SessionRequest(id)];
      var response := Recv();
      if response.None? {
        return Err(Raised(ClosedReason));
      }
      if !response.value.success {
        return Err(Raised("Failed to get session token"));
      }
      if response.value.session.Unreadable? {
        return Err(Raised("KeyError: session"));
      }
      sessionToken := TokenOf(response.value.session);
      sessionTokenTime := Some(now);
      r := Ok(sessionToken);
    }

    method EnsureValidToken(now: int, reachable: bool) returns (r: Result<Option<string>>)
      requires Valid()
      modifies this
      ensures Valid()
      ensures (State(), r) == EnsureValid(old(State()), now, reachable, apiUrl, haToken)
    {
      EnsureValidPreserves(State(), now, reachable, apiUrl, haToken);
      if websocket.None? {
        var c := ConnectWebsocket(reachable);
        if c.Err? {
          return Err(c.failure);
        }
      }
      if sessionToken.None? || TokenAge(now, sessionTokenTime.value) > FreshnessWindow {
        r := GetSessionToken(now);
        if r.Err? {
          return;
        }
      }
      r := Ok(sessionToken);
    }
  }
}
