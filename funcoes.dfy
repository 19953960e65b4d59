/**
 * The token manager and the proxy request executor of `src/funcoes.py`.
 *
 * The Flask session becomes the field `store` of a `Session` object; the
 * clock is an integer number of seconds passed in; the authority endpoint
 * and the proxied API are replaced by the answers they give (`TokenReply`,
 * `Transport`), bundled per inbound request in a `World`. Two ghost counters
 * record how many requests the session sent to the authority and to the API.
 */
module Funcoes {
  import opened Wrappers
  import opened Json

  // The session token record, in the order get_api_token writes it.
  const AccessToken := "access_token"
  const ExpireMinutes := "expire_minutes"
  const TokenType := "token_type"
  const TokenValidade := "token_validade"
  const RecordKeys: set<string> := {AccessToken, ExpireMinutes, TokenType, TokenValidade}

  /** The body of an HTTP response: JSON, or something `response.json()` rejects. */
  datatype Body = Unparseable | Parsed(v: Value)

  /** What `requests.post` to the authority endpoint gives back. */
  datatype TokenReply =
    | TokenAnswered(status: int, text: string, body: Body)
    | TokenRaised(text: string)  // connection failure or any other exception, with str(e)

  /** get_api_token's result: the token dict, or an `(error, status)` tuple. */
  datatype TokenResult = Issued(data: Value) | Failed(error: Value, status: int)

  /** The session left behind and the result of one get_api_token call. */
  datatype Acquisition = Acquisition(session: map<string, Value>, result: TokenResult)

  /** `response.raise_for_status()` raises for client and server errors only. */
  predicate RaisesForStatus(status: int) {
    400 <= status < 600
  }

  /** `timedelta(minutes=v)` accepts an int (and a bool, which Python treats as one). */
  function Minutes(v: Value): (r: Option<int>)
    ensures r.Some? <==> v.Int? || v.Bool?
    ensures v.Int? ==> r == Some(v.i)
    ensures v == Bool(true) ==> r == Some(1)
    ensures v == Bool(false) ==> r == Some(0)
  {
    match v
    case Int(i) => Some(i)
    case Bool(b) => Some(if b then 1 else 0)
    case _ => None
  }

  const TokenErrorPrefix := "Erro inesperado ao obter token: "

  /** The failure of a KeyError or TypeError raised inside get_api_token. */
  const InternalFailure := Failed(ErrorBody(TokenErrorPrefix), 500)

  /** `'token_validade' in store` and no other key can be missing from the record. */
  predicate Consistent(store: map<string, Value>) {
    TokenValidade in store ==> RecordKeys <= store.Keys && store[TokenValidade].Int?
  }

  /** The check at the head of each round of validar_token. */
  predicate TokenValid(store: map<string, Value>, now: int) {
    TokenValidade in store && store[TokenValidade].Int? && store[TokenValidade].i > now
  }

  /** A 2xx (or other non-error) reply whose JSON is a dict holding key. */
  predicate Carries(reply: TokenReply, key: string) {
    && reply.TokenAnswered?
    && !RaisesForStatus(reply.status)
    && reply.body.Parsed?
    && reply.body.v.Obj?
    && key in reply.body.v.fields
  }

  /** The authority granted a token the proxy can record. */
  predicate Grants(reply: TokenReply) {
    && Carries(reply, AccessToken)
    && Carries(reply, ExpireMinutes)
    && Carries(reply, TokenType)
    && Minutes(reply.body.v.fields[ExpireMinutes]).Some?
  }

  /** validar_token's test of an acquisition: a dict that holds `access_token`. */
  predicate IsTokenDict(r: TokenResult) {
    r.Issued? && r.data.Obj? && AccessToken in r.data.fields
  }

  /**
   * get_api_token (src/funcoes.py:10-59) as a function of the authority's
   * reply and the clock: the session is cleared first, then the record is
   * written field by field, so a failure part-way keeps what was written.
   */
  function Acquire(reply: TokenReply, now: int): (a: Acquisition)
    // nothing from the previous session survives, and the record stays consistent
    ensures a.session.Keys <= RecordKeys && Consistent(a.session)
    ensures a.result.Issued? <==> Grants(reply)
    ensures IsTokenDict(a.result) <==> a.result.Issued?
    ensures a.result.Issued? ==>
      && a.result.data == reply.body.v
      && a.session.Keys == RecordKeys
      && a.session[AccessToken] == a.result.data.fields[AccessToken]
      && a.session[ExpireMinutes] == a.result.data.fields[ExpireMinutes]
      && a.session[TokenType] == a.result.data.fields[TokenType]
      && a.session[TokenValidade] == Int(now + 60 * Minutes(a.result.data.fields[ExpireMinutes]).value)
    // every failure, an upstream HTTP error included, is a 500 with an error dict
    ensures a.result.Failed? ==>
      a.result.status == 500 && IsErrorBody(a.result.error) && TokenValidade !in a.session
    ensures !Carries(reply, AccessToken) ==> a.session == map[] && a.result.Failed?
    ensures Carries(reply, AccessToken) && !Carries(reply, ExpireMinutes) ==>
      a.session == map[AccessToken := reply.body.v.fields[AccessToken]] && a.result.Failed?
  {
    var cleared: map<string, Value> := map[];
    match reply
    case TokenRaised(text) => Acquisition(cleared, Failed(ErrorBody(TokenErrorPrefix + text), 500))
    case TokenAnswered(status, text, body) =>
      if RaisesForStatus(status) then
        Acquisition(cleared, Failed(ErrorBody("Erro HTTP: " + Decimal(status) + " - " + text), 500))
      else if body.Unparseable? then
        Acquisition(cleared, InternalFailure)
      else if In(AccessToken, body.v) != Some(true) then
        // KeyError for a dict or list without the key, TypeError for a scalar
        Acquisition(cleared, InternalFailure)
      else if !body.v.Obj? then
        // a list or a string cannot be indexed by a key
        Acquisition(cleared, InternalFailure)
      else
        var fields := body.v.fields;
        var s1 := cleared[AccessToken := fields[AccessToken]];
        if ExpireMinutes !in fields then Acquisition(s1, InternalFailure)
        else
          var s2 := s1[ExpireMinutes := fields[ExpireMinutes]];
          if TokenType !in fields then Acquisition(s2, InternalFailure)
          else
            var s3 := s2[TokenType := fields[TokenType]];
            match Minutes(fields[ExpireMinutes])
            case None => Acquisition(s3, InternalFailure)
            case Some(m) => Acquisition(s3[TokenValidade := Int(now + 60 * m)], Issued(body.v))
  }

  /** The outcome of validar_token: its answer, the session after it, and how many acquisitions it ran. */
  datatype Validation = Validation(ok: bool, session: map<string, Value>, calls: nat)

  /**
   * validar_token (src/funcoes.py:62-74) with one acquisition reply per
   * remaining round: accept a still-valid token, else acquire; stop at the
   * first acquisition that yields a token dict.
   */
  function Validate(store: map<string, Value>, now: int, replies: seq<TokenReply>): (v: Validation)
    requires Consistent(store)
    ensures Consistent(v.session)
    ensures v.calls <= |replies|
    // zero acquisitions exactly when the token is still valid (or no round is left)
    ensures v.calls == 0 <==> TokenValid(store, now) || replies == []
    ensures v.calls == 0 ==> v.session == store && v.ok == TokenValid(store, now)
    // otherwise the answer and the session are those of the last acquisition, all earlier ones failed
    ensures v.calls > 0 ==>
      && v.session == Acquire(replies[v.calls - 1], now).session
      && v.ok == IsTokenDict(Acquire(replies[v.calls - 1], now).result)
    ensures forall i :: 0 <= i < v.calls - 1 ==> !IsTokenDict(Acquire(replies[i], now).result)
    ensures !v.ok ==> v.calls == |replies|
    ensures v.ok ==> AccessToken in v.session
    decreases |replies|
  {
    if TokenValid(store, now) then Validation(true, store, 0)
    else if replies == [] then Validation(false, store, 0)
    else
      var a := Acquire(replies[0], now);
      if IsTokenDict(a.result) then Validation(true, a.session, 1)
      else
        var rest := Validate(a.session, now, replies[1..]);
        assert forall i :: 1 <= i < rest.calls + 1 ==> replies[i] == replies[1..][i - 1];
        Validation(rest.ok, rest.session, rest.calls + 1)
  }

  /** The classes of `requests.exceptions` an exception is an instance of. */
  datatype ExceptionKind = ConnectionError | Timeout | RequestException

  /** What `requests.request` to the proxied API gives back. */
  datatype Transport =
    | Responded(status: int, body: Body)
    | Raised(kinds: set<ExceptionKind>, text: string)  // the exception's classes and str(e)

  /** The `(body, status)` pair make_api_request returns; a legacy reply may carry any JSON as status. */
  datatype Reply = Reply(body: Value, status: Value)

  /** The request make_api_request hands to `requests.request`. */
  datatype Request = Request(
    verb: string,
    url: string,
    headers: map<string, string>,
    json: Option<Value>,
    params: Option<map<string, string>>)

  /** Everything the outside world answers while one inbound request is served. */
  datatype World = World(now: int, first: TokenReply, second: TokenReply, resource: Transport)

  /** A 200 whose JSON is a list of two or more items: the legacy `[data, status]` shape. */
  predicate LegacyPair(status: int, body: Body) {
    status == 200 && body.Parsed? && body.v.List? && |body.v.items| >= 2
  }

  /** The response normalisation of make_api_request (src/funcoes.py:115-133). */
  function Normalize(status: int, body: Body): (r: Reply)
    ensures LegacyPair(status, body) ==> r == Reply(body.v.items[0], body.v.items[1])
    // apart from the legacy shape, the upstream status is kept
    ensures !LegacyPair(status, body) ==> r.status == Int(status)
    ensures !LegacyPair(status, body) && body.Parsed? ==> r.body == body.v
    ensures body.Unparseable? && status == 200 ==> r.body == Obj(map[])
    ensures body.Unparseable? && status != 200 ==> r.body == ErrorBody("Erro HTTP " + Decimal(status))
  {
    if status == 200 then
      match body
      case Parsed(v) =>
        if v.List? && |v.items| >= 2 then Reply(v.items[0], v.items[1]) else Reply(v, Int(200))
      case Unparseable => Reply(Obj(map[]), Int(200))
    else
      match body
      case Parsed(v) => Reply(v, Int(status))
      case Unparseable => Reply(ErrorBody("Erro HTTP " + Decimal(status)), Int(status))
  }

  /** The except clauses of make_api_request (src/funcoes.py:139-156), tried in order. */
  function ExceptionReply(kinds: set<ExceptionKind>, text: string): (r: Reply)
    ensures IsErrorBody(r.body)
    ensures ConnectionError in kinds ==> r.status == Int(503)
    ensures ConnectionError !in kinds && Timeout in kinds ==> r.status == Int(504)
    ensures ConnectionError !in kinds && Timeout !in kinds ==> r.status == Int(500)
  {
    if ConnectionError in kinds then
      Reply(ErrorBody("Erro de conexão com a API externa: " + text), Int(503))
    else if Timeout in kinds then
      Reply(ErrorBody("Timeout na requisição para API externa: " + text), Int(504))
    else if RequestException in kinds then
      Reply(ErrorBody("Erro de requisição com a API externa: " + text), Int(500))
    else
      Reply(ErrorBody("Erro inesperado ao processar requisição para API externa: " + text), Int(500))
  }

  /** The reply make_api_request gives once the upstream request was sent. */
  function Dispatch(t: Transport): (r: Reply)
    // a raised exception always answers an error dict, with 503, 504 or 500
    ensures t.Raised? ==> IsErrorBody(r.body) && r.status in {Int(503), Int(504), Int(500)}
    ensures t.Raised? ==> (r.status == Int(503) <==> ConnectionError in t.kinds)
    // a response keeps its status and JSON, but for the legacy pair that is unwrapped
    ensures t.Responded? && LegacyPair(t.status, t.body) ==> r == Reply(t.body.v.items[0], t.body.v.items[1])
    ensures t.Responded? && !LegacyPair(t.status, t.body) ==> r.status == Int(t.status)
    ensures t.Responded? && !LegacyPair(t.status, t.body) && t.body.Parsed? ==> r.body == t.body.v
  {
    match t
    case Responded(status, body) => Normalize(status, body)
    case Raised(kinds, text) => ExceptionReply(kinds, text)
  }

  const AuthFailure := Reply(ErrorBody("Falha ao obter token de autenticação"), Int(500))

  /** Headers every proxied request carries. */
  const BaseHeaders: map<string, string> :=
    map["accept" := "application/json", "Content-Type" := "application/json"]

  /** The outcome of make_api_request: reply, request sent (if any), session after, acquisitions run. */
  datatype Execution = Execution(reply: Reply, sent: Option<Request>, session: map<string, Value>, tokenCalls: nat)

  /** make_api_request (src/funcoes.py:77-156) as a function of the session and the world. */
  function Execute(
    store: map<string, Value>, verb: string, url: string, data: Option<Value>,
    params: Option<map<string, string>>, requireAuth: bool, w: World): (e: Execution)
    requires Consistent(store)
    ensures Consistent(e.session)
    // the auth gate: nothing goes upstream when validation fails
    ensures e.sent.None? <==> requireAuth && !Validate(store, w.now, [w.first, w.second]).ok
    ensures e.sent.None? ==> e.reply == AuthFailure
    ensures e.sent.Some? ==>
      && e.reply == Dispatch(w.resource)
      && e.sent.value.verb == verb && e.sent.value.url == url
      && e.sent.value.json == data && e.sent.value.params == params
      && BaseHeaders.Items <= e.sent.value.headers.Items
      && ("Authorization" in e.sent.value.headers <==> requireAuth)
    ensures e.sent.Some? && requireAuth ==>
      AccessToken in e.session && e.sent.value.headers["Authorization"] == "Bearer " + Render(e.session[AccessToken])
    // without auth, the session is not touched
    ensures !requireAuth ==> e.session == store && e.tokenCalls == 0
    ensures TokenValid(store, w.now) ==> e.session == store && e.tokenCalls == 0
    // with auth, the session and the acquisitions are validar_token's
    ensures requireAuth ==>
      var v := Validate(store, w.now, [w.first, w.second]);
      e.session == v.session && e.tokenCalls == v.calls
    ensures e.tokenCalls <= 2
  {
    if requireAuth then
      var v := Validate(store, w.now, [w.first, w.second]);
      if !v.ok then Execution(AuthFailure, None, v.session, v.calls)
      else
        var headers := BaseHeaders["Authorization" := "Bearer " + Render(v.session[AccessToken])];
        Execution(Dispatch(w.resource), Some(Request(verb, url, headers, data, params)), v.session, v.calls)
    else
      Execution(Dispatch(w.resource), Some(Request(verb, url, BaseHeaders, data, params)), store, 0)
  }

  /** A 200 grant of {access_token: "t", expire_minutes: 5, token_type: "Bearer"} is recorded for five minutes and returned as is. */
  lemma GrantRecordedForItsLifetime(now: int)
    ensures var body := Obj(map[AccessToken := Str("t"), ExpireMinutes := Int(5), TokenType := Str("Bearer")]);
      var a := Acquire(TokenAnswered(200, "", Parsed(body)), now);
      a.result == Issued(body) && a.session[TokenValidade] == Int(now + 300)
  {
  }

  /** A grant whose lifetime is not positive is still accepted by validation, with a token that is already expired. */
  lemma ExpiredGrantStillAccepted(store: map<string, Value>, now: int, reply: TokenReply, second: TokenReply)
    requires Consistent(store) && !TokenValid(store, now)
    requires Grants(reply) && Minutes(reply.body.v.fields[ExpireMinutes]).value <= 0
    ensures var v := Validate(store, now, [reply, second]);
      v.ok && v.calls == 1 && !TokenValid(v.session, now)
  {
  }

  /** The session after validating once per world, in turn. */
  function AfterRounds(store: map<string, Value>, rounds: seq<World>): (s: map<string, Value>)
    requires Consistent(store)
    ensures Consistent(s)
    decreases |rounds|
  {
    if rounds == [] then store
    else AfterRounds(Validate(store, rounds[0].now, [rounds[0].first, rounds[0].second]).session, rounds[1..])
  }

  /** Validating again and again while the record is still valid never changes it. */
  lemma {:induction false} RepeatedValidationKeepsRecord(store: map<string, Value>, rounds: seq<World>)
    requires Consistent(store) && TokenValidade in store
    requires forall i :: 0 <= i < |rounds| ==> rounds[i].now < store[TokenValidade].i
    ensures AfterRounds(store, rounds) == store
  {
    if rounds != [] {
      assert TokenValid(store, rounds[0].now);
      RepeatedValidationKeepsRecord(store, rounds[1..]);
    }
  }

  /** A 200 `["hello", 201]` is unwrapped to `("hello", 201)`. */
  lemma LegacyPairUnwrapped()
    ensures Normalize(200, Parsed(List([Str("hello"), Int(201)]))) == Reply(Str("hello"), Int(201))
  {
  }

  /**
   * The legacy shim also fires on a genuine list: a 200 listing two records
   * comes back as the first record, with the second record as the status.
   */
  lemma ListOfRecordsUnwrapped(first: map<string, Value>, second: map<string, Value>)
    ensures Normalize(200, Parsed(List([Obj(first), Obj(second)]))) == Reply(Obj(first), Obj(second))
  {
  }

  /** A 404 with `{"detail": "not found"}` is passed through with its status. */
  lemma NotFoundPassedThrough()
    ensures var body := Obj(map["detail" := Str("not found")]);
      Normalize(404, Parsed(body)) == Reply(body, Int(404))
  {
  }

  /** A connect timeout is both a ConnectionError and a Timeout; the earlier clause wins: 503. */
  lemma ConnectTimeoutIsConnectionFailure(text: string)
    ensures Dispatch(Raised({ConnectionError, Timeout, RequestException}, text)).status == Int(503)
  {
  }

  /** With a still-valid token, a request goes out at once with that token and no acquisition. */
  lemma ValidTokenIsReused(store: map<string, Value>, verb: string, url: string, data: Option<Value>, w: World)
    requires Consistent(store) && TokenValid(store, w.now)
    ensures var e := Execute(store, verb, url, data, None, true, w);
      && e.tokenCalls == 0 && e.session == store && e.sent.Some?
      && e.sent.value.headers["Authorization"] == "Bearer " + Render(store[AccessToken])
  {
  }

  /** When the authority refuses both attempts, nothing reaches the API and the caller gets the auth failure. */
  lemma RefusedTwiceSendsNothing(store: map<string, Value>, verb: string, url: string, data: Option<Value>, w: World)
    requires Consistent(store) && !TokenValid(store, w.now)
    requires !Grants(w.first) && !Grants(w.second)
    ensures var e := Execute(store, verb, url, data, None, true, w);
      e.sent.None? && e.reply == AuthFailure && e.tokenCalls == 2 && TokenValidade !in e.session
  {
  }

  /** A user's server-side session, on which the static methods of Funcoes act. */
  class Session {
    var store: map<string, Value>
    ghost var tokenRequests: nat     // requests sent to the authority endpoint
    ghost var resourceRequests: nat  // requests sent to the proxied API

    ghost predicate Valid()
      reads this
    {
      Consistent(store)
    }

    constructor ()
      ensures Valid() && store == map[] && tokenRequests == 0 && resourceRequests == 0
    {
      store := map[];
      tokenRequests := 0;
      resourceRequests := 0;
    }

    /** get_api_token: clear the session, ask the authority, record the token field by field. */
    method GetApiToken(reply: TokenReply, now: int) returns (r: TokenResult)
      requires Valid()
      modifies this
      ensures Valid()
      ensures store == Acquire(reply, now).session && r == Acquire(reply, now).result
      ensures tokenRequests == old(tokenRequests) + 1 && resourceRequests == old(resourceRequests)
    {
      store := map[];
      tokenRequests := tokenRequests + 1;
      if reply.TokenRaised? {
        return Failed(ErrorBody(TokenErrorPrefix + reply.text), 500);
      }
      if RaisesForStatus(reply.status) {
        return Failed(ErrorBody("Erro HTTP: " + Decimal(reply.status) + " - " + reply.text), 500);
      }
      if reply.body.Unparseable? {
        return InternalFailure;
      }
      var tokenData := reply.body.v;
      if In(AccessToken, tokenData) != Some(true) || !tokenData.Obj? {
        return InternalFailure;
      }
      store := store[AccessToken := tokenData.fields[AccessToken]];
      if ExpireMinutes !in tokenData.fields {
        return InternalFailure;
      }
      store := store[ExpireMinutes := tokenData.fields[ExpireMinutes]];
      if TokenType !in tokenData.fields {
        return InternalFailure;
      }
      store := store[TokenType := tokenData.fields[TokenType]];
      var minutes := Minutes(tokenData.fields[ExpireMinutes]);
      if minutes.None? {
        return InternalFailure;
      }
      store := store[TokenValidade := Int(now + 60 * minutes.value)];
      r := Issued(tokenData);
    }

    /** validar_token: at most two rounds, each accepting a valid token or acquiring a new one. */
    method ValidarToken(now: int, first: TokenReply, second: TokenReply) returns (ok: bool)
      requires Valid()
      modifies this
      ensures Valid()
      ensures var v := Validate(old(store), now, [first, second]);
        ok == v.ok && store == v.session && tokenRequests == old(tokenRequests) + v.calls
      ensures resourceRequests == old(resourceRequests)
    {
      var replies := [first, second];
      for i := 0 to 2
        invariant Valid()
        invariant tokenRequests == old(tokenRequests) + i
        invariant resourceRequests == old(resourceRequests)
        invariant i > 0 ==> TokenValidade !in store
        invariant var v := Validate(store, now, replies[i..]);
          Validate(old(store), now, replies) == Validation(v.ok, v.session, v.calls + i)
      {
        if TokenValid(store, now) {
          return true;
        }
        ghost var before := store;
        var tokenResult := GetApiToken(replies[i], now);
        if tokenResult.Issued? && tokenResult.data.Obj? && AccessToken in tokenResult.data.fields {
          return true;
        }
        assert replies[i..][1..] == replies[i + 1..];
        assert Validate(before, now, replies[i..]) == Validation(
          Validate(store, now, replies[i + 1..]).ok,
          Validate(store, now, replies[i + 1..]).session,
          Validate(store, now, replies[i + 1..]).calls + 1);
      }
      return false;
    }

    /** make_api_request: the auth gate, the request, and the normalised reply. */
    method MakeApiRequest(
      verb: string, url: string, data: Option<Value>, params: Option<map<string, string>>,
      requireAuth: bool, w: World) returns (reply: Reply, sent: Option<Request>)
      requires Valid()
      modifies this
      ensures Valid()
      ensures var e := Execute(old(store), verb, url, data, params, requireAuth, w);
        reply == e.reply && sent == e.sent && store == e.session
        && tokenRequests == old(tokenRequests) + e.tokenCalls
      ensures resourceRequests == old(resourceRequests) + (if sent.Some? then 1 else 0)
    {
      var headers := BaseHeaders;
      if requireAuth {
        var ok := ValidarToken(w.now, w.first, w.second);
        if !ok {
          return AuthFailure, None;
        }
        headers := headers["Authorization" := "Bearer " + Render(store[AccessToken])];
      }
      sent := Some(Request(verb, url, headers, data, params));
      resourceRequests := resourceRequests + 1;
      reply := Dispatch(w.resource);
    }
  }
}
