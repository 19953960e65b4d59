# Proxy BFF: token lifecycle, request executor and employee routes

This project models the core of a Flask backend-for-frontend proxy that forwards
browser requests to an external REST API and injects a bearer token on the way.

- `funcoes.dfy` (module `Funcoes`) is the token manager and request executor of
  `src/funcoes.py`.
  - `get_api_token` clears the user's session and asks the authority endpoint for a
    token. It then records `access_token`, `expire_minutes`, `token_type` and the
    derived `token_validade` one field at a time.
  - `validar_token` runs at most two rounds. Each round either accepts a token that
    is still valid or acquires a new one.
  - `make_api_request` applies the auth gate, sends the request and turns the
    upstream answer into a `(body, status)` pair.
- `funcionario.dfy` (module `Funcionario`) holds the employee routes of
  `src/mod_funcionario/funcionario.py`. Each handler validates the request and shapes
  the call (a `Plan`). It then answers 400 itself, or returns make_api_request's
  pair unchanged.
- `json.dfy` (module `Json`) holds decoded JSON values and the Python operations the
  code applies to them: truth value, `in`, and `str()`.
- `wrappers.dfy` holds `Option`.

How the outside world is represented:

- The Flask session is the `store` map of a `Session` object.
- The clock is an integer number of seconds.
- The authority's and the API's answers are parameters: `TokenReply`, `Transport`,
  bundled per inbound request in a `World`.
- `hash_password` is a function parameter, taken to be total on strings. bcrypt is
  salted, so its value is left unknown.
- Two ghost counters on `Session` count the requests sent to the authority and to
  the API. The "at most two acquisitions" and "no upstream call" properties are
  stated with them.

Behaviours of the code worth noting:

- An upstream HTTP error during token acquisition returns status 500, not the
  upstream status (src/funcoes.py:50-59).
- A record is not always complete. Fields are written in order, so a reply without
  `expire_minutes` leaves `access_token` alone in the session (src/funcoes.py:41-44).
- The login route goes through the auth gate. `validar_login` does not pass
  `require_auth=False` (src/mod_funcionario/funcionario.py:136), even though the
  docstring of `make_api_request` says that flag is meant for login
  (src/funcoes.py:80).
- `manter_senha` is not a flag the client sends to keep its password. The update
  handler derives it from an absent or falsy `senha`
  (src/mod_funcionario/funcionario.py:103-105).
- The legacy `[data, status]` unwrapping fires on every 200 list of two or more
  items (src/funcoes.py:118-120). A list endpoint that returns two records therefore
  answers with the first record, and uses the second record as the status
  (`ListOfRecordsUnwrapped`).

## Model

| member | source | states |
|---|---|---|
| `Funcoes.Acquire` | src/funcoes.py:10-59 | The previous session never survives. On a grant, the session holds exactly the four record fields, with `token_validade = now + 60·expire_minutes`, and the body is returned unchanged. Every failure, an upstream HTTP error included, is `({'error': …}, 500)` and leaves no `token_validade`. With no `access_token` the session is empty. With `access_token` but no `expire_minutes`, only `access_token` is left. |
| `Funcoes.Session.GetApiToken` | src/funcoes.py:10-59 | The imperative version: clear, then write the fields one by one. The new session and the result are `Acquire`'s, and exactly one request goes to the authority. |
| `Funcoes.Validate` | src/funcoes.py:62-74 | No acquisition happens exactly when the token is still valid, and the session is then unchanged. Otherwise the answer is that of the last acquisition, every earlier one failed, and at most one acquisition runs per round. A false answer means every round was used. A true answer guarantees `access_token` is in the session. |
| `Funcoes.Session.ValidarToken` | src/funcoes.py:62-74 | The two-round `for` loop with early return. It ends with `Validate`'s answer and session, having sent exactly `Validate`'s number of requests (at most 2) to the authority. |
| `Funcoes.Normalize` | src/funcoes.py:115-133 | A 200 list of two or more items becomes `(list[0], list[1])`. Otherwise the upstream status is kept, with the JSON body unchanged, `{}` for an unparseable 200, or `{'error': 'Erro HTTP <status>'}` for an unparseable non-200. |
| `Funcoes.Dispatch` | src/funcoes.py:96-156 | Once sent, a raised exception always answers an error dict with 503, 504 or 500, and 503 exactly for a connection error. A response keeps its status and JSON, except that a 200 list of two or more items is unwrapped into `(list[0], list[1])`. |
| `Funcoes.Minutes` | src/funcoes.py:44 | `timedelta(minutes=v)` accepts exactly an int, kept as is, or a bool, read as 1 or 0. |
| `Funcoes.ExceptionReply` | src/funcoes.py:139-156 | The clauses are tried in order: a ConnectionError gives 503, even when it is also a Timeout. Otherwise a Timeout gives 504, and anything else 500. The body is always a dict whose only key is `error`. |
| `Funcoes.Execute` | src/funcoes.py:77-156 | Nothing is sent exactly when auth is required and validation fails, and the caller then gets `({'error': 'Falha ao obter token de autenticação'}, 500)`. A sent request carries the caller's verb, URL, payload and params plus the JSON headers. It has an `Authorization` header iff auth is required, equal to `'Bearer ' + session['access_token']`. Without auth the session is untouched. With auth, the session left behind and the number of acquisitions are those of `validar_token` (`Validate`), at most 2. |
| `Funcoes.Session.MakeApiRequest` | src/funcoes.py:77-110 | The headers dict is built and updated in place, `ValidarToken` is called, then the request is sent. The reply, the request, the session and both counters match `Execute`. The API counter rises by one exactly when a request was sent. |
| `Funcoes.GrantRecordedForItsLifetime` | src/funcoes.py:41-48 | A 200 `{access_token: "t", expire_minutes: 5, token_type: "Bearer"}` is recorded with `token_validade = now + 300` and returned as is. |
| `Funcoes.ExpiredGrantStillAccepted` | src/funcoes.py:63-71 | A grant whose lifetime is zero or negative still makes validation succeed after one acquisition, with a token that is already expired. |
| `Funcoes.RepeatedValidationKeepsRecord` | src/funcoes.py:63-66 | Validating any number of times while the record is still valid never changes the session. |
| `Funcoes.LegacyPairUnwrapped` | src/funcoes.py:118-120 | A 200 `["hello", 201]` gives `("hello", 201)`. |
| `Funcoes.ListOfRecordsUnwrapped` | src/funcoes.py:118-120 | A 200 list of two records gives the first record, with the second record as the status. |
| `Funcoes.NotFoundPassedThrough` | src/funcoes.py:129-131 | A 404 `{"detail": "not found"}` is returned with status 404. |
| `Funcoes.ConnectTimeoutIsConnectionFailure` | src/funcoes.py:139-146 | A connect timeout, which is both a ConnectionError and a Timeout, maps to 503. |
| `Funcoes.ValidTokenIsReused` | src/funcoes.py:89-94 | With a valid token there is no acquisition and the session is unchanged. The request is sent with `'Bearer ' + session['access_token']`. |
| `Funcoes.RefusedTwiceSendsNothing` | src/funcoes.py:89-92 | When the authority refuses both attempts, exactly two acquisitions run and no request reaches the API. The caller gets the auth failure and no `token_validade` is left. |
| `Json.Truthy` | src/mod_funcionario/funcionario.py:94 | Python's truth value: the falsy values are exactly `None`, `False`, `0`, `""`, `[]` and `{}`. |
| `Json.Decimal` | src/funcoes.py:133 | `str(n)` of an int: the digits of `n`, with a leading `-` for a negative number, and no leading zero but for 0 itself. |
| `Json.In` | src/funcoes.py:35 | Python's `key in x` raises exactly on None, booleans and numbers. It is a key test on a dict and an element test on a list. |
| `Json.OccursAt` | src/funcoes.py:35 | `key in s` on a string holds iff some slice of `s` equals `key`. |
| `Json.DigitsRoundTrip` | src/funcoes.py:133 | Reading back the decimal numeral used for `str(status)` gives the number. |
| `Json.Render` | src/funcoes.py:94 | `str(v)` of a string is the string itself, and of an int is its decimal numeral. |
| `Funcionario.QuotedList` | src/mod_funcionario/funcionario.py:44 | The body of Python's repr of a list of field names: empty exactly for no names, otherwise it starts with the first name in quotes and ends with a quote. |
| `Funcionario.QuotedListAppend` | src/mod_funcionario/funcionario.py:44 | The repr of two lists joined is their two reprs joined by `, `. |
| `Funcionario.MissingMessage` | src/mod_funcionario/funcionario.py:44 | The 400 message is `Campos obrigatórios faltando: `, then `[`, the quoted field names and `]`. |
| `Funcionario.MissingLoginMessage` | src/mod_funcionario/funcionario.py:133 | The login route's message reads `Campos obrigatórios faltando: ['cpf', 'senha']`, as Python prints the list. |
| `Funcionario.AllIn` | src/mod_funcionario/funcionario.py:43 | `all(field in data …)`: on a dict, true iff every field is a key. On a list, true iff every field is an element. On None, a boolean or a number it raises, unless there are no fields to check. |
| `Funcionario.ByQuery` | src/mod_funcionario/funcionario.py:22-27 | A missing or empty query parameter gives 400 with `O parâmetro '<name>' é obrigatório`. Otherwise the call targets `base + value` with no payload, through the auth gate. |
| `Funcionario.HashedCopy` | src/mod_funcionario/funcionario.py:46-51 | The forwarded payload has the same keys as the input, and every key but `senha` keeps its value. `senha` becomes `hash_password(senha)`. A non-string password makes `hash_password` raise. |
| `Funcionario.UpdatePayload` | src/mod_funcionario/funcionario.py:100-108 | An absent or falsy `senha` gives no `senha` key and `manter_senha = True`. Otherwise `senha` is replaced by its hash and the keys are unchanged. The plain password is never forwarded, and no other key changes. |
| `Funcionario.GetAllPlan` | src/mod_funcionario/funcionario.py:12-16 | The list route always forwards a GET (verb `get`) to the bare endpoint, with no payload, through the auth gate. |
| `Funcionario.CreatePlan` | src/mod_funcionario/funcionario.py:33-54 | A non-JSON request gives 400. A dict missing any of the six fields gives 400 `Campos obrigatórios faltando: […]`. A forward happens only for a dict holding all six fields, as a POST of `HashedCopy` to the endpoint. |
| `Funcionario.UpdatePlan` | src/mod_funcionario/funcionario.py:86-115 | A non-JSON request gives 400, malformed JSON the framework's 400, and a non-dict JSON body raises. A falsy or absent `id_funcionario` gives 400 before the field check. With a truthy id, a missing field gives 400 `Campos obrigatórios faltando: […]`; with every field, the call is forwarded exactly when `UpdatePayload` succeeds. A forward is a PUT of `UpdatePayload` to `endpoint + str(id_funcionario)`. |
| `Funcionario.LoginPlan` | src/mod_funcionario/funcionario.py:122-136 | A dict without `cpf` or `senha` gives 400. A forward is a POST of the body, unchanged and unhashed, to `endpoint + 'login/'`, with auth required. |
| `Funcionario.LoginNeedsAuthority` | src/mod_funcionario/funcionario.py:136 | Because login is not exempt from the auth gate, a login is not even sent when the authority refuses twice. The caller gets the auth failure. |
| `Funcionario.EmptyPasswordKept` | src/mod_funcionario/funcionario.py:103-105 | An update with `senha: ""` forwards no `senha` and `manter_senha = True`. |
| `Funcionario.Serve` | src/mod_funcionario/funcionario.py:54-57 | A 400 rejection or a framework error touches neither the session nor either upstream. A forwarded call answers exactly make_api_request's `(body, status)`, with its session and counters. |
| `Funcionario.GetFuncionarios` | src/mod_funcionario/funcionario.py:12-16 | Served per `GetAllPlan`. |
| `Funcionario.GetFuncionario` | src/mod_funcionario/funcionario.py:20-29 | Served per `ByQuery` on `id_funcionario`, as a GET of `endpoint + id`. |
| `Funcionario.CreateFuncionario` | src/mod_funcionario/funcionario.py:33-57 | Served per `CreatePlan`. |
| `Funcionario.DeleteFuncionario` | src/mod_funcionario/funcionario.py:61-70 | Served per `ByQuery` on `id_funcionario`, as a DELETE of `endpoint + id`. |
| `Funcionario.CheckCpfExists` | src/mod_funcionario/funcionario.py:73-82 | Served per `ByQuery` on `cpf`, as a GET of `endpoint + 'cpf/' + cpf`. |
| `Funcionario.UpdateFuncionario` | src/mod_funcionario/funcionario.py:86-117 | Served per `UpdatePlan`. |
| `Funcionario.ValidarLogin` | src/mod_funcionario/funcionario.py:122-139 | Served per `LoginPlan`. |

## Left out

- The HTTP calls themselves (`requests.post`, `requests.request`): their outcomes are parameters. TLS verification, the 30-second timeout, and the headers and form data of the token request are not modelled. The API request's headers are (`Funcoes.Execute`).
- Flask session cookies, `session.permanent`, the secret key, CORS and the favicon route in `src/app.py`. They are configuration with no logic.
- `src/security.py`: `hash_password` is a function parameter, and `verify_password` is not used by the core.
- Funcionario.HashedCopy: `hash_password` is taken to be total on strings, so a bcrypt failure on a string password (one over bcrypt's length limit, say) is not modelled. The same holds for Funcionario.UpdatePayload.
- Clock: time is one integer number of seconds per inbound request. Every `datetime.now()` read while serving it (the check at src/funcoes.py:64 in each round and the timestamp at src/funcoes.py:44) is taken to be the same instant. Only the first check can find a `token_validade`, since a failed acquisition never leaves one, so the later reads only shift the recorded expiry by the time the request took. Float timestamps are not modelled.
- Funcoes.Acquire: Python raises OverflowError when `now + expire_minutes` leaves datetime's range. The model does not; it records the unbounded sum.
- Funcoes.Acquire: for a KeyError, TypeError or JSON decoding error inside `get_api_token`, only the fixed prefix `Erro inesperado ao obter token: ` of the message is modelled. The exception's text after it is not.
- Json.Render: Python's `repr` of a list or dict used as `id_funcionario` or `access_token` is not reproduced. A map has no key order here, so the model renders such a value as the fixed text `<json>`.
- Fractional JSON numbers. `Value` has integers only, so `timedelta(minutes=2.5)` is not modelled.
- The `HTTPError` clause of `make_api_request` (src/funcoes.py:135-138). It is unreachable because `raise_for_status` is never called there.
- Flask's turning of a `(body, status)` pair into a response. This includes its rejection of a non-integer status that a legacy `[data, status]` reply can carry.
- Logging and `traceback.print_exc`.
- Per-session concurrency: each inbound request is handled start to finish.
- The other entity routes (customer, product) registered in `src/app.py` are not part of this model.
