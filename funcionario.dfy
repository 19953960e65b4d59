/**
 * The employee routes of `src/mod_funcionario/funcionario.py`.
 *
 * Each handler first validates the inbound request and shapes the call it
 * will forward (a `Plan`, a pure function of the request), then either
 * answers 400 itself or hands the call to make_api_request and returns its
 * `(body, status)` unchanged (`Serve`). `hash_password` is a parameter,
 * taken to be a total function on strings: its salt makes the value
 * unknown, and its failures on a string are not modelled.
 */
module Funcionario {
  import opened Wrappers
  import opened Json
  import opened Funcoes

  /** The body of an inbound request, as Flask's `request.is_json` and `get_json()` see it. */
  datatype Inbound =
    | NotJson           // is_json is false
    | Malformed         // is_json, but get_json() fails: Flask answers 400 itself
    | JsonBody(data: Value)

  /** What a handler does with a request. */
  datatype Plan =
    | Reject(message: string)  // `jsonify({"error": message}), 400`
    | Abort(code: int)         // Flask answers with its own error page (400 bad JSON, 500 uncaught exception)
    | Forward(verb: string, url: string, data: Option<Value>, requireAuth: bool)

  /** What the browser gets back. */
  datatype Answer = Answered(body: Value, status: Value) | Aborted(code: int)

  const IdFuncionario := "id_funcionario"
  const Cpf := "cpf"
  const Senha := "senha"
  const ManterSenha := "manter_senha"

  const CreateFields := ["nome", "matricula", Cpf, Senha, "grupo", "telefone"]
  const UpdateFields := [IdFuncionario, "nome", "matricula", Cpf, "grupo", "telefone"]
  const LoginFields := [Cpf, Senha]

  const NotJsonMessage := "Requisição deve ser JSON"
  const MissingIdMessage := "Campo 'id_funcionario' obrigatório no corpo JSON"

  /** Python's repr of a list of plain field names: `['a', 'b']`. */
  function QuotedList(names: seq<string>): (r: string)
    ensures r == "" <==> names == []
    ensures names != [] ==> r[0] == '\'' && r[|r| - 1] == '\''
    ensures names != [] ==> "'" + names[0] + "'" <= r
  {
    if names == [] then ""
    else if |names| == 1 then "'" + names[0] + "'"
    else "'" + names[0] + "', " + QuotedList(names[1..])
  }

  /** Quoting a concatenation joins the two quoted lists with a comma, as Python's repr does. */
  lemma {:induction false} QuotedListAppend(a: seq<string>, b: seq<string>)
    requires a != [] && b != []
    ensures QuotedList(a + b) == QuotedList(a) + ", " + QuotedList(b)
    decreases |a|
  {
    var ab := a + b;
    assert |ab| >= 2 && ab[0] == a[0];
    if |a| == 1 {
      assert ab[1..] == b;
      assert "'" + a[0] + "', " == "'" + a[0] + "'" + ", ";
    } else {
      assert ab[1..] == a[1..] + b;
      QuotedListAppend(a[1..], b);
    }
  }

  const MissingPrefix := "Campos obrigatórios faltando: "

  /** The 400 message naming the required fields: the prefix, then the list's repr. */
  function MissingMessage(fields: seq<string>): (r: string)
    ensures MissingPrefix + "[" <= r && r[|r| - 1] == ']'
    ensures r[|MissingPrefix| + 1..|r| - 1] == QuotedList(fields)
  {
    MissingPrefix + "[" + QuotedList(fields) + "]"
  }

  /** validar_login's message names both fields the way Python prints the list. */
  lemma MissingLoginMessage()
    ensures MissingMessage(LoginFields) == "Campos obrigatórios faltando: ['cpf', 'senha']"
  {
    QuotedListAppend([Cpf], [Senha]);
    assert LoginFields == [Cpf] + [Senha];
  }

  function ParamMessage(name: string): string {
    "O parâmetro '" + name + "' é obrigatório"
  }

  /** Every one of fields is a key of d. */
  predicate HasAll(d: map<string, Value>, fields: seq<string>) {
    forall i :: 0 <= i < |fields| ==> fields[i] in d
  }

  /**
   * `all(field in data for field in fields)`: stops at the first missing
   * field; None when a membership test raises TypeError.
   */
  function AllIn(data: Value, fields: seq<string>): (r: Option<bool>)
    ensures data.Obj? ==> r == Some(HasAll(data.fields, fields))
    ensures data.List? ==> r == Some(forall i :: 0 <= i < |fields| ==> Str(fields[i]) in data.items)
    ensures (data.Null? || data.Bool? || data.Int?) ==> (r.None? <==> fields != [])
  {
    if fields == [] then Some(true)
    else
      match In(fields[0], data)
      case None => None
      case Some(false) => Some(false)
      case Some(true) => AllIn(data, fields[1..])
  }

  /**
   * The GET-one, DELETE and check-cpf handlers: read one query parameter,
   * answer 400 when it is missing or empty, else target `base + value`.
   */
  function ByQuery(verb: string, base: string, args: map<string, string>, name: string): (p: Plan)
    ensures p.Reject? <==> name !in args || args[name] == ""
    ensures p.Reject? ==> p.message == ParamMessage(name)
    ensures p.Forward? ==> p == Forward(verb, base + args[name], None, true)
    ensures !p.Abort?
  {
    if name !in args || args[name] == "" then Reject(ParamMessage(name))
    else Forward(verb, base + args[name], None, true)
  }

  /**
   * The payload create_funcionario forwards: a copy of the request's dict
   * with `senha` replaced by its hash; None when hash_password raises
   * because `senha` is not a string.
   */
  function HashedCopy(d: map<string, Value>, hash: string -> string): (r: Option<map<string, Value>>)
    ensures r.None? <==> Senha in d && !d[Senha].Str?
    ensures r.Some? ==> r.value.Keys == d.Keys
    ensures r.Some? ==> forall k :: k in d && k != Senha ==> r.value[k] == d[k]
    ensures r.Some? && Senha in d ==> r.value[Senha] == Str(hash(d[Senha].s))
  {
    var processed := d;
    if Senha in processed then
      if processed[Senha].Str? then Some(processed[Senha := Str(hash(processed[Senha].s))]) else None
    else Some(processed)
  }

  /**
   * The payload update_funcionario forwards: without a (truthy) `senha`, the
   * key is dropped and `manter_senha` set; otherwise `senha` is hashed.
   */
  function UpdatePayload(d: map<string, Value>, hash: string -> string): (r: Option<map<string, Value>>)
    ensures r.None? <==> Senha in d && Truthy(d[Senha]) && !d[Senha].Str?
    // the plain password is never forwarded
    ensures r.Some? && Senha in r.value ==> Senha in d && d[Senha].Str? && r.value[Senha] == Str(hash(d[Senha].s))
    // manter_senha is added exactly when there is no password to forward
    ensures r.Some? ==> (Senha !in r.value <==> Senha !in d || !Truthy(d[Senha]))
    ensures r.Some? && Senha !in r.value ==> r.value.Keys == d.Keys - {Senha} + {ManterSenha} && r.value[ManterSenha] == Bool(true)
    ensures r.Some? && Senha in r.value ==> r.value.Keys == d.Keys
    ensures r.Some? ==> forall k :: k in d && k != Senha && k != ManterSenha ==> r.value[k] == d[k]
    ensures r.Some? && Senha in r.value && ManterSenha in d ==> r.value[ManterSenha] == d[ManterSenha]
  {
    var processed := d;
    if Senha !in processed || !Truthy(processed[Senha]) then
      var flagged := processed[ManterSenha := Bool(true)];
      Some(flagged - {Senha})
    else if processed[Senha].Str? then
      Some(processed[Senha := Str(hash(processed[Senha].s))])
    else None
  }

  /** get_funcionarios (src/mod_funcionario/funcionario.py:12-16). */
  function GetAllPlan(endpoint: string): (p: Plan)
    ensures p.Forward? && p.verb == "get" && p.url == endpoint && p.data.None? && p.requireAuth
  {
    Forward("get", endpoint, None, true)
  }

  /** create_funcionario (src/mod_funcionario/funcionario.py:33-57). */
  function CreatePlan(endpoint: string, body: Inbound, hash: string -> string): (p: Plan)
    ensures body.NotJson? ==> p == Reject(NotJsonMessage)
    ensures body.Malformed? ==> p == Abort(400)
    ensures body.JsonBody? && body.data.Obj? && !HasAll(body.data.fields, CreateFields)
      ==> p == Reject(MissingMessage(CreateFields))
    ensures body.JsonBody? && body.data.Obj? && HasAll(body.data.fields, CreateFields)
      ==> (p.Forward? <==> Senha in body.data.fields && body.data.fields[Senha].Str?)
    ensures p.Forward? ==>
      && body.JsonBody? && body.data.Obj? && HasAll(body.data.fields, CreateFields)
      && p.verb == "post" && p.url == endpoint && p.requireAuth
      && HashedCopy(body.data.fields, hash).Some?
      && p.data == Some(Obj(HashedCopy(body.data.fields, hash).value))
  {
    match body
    case NotJson => Reject(NotJsonMessage)
    case Malformed => Abort(400)
    case JsonBody(data) =>
      match AllIn(data, CreateFields)
      case None => Abort(500)
      case Some(false) => Reject(MissingMessage(CreateFields))
      case Some(true) =>
        // a list has no key to hash, a string has no copy(): both raise
        assert data.Obj? ==> Senha in data.fields by { assert CreateFields[3] == Senha; }
        if !data.Obj? then Abort(500)
        else
          match HashedCopy(data.fields, hash)
          case None => Abort(500)
          case Some(processed) => Forward("post", endpoint, Some(Obj(processed)), true)
  }

  /** A JSON dict whose `id_funcionario` is present and truthy. */
  predicate IdGiven(body: Inbound) {
    body.JsonBody? && body.data.Obj? && IdFuncionario in body.data.fields && Truthy(body.data.fields[IdFuncionario])
  }

  /** update_funcionario (src/mod_funcionario/funcionario.py:86-117). */
  function UpdatePlan(endpoint: string, body: Inbound, hash: string -> string): (p: Plan)
    ensures body.NotJson? ==> p == Reject(NotJsonMessage)
    ensures body.Malformed? ==> p == Abort(400)
    ensures body.JsonBody? && !body.data.Obj? ==> p == Abort(500)
    // a falsy or absent id is reported before any other missing field
    ensures body.JsonBody? && body.data.Obj? && (IdFuncionario !in body.data.fields || !Truthy(body.data.fields[IdFuncionario]))
      ==> p == Reject(MissingIdMessage)
    // with a truthy id, a missing field is reported, else the payload decides
    ensures IdGiven(body) && !HasAll(body.data.fields, UpdateFields) ==> p == Reject(MissingMessage(UpdateFields))
    ensures IdGiven(body) && HasAll(body.data.fields, UpdateFields)
      ==> (p.Forward? <==> UpdatePayload(body.data.fields, hash).Some?)
    ensures p.Forward? ==>
      && body.JsonBody? && body.data.Obj?
      && IdFuncionario in body.data.fields && Truthy(body.data.fields[IdFuncionario])
      && HasAll(body.data.fields, UpdateFields)
      && p.verb == "put" && p.url == endpoint + Render(body.data.fields[IdFuncionario]) && p.requireAuth
      && UpdatePayload(body.data.fields, hash).Some?
      && p.data == Some(Obj(UpdatePayload(body.data.fields, hash).value))
  {
    match body
    case NotJson => Reject(NotJsonMessage)
    case Malformed => Abort(400)
    case JsonBody(data) =>
      // data.get raises on anything but a dict
      if !data.Obj? then Abort(500)
      else if IdFuncionario !in data.fields || !Truthy(data.fields[IdFuncionario]) then Reject(MissingIdMessage)
      else if AllIn(data, UpdateFields) != Some(true) then Reject(MissingMessage(UpdateFields))
      else
        match UpdatePayload(data.fields, hash)
        case None => Abort(500)
        case Some(processed) =>
          Forward("put", endpoint + Render(data.fields[IdFuncionario]), Some(Obj(processed)), true)
  }

  /** validar_login (src/mod_funcionario/funcionario.py:122-139). */
  function LoginPlan(endpoint: string, body: Inbound): (p: Plan)
    ensures body.NotJson? ==> p == Reject(NotJsonMessage)
    ensures body.JsonBody? && body.data.Obj? && (Cpf !in body.data.fields || Senha !in body.data.fields)
      ==> p == Reject(MissingMessage(LoginFields))
    // the payload goes out exactly as received, and through the default auth gate
    ensures p.Forward? ==> body.JsonBody? && p == Forward("post", endpoint + "login/", Some(body.data), true)
    ensures body.JsonBody? && body.data.Obj? && Cpf in body.data.fields && Senha in body.data.fields ==> p.Forward?
  {
    match body
    case NotJson => Reject(NotJsonMessage)
    case Malformed => Abort(400)
    case JsonBody(data) =>
      assert data.Obj? ==> (HasAll(data.fields, LoginFields) <==> Cpf in data.fields && Senha in data.fields) by {
        assert LoginFields[0] == Cpf && LoginFields[1] == Senha && |LoginFields| == 2;
      }
      match AllIn(data, LoginFields)
      case None => Abort(500)
      case Some(false) => Reject(MissingMessage(LoginFields))
      case Some(true) => Forward("post", endpoint + "login/", Some(data), true)
  }

  /** Login goes through the default auth gate: when the authority refuses twice, the login is not even sent. */
  lemma LoginNeedsAuthority(store: map<string, Value>, endpoint: string, body: Inbound, w: World)
    requires Consistent(store) && !TokenValid(store, w.now)
    requires !Grants(w.first) && !Grants(w.second)
    requires LoginPlan(endpoint, body).Forward?
    ensures var p := LoginPlan(endpoint, body);
      var e := Execute(store, p.verb, p.url, p.data, None, p.requireAuth, w);
      e.sent.None? && e.reply == AuthFailure
  {
  }

  /** An update with an empty password keeps the old one: no `senha`, and `manter_senha` set. */
  lemma EmptyPasswordKept(endpoint: string, d: map<string, Value>, hash: string -> string)
    requires HasAll(d, UpdateFields) && IdFuncionario in d && Truthy(d[IdFuncionario])
    requires Senha in d && d[Senha] == Str("")
    ensures var p := UpdatePlan(endpoint, JsonBody(Obj(d)), hash);
      p.Forward? && Senha !in p.data.value.fields && p.data.value.fields[ManterSenha] == Bool(true)
  {
  }

  /** s was served according to p: a rejection touches nothing, a forward is make_api_request's reply. */
  twostate predicate Served(s: Session, p: Plan, w: World, a: Answer)
    reads s
  {
    match p
    case Reject(message) =>
      a == Answered(ErrorBody(message), Int(400)) && unchanged(s)
    case Abort(code) =>
      a == Aborted(code) && unchanged(s)
    case Forward(verb, url, data, requireAuth) =>
      && Consistent(old(s.store))
      && var e := Execute(old(s.store), verb, url, data, None, requireAuth, w);
      && a == Answered(e.reply.body, e.reply.status)
      && s.store == e.session
      && s.tokenRequests == old(s.tokenRequests) + e.tokenCalls
      && s.resourceRequests == old(s.resourceRequests) + (if e.sent.Some? then 1 else 0)
  }

  /** The tail every handler shares: answer a rejection, or return make_api_request's pair unchanged. */
  method Serve(s: Session, p: Plan, w: World) returns (a: Answer)
    requires s.Valid()
    modifies s
    ensures s.Valid() && Served(s, p, w, a)
  {
    match p
    case Reject(message) =>
      a := Answered(ErrorBody(message), Int(400));
    case Abort(code) =>
      a := Aborted(code);
    case Forward(verb, url, data, requireAuth) =>
      var reply, sent := s.MakeApiRequest(verb, url, data, None, requireAuth, w);
      a := Answered(reply.body, reply.status);
  }

  method GetFuncionarios(s: Session, endpoint: string, w: World) returns (a: Answer)
    requires s.Valid()
    modifies s
    ensures s.Valid() && Served(s, GetAllPlan(endpoint), w, a)
  {
    a := Serve(s, GetAllPlan(endpoint), w);
  }

  method GetFuncionario(s: Session, endpoint: string, args: map<string, string>, w: World) returns (a: Answer)
    requires s.Valid()
    modifies s
    ensures s.Valid() && Served(s, ByQuery("get", endpoint, args, IdFuncionario), w, a)
  {
    a := Serve(s, ByQuery("get", endpoint, args, IdFuncionario), w);
  }

  method CreateFuncionario(s: Session, endpoint: string, body: Inbound, hash: string -> string, w: World)
    returns (a: Answer)
    requires s.Valid()
    modifies s
    ensures s.Valid() && Served(s, CreatePlan(endpoint, body, hash), w, a)
  {
    a := Serve(s, CreatePlan(endpoint, body, hash), w);
  }

  method DeleteFuncionario(s: Session, endpoint: string, args: map<string, string>, w: World) returns (a: Answer)
    requires s.Valid()
    modifies s
    ensures s.Valid() && Served(s, ByQuery("delete", endpoint, args, IdFuncionario), w, a)
  {
    a := Serve(s, ByQuery("delete", endpoint, args, IdFuncionario), w);
  }

  method CheckCpfExists(s: Session, endpoint: string, args: map<string, string>, w: World) returns (a: Answer)
    requires s.Valid()
    modifies s
    ensures s.Valid() && Served(s, ByQuery("get", endpoint + "cpf/", args, Cpf), w, a)
  {
    a := Serve(s, ByQuery("get", endpoint + "cpf/", args, Cpf), w);
  }

  method UpdateFuncionario(s: Session, endpoint: string, body: Inbound, hash: string -> string, w: World)
    returns (a: Answer)
    requires s.Valid()
    modifies s
    ensures s.Valid() && Served(s, UpdatePlan(endpoint, body, hash), w, a)
  {
    a := Serve(s, UpdatePlan(endpoint, body, hash), w);
  }

  method ValidarLogin(s: Session, endpoint: string, body: Inbound, w: World) returns (a: Answer)
    requires s.Valid()
    modifies s
    ensures s.Valid() && Served(s, LoginPlan(endpoint, body), w, a)
  {
    a := Serve(s, LoginPlan(endpoint, body), w);
  }
}
