/**
 * The browser client's service layer. Each call is given the reply its
 * `fetch` would receive (`HttpReply`) and yields what the awaited call yields:
 * a value, or the message of the `Error` it throws (`Outcome`). The token kept
 * in `localStorage` and the page location are the fields of a `Session`.
 */
module Api {
  import opened Wrappers
  import opened Wire

  /** What an awaited client call gives: its value, or the message of the error it throws. */
  datatype Outcome<T> = Returned(value: T) | Threw(message: string)

  /** JavaScript truthiness of an optional string field: present and non-empty. */
  predicate Truthy(s: Option<string>) {
    s.Some? && s.value != ""
  }

  const BearerPrefix: string := "Bearer "

  /** `getAuthHeader`: the Authorization value; a missing token is interpolated as "null". */
  function AuthHeader(token: Option<string>): (h: string)
    ensures |h| >= |BearerPrefix| && h[..|BearerPrefix|] == BearerPrefix
    ensures token.Some? ==> h[|BearerPrefix|..] == token.value
    ensures token.None? ==> h == "Bearer null"
  {
    BearerPrefix + token.GetOr("null")
  }

  /** `res.json()`: the parsed body, or the parse error it throws. */
  function JsonOf<T>(body: Body<T>): (r: Outcome<T>)
    ensures r.Returned? <==> body.Parsed?
    ensures r.Returned? ==> body == Parsed(r.value)
    ensures body.Unparsable? ==> r == Threw(body.message)
  {
    match body
    case Parsed(v) => Returned(v)
    case Unparsable(m) => Threw(m)
  }

  /** A 401 reply: the stored token is no longer accepted. */
  predicate Expired<T>(reply: HttpReply<T>) {
    reply.Reply? && reply.status == 401
  }

  /**
   * What `getOS` yields: "Sessão expirada" for a 401, "Erro ao buscar OS" for
   * any other failing status, the parsed body on success, and the network
   * error's own message.
   */
  function OsResult(reply: HttpReply<seq<OsView>>): (r: Outcome<seq<OsView>>)
    ensures Expired(reply) ==> r == Threw("Sessão expirada")
    ensures reply.Reply? && !IsOk(reply.status) && reply.status != 401 ==> r == Threw("Erro ao buscar OS")
    ensures reply.Reply? && IsOk(reply.status) ==> r == JsonOf(reply.body)
    ensures reply.NetworkError? ==> r == Threw(reply.message)
    ensures r.Returned? <==> reply.Reply? && IsOk(reply.status) && reply.body.Parsed?
  {
    match reply
    case NetworkError(m) => Threw(m)
    case Reply(status, body) =>
      if !IsOk(status) then
        if status == 401 then Threw("Sessão expirada") else Threw("Erro ao buscar OS")
      else JsonOf(body)
  }

  /** The browser session: the stored token and the current location. */
  class Session {
    var token: Option<string>
    var location: string

    constructor (token: Option<string>, location: string)
      ensures this.token == token && this.location == location
    {
      this.token := token;
      this.location := location;
    }

    /** `logout`: forget the token and go to the login page. */
    method Logout()
      modifies this
      ensures token.None? && location == "/login"
    {
      token := None;
      location := "/login";
    }

    /**
     * `getOS`: what `OsResult` says it yields; a 401 logs out first, anything
     * else leaves the session alone.
     */
    method GetOS(reply: HttpReply<seq<OsView>>) returns (r: Outcome<seq<OsView>>)
      modifies this
      ensures r == OsResult(reply)
      ensures Expired(reply) ==> token.None? && location == "/login"
      ensures !Expired(reply) ==> unchanged(this)
    {
      match reply
      case NetworkError(m) =>
        r := Threw(m);
      case Reply(status, body) =>
        if !IsOk(status) {
          if status == 401 {
            Logout();
            return Threw("Sessão expirada");
          }
          return Threw("Erro ao buscar OS");
        }
        r := JsonOf(body);
    }
  }

  // ---------------------------------------------------------------------
  // iniciarAtendimento
  // ---------------------------------------------------------------------

  const DefaultStartError: string := "Erro ao iniciar atendimento"
  const ExecucaoConflictText: string := "Não é possível iniciar atendimento. Você já tem um atendimento em EXECUÇÃO."
  const BadRequestFallback: string := "Erro na requisição. Verifique os dados."

  /**
   * The message a failed start throws: a 422 always gives the fixed EXECUÇÃO
   * text; otherwise the body's `detail`, else its `message`, else the default.
   */
  function StartErrorText(status: int, body: Body<StartJson>): (m: string)
    ensures m != ""
    ensures status == 422 ==> m == ExecucaoConflictText
    ensures status != 422 && body.Parsed? && Truthy(body.value.detail) ==> m == body.value.detail.value
    ensures status != 422 && body.Parsed? && !Truthy(body.value.detail) && Truthy(body.value.message) ==>
      m == body.value.message.value
    ensures status != 422 && !(body.Parsed? && (Truthy(body.value.detail) || Truthy(body.value.message))) ==>
      m == DefaultStartError
  {
    if status == 422 then ExecucaoConflictText
    else match body
      case Parsed(j) =>
        if Truthy(j.detail) then j.detail.value
        else if Truthy(j.message) then j.message.value
        else DefaultStartError
      case Unparsable(_) => DefaultStartError
  }

  /** The error-message selection of `iniciarAtendimento`, step by step as the client writes it. */
  method StartErrorMessage(status: int, body: Body<StartJson>) returns (m: string)
    ensures m == StartErrorText(status, body)
  {
    m := DefaultStartError;
    match body {
      case Parsed(errorData) =>
        if Truthy(errorData.detail) {
          m := errorData.detail.value;
        } else if Truthy(errorData.message) {
          m := errorData.message.value;
        }
      case Unparsable(_) =>
    }
    if status == 422 {
      m := ExecucaoConflictText;
    } else if status == 400 {
      m := if m != "" then m else BadRequestFallback;
    }
  }

  /**
   * The 400 fallback never shows unless the server itself sent that text:
   * the message is never empty by the time it is tested.
   */
  lemma BadRequestFallbackUnreachable(status: int, body: Body<StartJson>)
    requires StartErrorText(status, body) == BadRequestFallback
    ensures body.Parsed?
    ensures body.value.detail == Some(BadRequestFallback) || body.value.message == Some(BadRequestFallback)
  {
  }

  /** `iniciarAtendimento`: the parsed success body, or the selected error message. */
  function IniciarAtendimento(reply: HttpReply<StartJson>): (r: Outcome<StartJson>)
    ensures r.Returned? <==> reply.Reply? && IsOk(reply.status) && reply.body.Parsed?
    ensures r.Returned? ==> reply.body == Parsed(r.value)
    ensures reply.Reply? && !IsOk(reply.status) ==> r == Threw(StartErrorText(reply.status, reply.body))
    ensures reply.Reply? && reply.status == 422 ==> r == Threw(ExecucaoConflictText)
    ensures reply.NetworkError? ==> r == Threw(reply.message)
    ensures reply.Reply? && IsOk(reply.status) && reply.body.Unparsable? ==> r == Threw(reply.body.message)
  {
    match reply
    case NetworkError(m) => Threw(m)
    case Reply(status, body) =>
      if !IsOk(status) then Threw(StartErrorText(status, body))
      else JsonOf(body)
  }

  // ---------------------------------------------------------------------
  // avancarEtapa and salvarEtapa
  // ---------------------------------------------------------------------

  const DefaultAdvanceError: string := "Erro ao avançar etapa"

  /** The JSON body `avancarEtapa` posts. */
  datatype StagePayload = StagePayload(etapa: Option<string>, descricao: string, foto: string)

  /** The loosely typed `dados` of `salvarEtapa`. */
  datatype SaveInput = SaveInput(etapa: Option<string>, novaEtapa: Option<string>, descricao: Option<string>, foto: Option<string>)

  /** `salvarEtapa`'s payload: `etapa || novaEtapa`, and "" for a missing description or photo. */
  function SalvarEtapaPayload(d: SaveInput): (p: StagePayload)
    ensures Truthy(d.etapa) ==> p.etapa == d.etapa
    ensures !Truthy(d.etapa) ==> p.etapa == d.novaEtapa
    ensures p.descricao != "" <==> Truthy(d.descricao)
    ensures p.descricao != "" ==> d.descricao == Some(p.descricao)
    ensures p.foto != "" <==> Truthy(d.foto)
    ensures p.foto != "" ==> d.foto == Some(p.foto)
  {
    StagePayload(
      if Truthy(d.etapa) then d.etapa else d.novaEtapa,
      if Truthy(d.descricao) then d.descricao.value else "",
      if Truthy(d.foto) then d.foto.value else "")
  }

  /** `avancarEtapa`: the parsed success body, or `detail || "Erro ao avançar etapa"`. */
  function AvancarEtapa(reply: HttpReply<AdvanceJson>): (r: Outcome<AdvanceJson>)
    ensures r.Returned? <==> reply.Reply? && IsOk(reply.status) && reply.body.Parsed?
    ensures r.Returned? ==> reply.body == Parsed(r.value)
    ensures reply.Reply? && !IsOk(reply.status) ==> r.Threw? && r.message != ""
    ensures reply.Reply? && !IsOk(reply.status) && reply.body.Parsed? && Truthy(reply.body.value.detail) ==>
      r == Threw(reply.body.value.detail.value)
    ensures reply.Reply? && !IsOk(reply.status) && !(reply.body.Parsed? && Truthy(reply.body.value.detail)) ==>
      r == Threw(DefaultAdvanceError)
    ensures reply.NetworkError? ==> r == Threw(reply.message)
    ensures reply.Reply? && IsOk(reply.status) && reply.body.Unparsable? ==> r == Threw(reply.body.message)
  {
    match reply
    case NetworkError(m) => Threw(m)
    case Reply(status, body) =>
      if !IsOk(status) then
        Threw(if body.Parsed? && Truthy(body.value.detail) then body.value.detail.value else DefaultAdvanceError)
      else JsonOf(body)
  }

  // ---------------------------------------------------------------------
  // The calls that never throw
  // ---------------------------------------------------------------------

  /**
   * `getAtendimentoAtivo`: the parsed body of a 2xx reply; null for a 404,
   * any other failing status, a network error or an unparsable body.
   */
  function GetAtendimentoAtivo(reply: HttpReply<Option<AtivoView>>): (r: Option<AtivoView>)
    ensures r.Some? ==> reply.Reply? && IsOk(reply.status) && reply.body == Parsed(r)
    ensures reply.Reply? && IsOk(reply.status) && reply.body.Parsed? ==> r == reply.body.value
    ensures reply.NetworkError? || !IsOk(reply.status) || reply.body.Unparsable? ==> r.None?
  {
    match reply
    case NetworkError(_) => None
    case Reply(status, body) =>
      if status == 404 then None
      else if !IsOk(status) then None
      else match body
        case Parsed(data) => data
        case Unparsable(_) => None
  }

  /**
   * `getHistorico` and `getEtapas`: a 2xx array body unchanged; [] for a 404,
   * any other failing status, a non-array body and any error.
   */
  function ListOrEmpty<T>(reply: HttpReply<Listing<T>>): (r: seq<T>)
    ensures r != [] ==> reply.Reply? && IsOk(reply.status) && reply.body == Parsed(Array(r))
    ensures reply.Reply? && IsOk(reply.status) && reply.body.Parsed? && reply.body.value.Array? ==>
      r == reply.body.value.items
    ensures reply.NetworkError? || !IsOk(reply.status) || reply.body.Unparsable? || reply.body.value.NotArray? ==>
      r == []
  {
    match reply
    case NetworkError(_) => []
    case Reply(status, body) =>
      if status == 404 then []
      else if !IsOk(status) then []
      else match body
        case Unparsable(_) => []
        case Parsed(data) => if data.Array? then data.items else []
  }

  /**
   * `verificarPodeIniciarAtendimento`: true without an active engagement (so on
   * any error), otherwise true iff its stage is not EXECUCAO.
   */
  function VerificarPodeIniciarAtendimento(reply: HttpReply<Option<AtivoView>>): (b: bool)
    ensures b <==> GetAtendimentoAtivo(reply).None? || GetAtendimentoAtivo(reply).value.etapa != "EXECUCAO"
    ensures reply.NetworkError? || !IsOk(reply.status) ==> b
  {
    var ativo := GetAtendimentoAtivo(reply);
    if ativo.None? then true else ativo.value.etapa != "EXECUCAO"
  }
}
