/**
 * The JSON bodies exchanged between the backend handlers and the browser
 * client, and the shape of a reply as `fetch` delivers it. Optional fields
 * are those that may be absent or null on the wire. Timestamps travel as
 * abstract instants (their ISO-8601 text is not modelled).
 */
module Wire {
  import opened Wrappers

  /** What `res.json()` gives: a parsed value, or the rejection it throws. */
  datatype Body<T> = Unparsable(message: string) | Parsed(value: T)

  /** What `await fetch(...)` gives: a rejection (network failure), or a status and body. */
  datatype HttpReply<T> = NetworkError(message: string) | Reply(status: int, body: Body<T>)

  /** A parsed JSON body that `Array.isArray` accepts, or any other JSON value. */
  datatype Listing<T> = Array(items: seq<T>) | NotArray

  /** `res.ok`: the status is in the 2xx range. */
  predicate IsOk(status: int) {
    200 <= status <= 299
  }

  /** An item of `GET /os/abertas`. */
  datatype OsView = OsView(id: int, cliente: string, endereco: string, status: string, tecnicoId: Option<int>)

  /** The service order nested in `GET /atendimento/ativo`. */
  datatype AtivoOs = AtivoOs(id: int, cliente: string, endereco: string, status: string)

  /** The body of `GET /atendimento/ativo` when an engagement is open. */
  datatype AtivoView = AtivoView(id: int, etapa: string, os: AtivoOs)

  /** One stage record as listed by the history endpoints. */
  datatype EtapaView = EtapaView(
    id: int, etapa: Option<string>, descricao: Option<string>, foto: Option<string>, criadoEm: Option<int>)

  /** One engagement of `GET /atendimentos/historico`. */
  datatype HistoricoView = HistoricoView(
    id: int, osId: int, cliente: Option<string>, endereco: Option<string>, etapaAtual: Option<string>,
    horaInicio: Option<int>, horaFim: Option<int>, status: Option<string>, etapas: Option<seq<EtapaView>>)

  /** Body of `POST /os/{id}/iniciar`: `{id, mensagem}` on success, `{detail}` on an HTTP error. */
  datatype StartJson = StartJson(id: Option<int>, mensagem: Option<string>, detail: Option<string>, message: Option<string>)

  /** Body of `POST /atendimento/{id}/etapa`: `{etapa, mensagem}` on success, `{detail}` on an HTTP error. */
  datatype AdvanceJson = AdvanceJson(etapa: Option<string>, mensagem: Option<string>, detail: Option<string>)

  /** The client routes the pages navigate to. */
  datatype Route = LoginRoute | TecnicoRoute | HistoricoRoute | AtendimentoRoute(id: int)
}
