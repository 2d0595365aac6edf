/**
 * The history page: the status badge, the placeholders for missing fields,
 * the single-selection expand toggle and the load. The list comes from
 * `getHistorico`, which is given its reply.
 */
module HistoricoPage {
  import opened Wrappers
  import opened Wire
  import Api

  /** The label of a status badge. */
  datatype Badge = Concluido | EmAndamento | Cancelado

  function BadgeText(b: Badge): string {
    match b
    case Concluido => "Concluído"
    case EmAndamento => "Em Andamento"
    case Cancelado => "Cancelado"
  }

  /**
   * `getStatusBadge(status = "em_andamento")`: the three known keys map to
   * their labels; a missing status and any other key give "Em Andamento".
   */
  function StatusBadge(status: Option<string>): (b: Badge)
    ensures b == Concluido <==> status == Some("concluido")
    ensures b == Cancelado <==> status == Some("cancelado")
    ensures b == EmAndamento <==> status != Some("concluido") && status != Some("cancelado")
  {
    var key := status.GetOr("em_andamento");
    if key == "concluido" then Concluido
    else if key == "cancelado" then Cancelado
    else EmAndamento
  }

  /** `value || placeholder` for an optional text field. */
  function OrPlaceholder(value: Option<string>, placeholder: string): (t: string)
    ensures Api.Truthy(value) ==> t == value.value
    ensures !Api.Truthy(value) ==> t == placeholder
    ensures placeholder != "" ==> t != ""
  {
    if Api.Truthy(value) then value.value else placeholder
  }

  /** The texts a history card shows. */
  datatype Card = Card(cliente: string, endereco: string, etapaAtual: string, totalEtapas: nat, badge: Badge, continuar: bool)

  /** `item.etapas?.length || 0`. */
  function StepCount(etapas: Option<seq<EtapaView>>): (n: nat)
    ensures etapas.None? ==> n == 0
    ensures etapas.Some? ==> n == |etapas.value|
  {
    if etapas.Some? && |etapas.value| != 0 then |etapas.value| else 0
  }

  /** The card of one history item, with the placeholders for missing fields. */
  function CardOf(item: HistoricoView): (c: Card)
    ensures c.cliente != "" && c.endereco != "" && c.etapaAtual != ""
    ensures !Api.Truthy(item.cliente) ==> c.cliente == "Cliente não identificado"
    ensures !Api.Truthy(item.endereco) ==> c.endereco == "Endereço não informado"
    ensures !Api.Truthy(item.etapaAtual) ==> c.etapaAtual == "N/A"
    ensures Api.Truthy(item.cliente) ==> c.cliente == item.cliente.value
    ensures Api.Truthy(item.endereco) ==> c.endereco == item.endereco.value
    ensures Api.Truthy(item.etapaAtual) ==> c.etapaAtual == item.etapaAtual.value
    ensures c.totalEtapas == StepCount(item.etapas) && c.badge == StatusBadge(item.status)
    ensures c.continuar <==> item.status == Some("em_andamento")
    ensures c.continuar ==> c.badge == EmAndamento
  {
    Card(
      OrPlaceholder(item.cliente, "Cliente não identificado"),
      OrPlaceholder(item.endereco, "Endereço não informado"),
      OrPlaceholder(item.etapaAtual, "N/A"),
      StepCount(item.etapas),
      StatusBadge(item.status),
      item.status == Some("em_andamento"))
  }

  /** The texts of one stage entry in an expanded card. */
  function StepTexts(e: EtapaView): (t: (string, string))
    ensures t.0 != "" && t.1 != ""
    ensures !Api.Truthy(e.etapa) ==> t.0 == "Etapa"
    ensures !Api.Truthy(e.descricao) ==> t.1 == "Sem descrição"
    ensures Api.Truthy(e.etapa) ==> t.0 == e.etapa.value
    ensures Api.Truthy(e.descricao) ==> t.1 == e.descricao.value
  {
    (OrPlaceholder(e.etapa, "Etapa"), OrPlaceholder(e.descricao, "Sem descrição"))
  }

  /** `toggleExpandir(id)` as a value: close `id` if it is open, otherwise open it alone. */
  function Toggled(expandido: Option<int>, id: int): (r: Option<int>)
    ensures r == None <==> expandido == Some(id)
    ensures r.Some? ==> r == Some(id)
  {
    if expandido == Some(id) then None else Some(id)
  }

  /** Toggling the same card twice restores the state exactly when at most that card was open. */
  lemma ToggleTwice(expandido: Option<int>, id: int)
    ensures Toggled(Toggled(expandido, id), id) == expandido <==> expandido.None? || expandido == Some(id)
    ensures Toggled(Toggled(expandido, id), id) == Some(id) || Toggled(Toggled(expandido, id), id).None?
  {
  }

  class PageState {
    var historico: seq<HistoricoView>
    var carregando: bool
    var erro: Option<string>
    /** The id of the one expanded card, if any. */
    var expandido: Option<int>

    constructor ()
      ensures historico == [] && carregando && erro.None? && expandido.None?
    {
      historico := [];
      carregando := true;
      erro := None;
      expandido := None;
    }

    /** `toggleExpandir`. */
    method ToggleExpandir(id: int)
      modifies this
      ensures expandido == Toggled(old(expandido), id)
      ensures historico == old(historico) && carregando == old(carregando) && erro == old(erro)
    {
      expandido := if expandido == Some(id) then None else Some(id);
    }

    /**
     * `carregarHistorico`: the error is cleared and the list replaced by what
     * `getHistorico` yields; since that call never throws, the failure branch
     * that resets the list is taken only when the outcome is a throw.
     */
    method CarregarHistorico(dados: Api.Outcome<seq<HistoricoView>>)
      modifies this
      ensures !carregando && expandido == old(expandido)
      ensures dados.Returned? ==> historico == dados.value && erro.None?
      ensures dados.Threw? ==>
        historico == [] && erro == Some(if dados.message != "" then dados.message else "Erro ao carregar histórico")
      ensures erro.Some? ==> erro.value != ""
    {
      carregando := true;
      erro := None;
      match dados {
        case Returned(list) =>
          historico := list;
        case Threw(message) =>
          erro := Some(if message != "" then message else "Erro ao carregar histórico");
          historico := [];
      }
      carregando := false;
    }

    /** The load as the page runs it, on the reply to `GET /atendimentos/historico`. */
    method Carregar(reply: HttpReply<Listing<HistoricoView>>)
      modifies this
      ensures historico == Api.ListOrEmpty(reply) && erro.None? && !carregando
      ensures expandido == old(expandido)
    {
      CarregarHistorico(Api.Returned(Api.ListOrEmpty(reply)));
    }
  }
}
