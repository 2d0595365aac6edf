/**
 * The engagement page. Its stage list and the "next stage" step are pure;
 * loading and saving update the page state step by step. Replies of the
 * service calls are parameters, alerts are collected in order, and a
 * navigation is the route the page moves to.
 */
module AtendimentoPage {
  import opened Wrappers
  import opened Wire
  import Api

  /** The `etapas` constant: the client's copy of the stage list. */
  const Etapas: seq<string> := ["INSPECAO", "DIAGNOSTICO", "ORCAMENTO", "APROVACAO", "EXECUCAO", "FINALIZACAO"]

  /** `etapas.indexOf(s)`: the first position holding `s`, or -1. */
  function IndexOf(list: seq<string>, s: string): (i: int)
    ensures -1 <= i < |list|
    ensures i >= 0 ==> list[i] == s && forall k :: 0 <= k < i ==> list[k] != s
    ensures i == -1 <==> s !in list
  {
    if list == [] then -1
    else if list[0] == s then 0
    else
      var j := IndexOf(list[1..], s);
      if j == -1 then -1 else j + 1
  }

  /** The six entries are distinct, so each sits at its own position. */
  lemma EtapasDistinct()
    ensures forall i, j :: 0 <= i < j < |Etapas| ==> Etapas[i] != Etapas[j]
    ensures forall i :: 0 <= i < |Etapas| ==> IndexOf(Etapas, Etapas[i]) == i
  {
    forall i | 0 <= i < |Etapas| ensures IndexOf(Etapas, Etapas[i]) == i {
      var j := IndexOf(Etapas, Etapas[i]);
      assert j >= 0;
    }
  }

  /**
   * `etapas[etapas.indexOf(cur) + 1]`: the stage after `cur`; a stage not in
   * the list gives the first one, and the last stage gives none.
   */
  function Next(cur: string): (r: Option<string>)
    ensures r.None? <==> cur == "FINALIZACAO"
    ensures cur !in Etapas ==> r == Some("INSPECAO")
    ensures r.Some? && cur in Etapas ==> IndexOf(Etapas, r.value) == IndexOf(Etapas, cur) + 1
    ensures r.Some? ==> r.value in Etapas && r.value != ""
  {
    EtapasDistinct();
    var i := IndexOf(Etapas, cur) + 1;
    if i < |Etapas| then Some(Etapas[i]) else None
  }

  /** A timeline entry: the current stage, a stage already done, or one still pending. */
  datatype Mark = Current | Done | Pending

  /** The timeline classification of stage `e` while the page is at `cur`. */
  function MarkOf(e: string, cur: string): (m: Mark) {
    if e == cur then Current
    else if IndexOf(Etapas, e) < IndexOf(Etapas, cur) then Done
    else Pending
  }

  /**
   * Exactly one mark per listed stage: current iff it is `cur`, done iff it
   * comes earlier in the list, pending otherwise; an unknown `cur` marks
   * every stage pending.
   */
  lemma MarkOfCases(i: nat, cur: string)
    requires i < |Etapas|
    ensures MarkOf(Etapas[i], cur) == Current <==> Etapas[i] == cur
    ensures MarkOf(Etapas[i], cur) == Done <==> cur in Etapas && i < IndexOf(Etapas, cur)
    ensures MarkOf(Etapas[i], cur) == Pending <==> !(Etapas[i] == cur) && !(cur in Etapas && i < IndexOf(Etapas, cur))
  {
    EtapasDistinct();
  }

  /** A stage payload posted to `/atendimento/{atendimentoId}/etapa`. */
  datatype StagePost = StagePost(atendimentoId: int, payload: Api.StagePayload)

  /** The page's state. */
  class PageState {
    var etapaAtual: string
    var descricao: string
    var foto: string
    var historico: seq<EtapaView>
    var loading: bool
    /** Where the page navigated, if it did. */
    var location: Option<Route>
    /** The alerts shown, in order. */
    var alerts: seq<string>
    /** The stage payloads posted to the backend, in order. */
    var sent: seq<StagePost>

    /** The freshly mounted page: everything empty and loading. */
    constructor ()
      ensures etapaAtual == "" && descricao == "" && foto == "" && historico == []
      ensures loading && location.None? && alerts == [] && sent == []
    {
      etapaAtual := "";
      descricao := "";
      foto := "";
      historico := [];
      loading := true;
      location := None;
      alerts := [];
      sent := [];
    }

    /**
     * `avancar`: a purely local step to the next stage; from FINALIZACAO the
     * stage stays and the page alerts and returns to /tecnico. Nothing is sent.
     */
    method Avancar()
      modifies this
      ensures sent == old(sent) && descricao == old(descricao) && foto == old(foto) && historico == old(historico)
      ensures loading == old(loading)
      ensures match Next(old(etapaAtual))
        case Some(proxima) =>
          etapaAtual == proxima && location == old(location) && alerts == old(alerts)
        case None =>
          && etapaAtual == old(etapaAtual)
          && location == Some(TecnicoRoute)
          && alerts == old(alerts) + ["Atendimento concluído!"]
    {
      var index := IndexOf(Etapas, etapaAtual);
      var proxima := if index + 1 < |Etapas| then Some(Etapas[index + 1]) else None;
      if proxima.None? {
        alerts := alerts + ["Atendimento concluído!"];
        location := Some(TecnicoRoute);
        return;
      }
      etapaAtual := proxima.value;
    }

    /**
     * `carregarHistorico` for engagement `routeId`: the list `getEtapas`
     * yields, which is [] on any failure.
     */
    method CarregarHistorico(routeId: int, etapasReply: HttpReply<Listing<EtapaView>>)
      modifies this
      ensures historico == Api.ListOrEmpty(etapasReply)
      ensures etapaAtual == old(etapaAtual) && descricao == old(descricao) && foto == old(foto)
      ensures loading == old(loading) && location == old(location) && alerts == old(alerts) && sent == old(sent)
    {
      historico := Api.ListOrEmpty(etapasReply);
    }

    /**
     * `salvar`: nothing happens while no stage is set; otherwise the current
     * stage is posted with the description and photo, and on success the
     * form is cleared and the trail reloaded.
     */
    method Salvar(routeId: int, reply: HttpReply<AdvanceJson>, etapasReply: HttpReply<Listing<EtapaView>>)
      modifies this
      ensures etapaAtual == old(etapaAtual) && loading == old(loading) && location == old(location)
      ensures old(etapaAtual) == "" ==> unchanged(this)
      ensures old(etapaAtual) != "" ==>
        var payload := Api.SalvarEtapaPayload(
          Api.SaveInput(Some(old(etapaAtual)), None, Some(old(descricao)), Some(old(foto))));
        && sent == old(sent) + [StagePost(routeId, payload)]
        && payload.etapa == Some(old(etapaAtual))
        && match Api.AvancarEtapa(reply)
          case Returned(_) =>
            && descricao == "" && foto == ""
            && alerts == old(alerts) + ["Etapa salva"]
            && historico == Api.ListOrEmpty(etapasReply)
          case Threw(_) =>
            && descricao == old(descricao) && foto == old(foto)
            && alerts == old(alerts) + ["Erro ao salvar etapa"]
            && historico == old(historico)
    {
      if etapaAtual == "" {
        return;
      }
      var payload := Api.SalvarEtapaPayload(Api.SaveInput(Some(etapaAtual), None, Some(descricao), Some(foto)));
      sent := sent + [StagePost(routeId, payload)];
      var outcome := Api.AvancarEtapa(reply);
      if outcome.Threw? {
        alerts := alerts + ["Erro ao salvar etapa"];
        return;
      }
      alerts := alerts + ["Etapa salva"];
      descricao := "";
      foto := "";
      CarregarHistorico(routeId, etapasReply);
    }

    /**
     * `carregar`: without an active engagement the page returns to /tecnico
     * and sets no stage; otherwise it takes the engagement's stage and loads
     * the trail. Loading ends either way.
     */
    method Carregar(routeId: int, ativoReply: HttpReply<Option<AtivoView>>, etapasReply: HttpReply<Listing<EtapaView>>)
      modifies this
      ensures !loading && descricao == old(descricao) && foto == old(foto) && alerts == old(alerts) && sent == old(sent)
      ensures match Api.GetAtendimentoAtivo(ativoReply)
        case None =>
          location == Some(TecnicoRoute) && etapaAtual == old(etapaAtual) && historico == old(historico)
        case Some(ativo) =>
          location == old(location) && etapaAtual == ativo.etapa && historico == Api.ListOrEmpty(etapasReply)
    {
      var ativo := Api.GetAtendimentoAtivo(ativoReply);
      if ativo.None? {
        location := Some(TecnicoRoute);
        loading := false;
        return;
      }
      etapaAtual := ativo.value.etapa;
      CarregarHistorico(routeId, etapasReply);
      loading := false;
    }
  }
}
