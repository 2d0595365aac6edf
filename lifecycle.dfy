/**
 * How the two halves fit: the client's stage list is the backend's enum, the
 * client's "next stage" always passes the server's never-backwards check,
 * the Authorization header round-trips through the server's prefix
 * stripping, and the badges agree with the server's derived status.
 */
module Lifecycle {
  import opened Wrappers
  import opened Models
  import opened Wire
  import Text
  import Routes
  import Api
  import AtendimentoPage
  import TecnicoPage
  import HistoricoPage

  /** The client's stage list is the backend enum's values, in declaration order. */
  lemma ClientStagesAreEnum()
    ensures |AtendimentoPage.Etapas| == |EtapasOrdem|
    ensures forall i :: 0 <= i < |EtapasOrdem| ==> AtendimentoPage.Etapas[i] == EtapaValue(EtapasOrdem[i])
    ensures forall i :: 0 <= i < |EtapasOrdem| ==> EtapaNamed(AtendimentoPage.Etapas[i]) == Some(EtapasOrdem[i])
  {
    forall i | 0 <= i < |EtapasOrdem| ensures EtapaNamed(AtendimentoPage.Etapas[i]) == Some(EtapasOrdem[i]) {
      EtapaNamedValue(EtapasOrdem[i]);
    }
  }

  /** A stage's client position is its enum index. */
  lemma ClientIndexIsEnumIndex(e: Etapa)
    ensures AtendimentoPage.IndexOf(AtendimentoPage.Etapas, EtapaValue(e)) == Index(e)
  {
    ClientStagesAreEnum();
    AtendimentoPage.EtapasDistinct();
    assert AtendimentoPage.Etapas[Index(e)] == EtapaValue(e);
  }

  /** The client's step from a known stage is the enum successor. */
  lemma NextIsSuccessor(c: Etapa)
    ensures AtendimentoPage.Next(EtapaValue(c)).None? <==> c == FINALIZACAO
    ensures c != FINALIZACAO ==>
      && EtapaNamed(AtendimentoPage.Next(EtapaValue(c)).value).Some?
      && Index(EtapaNamed(AtendimentoPage.Next(EtapaValue(c)).value).value) == Index(c) + 1
  {
    ClientStagesAreEnum();
    ClientIndexIsEnumIndex(c);
    if c != FINALIZACAO {
      var n := AtendimentoPage.Next(EtapaValue(c)).value;
      assert n == AtendimentoPage.Etapas[Index(c) + 1];
      assert EtapaNamed(n) == Some(EtapasOrdem[Index(c) + 1]);
    }
  }

  /**
   * The client's advance-then-save posts the stage after `c`; it passes the
   * server's check exactly when the server's stage `cur` is not later than
   * the stage posted, so always when page and server agree.
   */
  lemma NextPassesServerCheck(cur: Etapa, c: Etapa)
    requires c != FINALIZACAO
    ensures Routes.StageCheck(cur, AtendimentoPage.Next(EtapaValue(c)).value).Accepted? <==> Index(cur) <= Index(c) + 1
    ensures cur == c ==> Routes.StageCheck(cur, AtendimentoPage.Next(EtapaValue(c)).value).Accepted?
  {
    NextIsSuccessor(c);
  }

  /** A page whose stage text is not a stage steps to INSPECAO, which the server accepts only at INSPECAO. */
  lemma UnknownClientStage(cur: Etapa, s: string)
    requires s !in AtendimentoPage.Etapas
    ensures AtendimentoPage.Next(s) == Some("INSPECAO")
    ensures Routes.StageCheck(cur, "INSPECAO").Accepted? <==> cur == INSPECAO
  {
  }

  /**
   * What the server's reply to a stage post looks like on the wire, and what
   * the client's `avancarEtapa` makes of it: the reply's body on success, the
   * server's detail (or the default text) as the thrown message on an error.
   */
  function AdvanceWire(r: Routes.HttpResult<Routes.AdvanceReply>): (w: HttpReply<AdvanceJson>)
    ensures r.Ok? ==> Api.AvancarEtapa(w) == Api.Returned(AdvanceJson(Some(r.value.etapa), Some(r.value.mensagem), None))
    ensures r.Fail? && !IsOk(r.code) ==>
      Api.AvancarEtapa(w) == Api.Threw(if r.detail != "" then r.detail else Api.DefaultAdvanceError)
  {
    match r
    case Ok(v) => Reply(200, Parsed(AdvanceJson(Some(v.etapa), Some(v.mensagem), None)))
    case Fail(code, detail) => Reply(code, Parsed(AdvanceJson(None, None, Some(detail))))
  }

  /**
   * The page's "Avançar" then "Salvar" against the backend: when the page
   * shows the engagement's current stage and the engagement is not finished,
   * the post is accepted, the engagement moves to the next stage, one record
   * is appended, and the page reports success.
   */
  method AdvanceThenSave(
    page: AtendimentoPage.PageState, backend: Routes.Backend,
    id: int, userId: int, now: int, etapasReply: HttpReply<Listing<EtapaView>>)
    returns (r: Routes.HttpResult<Routes.AdvanceReply>)
    requires backend.Valid()
    requires 1 <= id <= |backend.atendimentos|
    requires backend.atendimentos[id - 1].tecnicoId == userId
    requires backend.atendimentos[id - 1].etapa != FINALIZACAO
    requires page.etapaAtual == EtapaValue(backend.atendimentos[id - 1].etapa)
    modifies page, backend
    ensures backend.Valid()
    ensures r.Ok? && r.value.etapa == page.etapaAtual
    ensures |backend.atendimentos| == |old(backend.atendimentos)|
    ensures Index(backend.atendimentos[id - 1].etapa) == Index(old(backend.atendimentos[id - 1].etapa)) + 1
    ensures page.etapaAtual == EtapaValue(backend.atendimentos[id - 1].etapa)
    ensures |backend.historico| == |old(backend.historico)| + 1
    ensures backend.historico[..|old(backend.historico)|] == old(backend.historico)
    ensures page.alerts == old(page.alerts) + ["Etapa salva"]
    ensures page.descricao == "" && page.foto == ""
  {
    var c := backend.atendimentos[id - 1].etapa;
    NextIsSuccessor(c);
    page.Avancar();
    var etapa := page.etapaAtual;
    var nova := EtapaNamed(etapa).value;
    var payload := Api.SalvarEtapaPayload(Api.SaveInput(Some(etapa), None, Some(page.descricao), Some(page.foto)));
    r := backend.AvancarEtapa(id, userId, etapa, payload.descricao, payload.foto, now);
    EtapaNamedValue(nova);
    page.Salvar(id, AdvanceWire(r), etapasReply);
    assert backend.historico[..|old(backend.historico)|] == old(backend.historico);
  }

  /**
   * The page opened on `/atendimento/{id}` against the backend: `carregar`
   * takes its stage from `GET /atendimento/ativo`, which is the technician's
   * FIRST open engagement, whatever the route id. The page shows engagement
   * `id`'s stage when that engagement is the first open one.
   */
  method OpenPage(
    page: AtendimentoPage.PageState, backend: Routes.Backend,
    id: int, userId: int, etapasReply: HttpReply<Listing<EtapaView>>)
    requires backend.Valid()
    requires 1 <= id <= |backend.atendimentos|
    requires backend.atendimentos[id - 1].tecnicoId == userId && Routes.IsOpen(backend.atendimentos[id - 1])
    modifies page
    ensures Routes.FirstActiveOf(backend.atendimentos, userId).Some?
    ensures page.etapaAtual == EtapaValue(backend.atendimentos[Routes.FirstActiveOf(backend.atendimentos, userId).value].etapa)
    ensures Routes.FirstActiveOf(backend.atendimentos, userId) == Some(id - 1) ==>
      page.etapaAtual == EtapaValue(backend.atendimentos[id - 1].etapa)
    ensures !page.loading && page.location == old(page.location) && page.historico == Api.ListOrEmpty(etapasReply)
  {
    var ativo := backend.AtendimentoAtivo(userId);
    page.Carregar(id, Reply(200, Parsed(ativo)), etapasReply);
  }

  /** Two orders of technician 7, each with an open engagement: the first at DIAGNOSTICO, the second at INSPECAO. */
  const TwoOpenOrdens: seq<Os> := [Os(1, "A", "Rua 1", EM_CAMPO, Some(7)), Os(2, "B", "Rua 2", EM_CAMPO, Some(7))]
  const TwoOpenAtendimentos: seq<Atendimento> :=
    [Atendimento(1, 1, 7, Some(0), None, DIAGNOSTICO), Atendimento(2, 2, 7, Some(1), None, INSPECAO)]
  const TwoOpenHistorico: seq<EtapaHistorico> := [
    EtapaHistorico(1, 1, INSPECAO, "Início do atendimento", "", 0),
    EtapaHistorico(2, 1, DIAGNOSTICO, "", "", 1),
    EtapaHistorico(3, 2, INSPECAO, "Início do atendimento", "", 2)]

  /** The two-engagement tables satisfy the backend invariant. */
  lemma TwoOpenTablesOk()
    ensures Routes.TablesOk(TwoOpenOrdens, TwoOpenAtendimentos, TwoOpenHistorico)
  {
    TwoOpenRowsOk();
    TwoOpenHistoricoOk();
  }

  /** The order and engagement tables of the two-engagement example are well formed. */
  lemma TwoOpenRowsOk()
    ensures Routes.OsKeysDistinct(TwoOpenOrdens)
    ensures Routes.AtendimentoRowsOk(TwoOpenOrdens, TwoOpenAtendimentos)
    ensures Routes.OneOpenPerOs(TwoOpenAtendimentos)
    ensures Routes.ClosedAreFinal(TwoOpenAtendimentos)
  {
    var ordens := TwoOpenOrdens;
    assert ordens[0] in ordens && ordens[1] in ordens;
    assert 1 in Routes.OrderIds(ordens) && 2 in Routes.OrderIds(ordens);
  }

  /** The two-engagement history rows are well formed and each trail is monotone. */
  lemma TwoOpenHistoricoOk()
    ensures Routes.HistoricoRowsOk(TwoOpenAtendimentos, TwoOpenHistorico)
    ensures Routes.TrailsMonotone(TwoOpenHistorico)
  {
    var h := TwoOpenHistorico;
    assert Index(h[0].etapa) == 0 && Index(h[1].etapa) == 1 && Index(h[2].etapa) == 0;
    assert h[0].atendimentoId == 1 && h[1].atendimentoId == 1 && h[2].atendimentoId == 2;
  }

  /**
   * With two open engagements of one technician, "Continuar" on the second
   * shows the first one's stage, and the stage after it is accepted for the
   * second engagement: the second skips a stage. The tables are valid ones.
   */
  lemma ContinueOnSecondSkipsStage()
    ensures Routes.TablesOk(TwoOpenOrdens, TwoOpenAtendimentos, TwoOpenHistorico)
    ensures Routes.FirstActiveOf(TwoOpenAtendimentos, 7) == Some(0)
    ensures AtendimentoPage.Next(EtapaValue(TwoOpenAtendimentos[0].etapa)) == Some("ORCAMENTO")
    ensures Routes.StageCheck(TwoOpenAtendimentos[1].etapa, "ORCAMENTO") == Routes.Accepted(ORCAMENTO)
    ensures Index(ORCAMENTO) == Index(TwoOpenAtendimentos[1].etapa) + 2
  {
    TwoOpenTablesOk();
    NextIsSuccessor(DIAGNOSTICO);
    EtapaNamedValue(ORCAMENTO);
  }

  /** The page's own check agrees with the service-layer check on every reply. */
  lemma PodeIniciarAgrees(reply: HttpReply<Option<AtivoView>>)
    ensures Api.VerificarPodeIniciarAtendimento(reply) == TecnicoPage.PodeIniciar(Api.GetAtendimentoAtivo(reply))
  {
  }

  /**
   * The header the client sends carries the token behind "Bearer ", and the
   * server's stripping recovers it when the token does not itself contain
   * "Bearer ".
   */
  lemma {:induction false} BearerRoundTrip(token: string)
    requires !Text.Contains(token, Api.BearerPrefix)
    ensures Text.ReplaceAll(Api.AuthHeader(Some(token)), Routes.BearerPrefix, "") == token
  {
    var h := Api.AuthHeader(Some(token));
    assert h == Routes.BearerPrefix + token;
    assert h[..|Routes.BearerPrefix|] == Routes.BearerPrefix;
    assert h[|Routes.BearerPrefix|..] == token;
    Text.ReplaceAllAbsent(token, Routes.BearerPrefix, "");
  }

  /** With such a token the server resolves the header to the token's technician, or answers 401. */
  lemma CurrentUserFromHeader(backend: Routes.Backend, token: string, decodeToken: map<string, int>)
    requires !Text.Contains(token, Api.BearerPrefix)
    ensures backend.CurrentUser(Api.AuthHeader(Some(token)), decodeToken).Ok? <==>
      token in decodeToken && decodeToken[token] in backend.tecnicos
    ensures backend.CurrentUser(Api.AuthHeader(Some(token)), decodeToken).Ok? ==>
      backend.CurrentUser(Api.AuthHeader(Some(token)), decodeToken).value == decodeToken[token]
  {
    BearerRoundTrip(token);
  }

  /** The history card of a server item reads "Concluído" iff the engagement is closed, and offers "Continuar" iff it is open. */
  lemma BadgeMatchesServerStatus(ordens: seq<Os>, historico: seq<EtapaHistorico>, a: Atendimento)
    ensures HistoricoPage.CardOf(Routes.HistoryItem(ordens, historico, a)).badge == HistoricoPage.Concluido <==> a.horaFim.Some?
    ensures HistoricoPage.CardOf(Routes.HistoryItem(ordens, historico, a)).continuar <==> a.horaFim.None?
  {
    var item := Routes.HistoryItem(ordens, historico, a);
    assert item.status == Some(Routes.StatusOf(a));
  }

  /**
   * The server does not enforce one active engagement per technician: with
   * an open engagement at EXECUCAO on one order, the same technician may
   * still start on another.
   */
  lemma ServerAllowsSecondActive()
    ensures var ordens := [Os(1, "A", "Rua 1", EM_CAMPO, Some(7)), Os(2, "B", "Rua 2", EM_ABERTO, None)];
      var atendimentos := [Atendimento(1, 1, 7, Some(0), None, EXECUCAO)];
      var historico := [EtapaHistorico(1, 1, INSPECAO, "Início do atendimento", "", 0), EtapaHistorico(2, 1, EXECUCAO, "", "", 1)];
      && Routes.TablesOk(ordens, atendimentos, historico)
      && Routes.PlanStart(ordens, atendimentos, 2, 7) == Routes.Fresh(1)
  {
    var ordens := [Os(1, "A", "Rua 1", EM_CAMPO, Some(7)), Os(2, "B", "Rua 2", EM_ABERTO, None)];
    var atendimentos := [Atendimento(1, 1, 7, Some(0), None, EXECUCAO)];
    assert Routes.FindOs(ordens, 1) == Some(0);
    assert Routes.FindOs(ordens, 2) == Some(1);
    assert 1 in Routes.OrderIds(ordens);
    assert Routes.FirstOpenOn(atendimentos, 2).None?;
  }
}
