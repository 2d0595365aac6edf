/**
 * The backend's engagement handlers. The database is a `Backend` object whose
 * fields are the four tables; each handler is a method that reads and updates
 * them in place and returns either its JSON reply or the HTTP error it raises.
 * Row ids are assigned by autoincrement from 1 and rows are never deleted, so
 * the row with id `i` sits at position `i - 1`. The clock is the parameter
 * `now`, and the token decoder is a partial map from token to technician id.
 */
module Routes {
  import opened Wrappers
  import opened Models
  import opened Wire
  import opened Seqs
  import Text

  /** A handler's outcome: its reply, or the `HTTPException(code, detail)` it raises. */
  datatype HttpResult<T> = Ok(value: T) | Fail(code: int, detail: string)

  /** The reply `{"id", "mensagem"}` of `POST /os/{id}/iniciar`. */
  datatype StartReply = StartReply(id: int, mensagem: string)

  /** The reply `{"etapa", "mensagem"}` of `POST /atendimento/{id}/etapa`. */
  datatype AdvanceReply = AdvanceReply(etapa: string, mensagem: string)

  const BearerPrefix: string := "Bearer "

  // ---------------------------------------------------------------------
  // Queries over the tables
  // ---------------------------------------------------------------------

  /** `db.get(OS, id)`: the position of the service order with that id. */
  function FindOs(ordens: seq<Os>, id: int): (r: Option<nat>)
    ensures r.Some? ==> r.value < |ordens| && ordens[r.value].id == id
    ensures r.Some? ==> forall k :: 0 <= k < r.value ==> ordens[k].id != id
    ensures r.None? ==> forall k :: 0 <= k < |ordens| ==> ordens[k].id != id
  {
    if ordens == [] then None
    else if ordens[0].id == id then Some(0)
    else match FindOs(ordens[1..], id)
      case None => None
      case Some(k) => Some(k + 1)
  }

  /** The ids of the service orders in the table. */
  function OrderIds(ordens: seq<Os>): (ids: set<int>)
    ensures forall o :: o in ordens ==> o.id in ids
    ensures forall id :: id in ids ==> exists o :: o in ordens && o.id == id
  {
    set o | o in ordens :: o.id
  }

  /** `db.get` finds an order exactly when its id is in the table. */
  lemma FindOsIffListed(ordens: seq<Os>, id: int)
    ensures FindOs(ordens, id).Some? <==> id in OrderIds(ordens)
  {
    if id in OrderIds(ordens) {
      var o :| o in ordens && o.id == id;
      var k :| 0 <= k < |ordens| && ordens[k] == o;
    }
  }

  /** An engagement is open while its `hora_fim` is null. */
  predicate IsOpen(a: Atendimento) {
    a.horaFim.None?
  }

  /** `filter(os_id == osId, hora_fim IS NULL).first()`, taking rows in id order. */
  function FirstOpenOn(atendimentos: seq<Atendimento>, osId: int): (r: Option<nat>)
    ensures r.Some? ==> r.value < |atendimentos| && atendimentos[r.value].osId == osId && IsOpen(atendimentos[r.value])
    ensures r.Some? ==> forall k :: 0 <= k < r.value ==> !(atendimentos[k].osId == osId && IsOpen(atendimentos[k]))
    ensures r.None? ==> forall k :: 0 <= k < |atendimentos| ==> !(atendimentos[k].osId == osId && IsOpen(atendimentos[k]))
  {
    if atendimentos == [] then None
    else if atendimentos[0].osId == osId && IsOpen(atendimentos[0]) then Some(0)
    else match FirstOpenOn(atendimentos[1..], osId)
      case None => None
      case Some(k) => Some(k + 1)
  }

  /** `filter(tecnico_id == user, hora_fim IS NULL).first()`, taking rows in id order. */
  function FirstActiveOf(atendimentos: seq<Atendimento>, userId: int): (r: Option<nat>)
    ensures r.Some? ==> r.value < |atendimentos| && atendimentos[r.value].tecnicoId == userId && IsOpen(atendimentos[r.value])
    ensures r.Some? ==> forall k :: 0 <= k < r.value ==> !(atendimentos[k].tecnicoId == userId && IsOpen(atendimentos[k]))
    ensures r.None? ==> forall k :: 0 <= k < |atendimentos| ==> !(atendimentos[k].tecnicoId == userId && IsOpen(atendimentos[k]))
  {
    if atendimentos == [] then None
    else if atendimentos[0].tecnicoId == userId && IsOpen(atendimentos[0]) then Some(0)
    else match FirstActiveOf(atendimentos[1..], userId)
      case None => None
      case Some(k) => Some(k + 1)
  }

  /** The stage records of one engagement, in creation order. */
  function EtapasOf(historico: seq<EtapaHistorico>, atendimentoId: int): (r: seq<EtapaHistorico>)
    ensures forall x :: x in r ==> x in historico && x.atendimentoId == atendimentoId
    ensures forall x :: x in historico && x.atendimentoId == atendimentoId ==> x in r
  {
    if historico == [] then []
    else
      (if historico[0].atendimentoId == atendimentoId then [historico[0]] else [])
      + EtapasOf(historico[1..], atendimentoId)
  }

  /**
   * `order_by(criado_em)` over rows inserted in table order: the trail embeds
   * into the history table in order, at exactly the engagement's rows.
   */
  lemma {:induction false} EtapasOfEmbedding(historico: seq<EtapaHistorico>, atendimentoId: int) returns (f: seq<nat>)
    ensures Embeds(EtapasOf(historico, atendimentoId), historico, f)
    ensures forall j :: 0 <= j < |historico| ==> (j in f <==> historico[j].atendimentoId == atendimentoId)
  {
    if historico == [] {
      f := [];
    } else {
      var g := EtapasOfEmbedding(historico[1..], atendimentoId);
      var keep := historico[0].atendimentoId == atendimentoId;
      f := EmbedsCons(EtapasOf(historico[1..], atendimentoId), historico, g, keep);
      forall j | 1 <= j < |historico|
        ensures j in f <==> historico[j].atendimentoId == atendimentoId
      {
        assert historico[1..][j - 1] == historico[j];
      }
    }
  }

  /** One engagement's trail is an order-preserving subsequence of the history table. */
  lemma EtapasOfInOrder(historico: seq<EtapaHistorico>, atendimentoId: int)
    ensures IsSubsequence(EtapasOf(historico, atendimentoId), historico)
  {
    var f := EtapasOfEmbedding(historico, atendimentoId);
  }

  /** A trail whose stages never go backwards. */
  ghost predicate NonDecreasing(trail: seq<EtapaHistorico>) {
    forall i, j :: 0 <= i < j < |trail| ==> Index(trail[i].etapa) <= Index(trail[j].etapa)
  }

  // ---------------------------------------------------------------------
  // What the tables always satisfy
  // ---------------------------------------------------------------------

  /** `os.id` is a primary key. */
  ghost predicate OsKeysDistinct(ordens: seq<Os>) {
    forall i, j :: 0 <= i < j < |ordens| ==> ordens[i].id != ordens[j].id
  }

  /** Engagement ids are their autoincrement positions, and each refers to an existing order. */
  ghost predicate AtendimentoRowsOk(ordens: seq<Os>, atendimentos: seq<Atendimento>) {
    forall i :: 0 <= i < |atendimentos| ==>
      atendimentos[i].id == i + 1 && atendimentos[i].osId in OrderIds(ordens)
  }

  /**
   * Stage-record ids are their autoincrement positions, each refers to an
   * existing engagement, and no record is past its engagement's current stage.
   */
  ghost predicate HistoricoRowsOk(atendimentos: seq<Atendimento>, historico: seq<EtapaHistorico>) {
    forall i :: 0 <= i < |historico| ==>
      && historico[i].id == i + 1
      && 1 <= historico[i].atendimentoId <= |atendimentos|
      && Index(historico[i].etapa) <= Index(atendimentos[historico[i].atendimentoId - 1].etapa)
  }

  /** No two open engagements on one service order. */
  ghost predicate OneOpenPerOs(atendimentos: seq<Atendimento>) {
    forall i, j :: 0 <= i < j < |atendimentos| && atendimentos[i].osId == atendimentos[j].osId ==>
      !IsOpen(atendimentos[i]) || !IsOpen(atendimentos[j])
  }

  /** A closed engagement is at FINALIZACAO. */
  ghost predicate ClosedAreFinal(atendimentos: seq<Atendimento>) {
    forall i :: 0 <= i < |atendimentos| && !IsOpen(atendimentos[i]) ==> atendimentos[i].etapa == FINALIZACAO
  }

  /** Each engagement's records, in creation order, never go backwards. */
  ghost predicate TrailsMonotone(historico: seq<EtapaHistorico>) {
    forall i, j :: 0 <= i < j < |historico| && historico[i].atendimentoId == historico[j].atendimentoId ==>
      Index(historico[i].etapa) <= Index(historico[j].etapa)
  }

  ghost predicate TablesOk(ordens: seq<Os>, atendimentos: seq<Atendimento>, historico: seq<EtapaHistorico>) {
    && OsKeysDistinct(ordens)
    && AtendimentoRowsOk(ordens, atendimentos)
    && HistoricoRowsOk(atendimentos, historico)
    && OneOpenPerOs(atendimentos)
    && ClosedAreFinal(atendimentos)
    && TrailsMonotone(historico)
  }

  // ---------------------------------------------------------------------
  // The decisions the handlers take
  // ---------------------------------------------------------------------

  /** The order is being served (EM_ATENDIMENTO or EM_CAMPO) by someone other than `userId`. */
  predicate TakenByOther(o: Os, userId: int) {
    (o.status == EM_ATENDIMENTO || o.status == EM_CAMPO) && o.tecnicoId != Some(userId)
  }

  /** The five ways `iniciar_atendimento` can go, in the order it tests them. */
  datatype StartPlan = OsMissing | HeldByOther | OpenByOther | Resume(id: int) | Fresh(k: nat)

  /**
   * The decision of `iniciar_atendimento`: a missing order is 404; an order
   * served by another technician, or with another technician's open
   * engagement, is 400; the caller's own open engagement is returned again;
   * otherwise a new engagement starts on the order at position `k`.
   */
  function PlanStart(ordens: seq<Os>, atendimentos: seq<Atendimento>, osId: int, userId: int): (p: StartPlan)
    ensures p.OsMissing? <==> FindOs(ordens, osId).None?
    ensures p.HeldByOther? <==> FindOs(ordens, osId).Some? && TakenByOther(ordens[FindOs(ordens, osId).value], userId)
    ensures p.OpenByOther? || p.Resume? || p.Fresh? ==>
      FindOs(ordens, osId).Some? && !TakenByOther(ordens[FindOs(ordens, osId).value], userId)
    ensures p.OpenByOther? <==>
      && !p.OsMissing? && !p.HeldByOther?
      && FirstOpenOn(atendimentos, osId).Some?
      && atendimentos[FirstOpenOn(atendimentos, osId).value].tecnicoId != userId
    ensures p.Resume? ==>
      var i := FirstOpenOn(atendimentos, osId);
      i.Some? && atendimentos[i.value].tecnicoId == userId && p.id == atendimentos[i.value].id
    ensures p.Fresh? <==> !p.OsMissing? && !p.HeldByOther? && FirstOpenOn(atendimentos, osId).None?
    ensures p.Fresh? ==> FindOs(ordens, osId) == Some(p.k)
  {
    match FindOs(ordens, osId)
    case None => OsMissing
    case Some(k) =>
      if TakenByOther(ordens[k], userId) then HeldByOther
      else match FirstOpenOn(atendimentos, osId)
        case Some(i) => if atendimentos[i].tecnicoId != userId then OpenByOther else Resume(atendimentos[i].id)
        case None => Fresh(k)
  }

  /** The order at position `k` once a start has claimed it for `userId`. */
  function StartedOrdens(ordens: seq<Os>, k: nat, userId: int): (r: seq<Os>)
    requires k < |ordens|
    ensures |r| == |ordens| && r[k].id == ordens[k].id
    ensures r[k].status == EM_ATENDIMENTO && r[k].tecnicoId == Some(userId)
    ensures r[k].cliente == ordens[k].cliente && r[k].endereco == ordens[k].endereco
    ensures forall i :: 0 <= i < |r| && i != k ==> r[i] == ordens[i]
  {
    ordens[k := ordens[k].(status := EM_ATENDIMENTO, tecnicoId := Some(userId))]
  }

  /** The first stage record of a new engagement: INSPECAO, "Início do atendimento", no photo. */
  function StartRecord(id: int, atendimentoId: int, now: int): (h: EtapaHistorico)
    ensures h.id == id && h.atendimentoId == atendimentoId && h.criadoEm == now
    ensures h.etapa == INSPECAO && h.descricao == "Início do atendimento" && h.foto == ""
  {
    NewEtapaHistorico(id, atendimentoId, INSPECAO, "Início do atendimento", "", now)
  }

  /** The three ways `avancar_etapa` can judge a requested stage name. */
  datatype StageVerdict = UnknownStage | Backwards(to: Etapa) | Accepted(nova: Etapa)

  /** The stage validation of `avancar_etapa`: the name must be a stage, and not an earlier one. */
  function StageCheck(current: Etapa, name: string): (v: StageVerdict)
    ensures v.UnknownStage? <==> EtapaNamed(name).None?
    ensures v.Accepted? <==> EtapaNamed(name).Some? && Index(current) <= Index(EtapaNamed(name).value)
    ensures v.Backwards? <==> EtapaNamed(name).Some? && Index(EtapaNamed(name).value) < Index(current)
    ensures v.Accepted? ==> v.nova == EtapaNamed(name).value
    ensures v.Backwards? ==> v.to == EtapaNamed(name).value
  {
    match EtapaNamed(name)
    case None => UnknownStage
    case Some(nova) =>
      if Index(nova) <= Index(current) && nova != current then Backwards(nova) else Accepted(nova)
  }

  /** The status a service order takes when its engagement is advanced to `nova`. */
  function OsStatusFor(nova: Etapa): (s: StatusOS) {
    if nova == ORCAMENTO || nova == APROVACAO then AGUARDANDO
    else if nova == EXECUCAO then EM_CAMPO
    else if nova == FINALIZACAO then CONCLUIDA
    else EM_ATENDIMENTO
  }

  /** The status mapping: which stages give which status, and never EM_ABERTO. */
  lemma OsStatusForCases(e: Etapa)
    ensures OsStatusFor(e) == AGUARDANDO <==> e == ORCAMENTO || e == APROVACAO
    ensures OsStatusFor(e) == EM_CAMPO <==> e == EXECUCAO
    ensures OsStatusFor(e) == CONCLUIDA <==> e == FINALIZACAO
    ensures OsStatusFor(e) == EM_ATENDIMENTO <==> e == INSPECAO || e == DIAGNOSTICO
    ensures OsStatusFor(e) != EM_ABERTO
  {
  }

  /** Advancing further never moves the order's status back in declaration order. */
  lemma OsStatusMonotone(a: Etapa, b: Etapa)
    requires Index(a) <= Index(b)
    ensures StatusIndex(OsStatusFor(a)) <= StatusIndex(OsStatusFor(b))
  {
  }

  /** The engagement after an accepted advance: new stage, and `hora_fim` stamped at FINALIZACAO. */
  function Advanced(a: Atendimento, nova: Etapa, now: int): (b: Atendimento)
    ensures b.etapa == nova
    ensures b.horaFim == if nova == FINALIZACAO then Some(now) else a.horaFim
    ensures b.id == a.id && b.osId == a.osId && b.tecnicoId == a.tecnicoId && b.horaInicio == a.horaInicio
  {
    a.(etapa := nova, horaFim := if nova == FINALIZACAO then Some(now) else a.horaFim)
  }

  /** `listar_os`'s test: not CONCLUIDA (the query) and not served by another technician (the loop). */
  predicate Visible(o: Os, userId: int) {
    o.status != CONCLUIDA && !TakenByOther(o, userId)
  }

  /** The orders `listar_os` returns, in table order. */
  function VisibleOrders(ordens: seq<Os>, userId: int): seq<Os> {
    if ordens == [] then []
    else
      VisibleOrders(ordens[..|ordens| - 1], userId)
      + (if Visible(ordens[|ordens| - 1], userId) then [ordens[|ordens| - 1]] else [])
  }

  /** Exactly the visible orders are listed. */
  lemma {:induction false} VisibleOrdersMembers(ordens: seq<Os>, userId: int)
    ensures forall o :: o in VisibleOrders(ordens, userId) <==> o in ordens && Visible(o, userId)
  {
    if ordens != [] {
      var init := ordens[..|ordens| - 1];
      VisibleOrdersMembers(init, userId);
      assert ordens == init + [ordens[|ordens| - 1]];
    }
  }

  /** The listing is an order-preserving subsequence of the table; the witness is returned. */
  lemma {:induction false} VisibleOrdersEmbedding(ordens: seq<Os>, userId: int) returns (f: seq<nat>)
    ensures Embeds(VisibleOrders(ordens, userId), ordens, f)
    ensures forall i :: 0 <= i < |f| ==> f[i] < |ordens|
  {
    if ordens == [] {
      f := [];
    } else {
      var n := |ordens| - 1;
      var g := VisibleOrdersEmbedding(ordens[..n], userId);
      var keep := Visible(ordens[n], userId);
      EmbedsSnoc(VisibleOrders(ordens[..n], userId), ordens, g, keep);
      f := g + (if keep then [n] else []);
    }
  }

  /**
   * What `listar_os` promises: an order-preserving subsequence of the orders,
   * never a CONCLUIDA one, never one EM_ATENDIMENTO or EM_CAMPO under another
   * technician, and every other order is present.
   */
  lemma ListedOrders(ordens: seq<Os>, userId: int)
    ensures IsSubsequence(VisibleOrders(ordens, userId), ordens)
    ensures forall o :: o in VisibleOrders(ordens, userId) ==> o in ordens && o.status != CONCLUIDA
    ensures forall o :: o in VisibleOrders(ordens, userId) ==>
      !((o.status == EM_ATENDIMENTO || o.status == EM_CAMPO) && o.tecnicoId != Some(userId))
    ensures forall o :: o in ordens && Visible(o, userId) ==> o in VisibleOrders(ordens, userId)
  {
    var f := VisibleOrdersEmbedding(ordens, userId);
    VisibleOrdersMembers(ordens, userId);
  }

  /** `"concluido" if atendimento.hora_fim else "em_andamento"`. */
  function StatusOf(a: Atendimento): (s: string)
    ensures s == "concluido" <==> !IsOpen(a)
    ensures s == "em_andamento" <==> IsOpen(a)
  {
    if a.horaFim.Some? then "concluido" else "em_andamento"
  }

  /** One stage record as the history endpoints serialise it. */
  function EtapaJson(h: EtapaHistorico): EtapaView {
    EtapaView(h.id, Some(EtapaValue(h.etapa)), Some(h.descricao), Some(h.foto), Some(h.criadoEm))
  }

  function TrailJson(trail: seq<EtapaHistorico>): (r: seq<EtapaView>)
    ensures |r| == |trail| && forall i :: 0 <= i < |r| ==> r[i] == EtapaJson(trail[i])
  {
    seq(|trail|, i requires 0 <= i < |trail| => EtapaJson(trail[i]))
  }

  /** The history item `listar_historico_completo` builds for one engagement. */
  function HistoryItem(ordens: seq<Os>, historico: seq<EtapaHistorico>, a: Atendimento): (v: HistoricoView)
    ensures v.id == a.id && v.osId == a.osId && v.horaInicio == a.horaInicio && v.horaFim == a.horaFim
    ensures v.etapaAtual == Some(EtapaValue(a.etapa))
    ensures FindOs(ordens, a.osId).Some? ==>
      && v.cliente == Some(ordens[FindOs(ordens, a.osId).value].cliente)
      && v.endereco == Some(ordens[FindOs(ordens, a.osId).value].endereco)
    ensures FindOs(ordens, a.osId).None? ==>
      v.cliente == Some("Cliente não encontrado") && v.endereco == Some("Endereço não encontrado")
    ensures v.status == Some("concluido") <==> !IsOpen(a)
    ensures v.status == Some("em_andamento") <==> IsOpen(a)
    ensures v.etapas == Some(TrailJson(EtapasOf(historico, a.id)))
  {
    var os := FindOs(ordens, a.osId);
    HistoricoView(
      a.id, a.osId,
      Some(if os.Some? then ordens[os.value].cliente else "Cliente não encontrado"),
      Some(if os.Some? then ordens[os.value].endereco else "Endereço não encontrado"),
      Some(EtapaValue(a.etapa)),
      a.horaInicio, a.horaFim,
      Some(StatusOf(a)),
      Some(TrailJson(EtapasOf(historico, a.id))))
  }

  /** The technician's engagements, newest first (the last row of `rows` comes first). */
  function HistoryDesc(ordens: seq<Os>, historico: seq<EtapaHistorico>, rows: seq<Atendimento>, userId: int)
    : seq<HistoricoView>
  {
    if rows == [] then []
    else
      HistoryDesc(ordens, historico, rows[1..], userId)
      + (if rows[0].tecnicoId == userId then [HistoryItem(ordens, historico, rows[0])] else [])
  }

  /**
   * Every history item comes from one of the technician's engagements, and
   * its status reads "concluido" exactly when that engagement is closed.
   */
  lemma {:induction false} HistoryDescItems(ordens: seq<Os>, historico: seq<EtapaHistorico>, rows: seq<Atendimento>, userId: int)
    ensures forall v :: v in HistoryDesc(ordens, historico, rows, userId) ==>
      exists a :: a in rows && a.tecnicoId == userId && v == HistoryItem(ordens, historico, a)
    ensures forall a :: a in rows && a.tecnicoId == userId ==> HistoryItem(ordens, historico, a) in HistoryDesc(ordens, historico, rows, userId)
    ensures forall v :: v in HistoryDesc(ordens, historico, rows, userId) ==>
      (v.status == Some("concluido") <==> v.horaFim.Some?)
  {
    if rows != [] {
      HistoryDescItems(ordens, historico, rows[1..], userId);
      forall v | v in HistoryDesc(ordens, historico, rows, userId)
        ensures exists a :: a in rows && a.tecnicoId == userId && v == HistoryItem(ordens, historico, a)
      {
        if v !in HistoryDesc(ordens, historico, rows[1..], userId) {
          assert v == HistoryItem(ordens, historico, rows[0]);
        } else {
          var a :| a in rows[1..] && a.tecnicoId == userId && v == HistoryItem(ordens, historico, a);
          assert a in rows;
        }
      }
    }
  }

  /** Row ids that grow along the table, as autoincrement keys do. */
  ghost predicate IdsIncreasing(rows: seq<Atendimento>) {
    forall i, j :: 0 <= i < j < |rows| ==> rows[i].id < rows[j].id
  }

  /** Items listed by strictly decreasing id. */
  ghost predicate NewestFirst(r: seq<HistoricoView>) {
    forall i, j :: 0 <= i < j < |r| ==> r[i].id > r[j].id
  }

  /** Every history item carries the id of one of the rows, so a bound on the rows' ids bounds the items'. */
  lemma {:induction false} HistoryDescIdsAbove(
    ordens: seq<Os>, historico: seq<EtapaHistorico>, rows: seq<Atendimento>, userId: int, b: int)
    requires forall k :: 0 <= k < |rows| ==> rows[k].id > b
    ensures forall v :: v in HistoryDesc(ordens, historico, rows, userId) ==> v.id > b
  {
    if rows != [] {
      HistoryDescIdsAbove(ordens, historico, rows[1..], userId, b);
      var rest := HistoryDesc(ordens, historico, rows[1..], userId);
      var tail := if rows[0].tecnicoId == userId then [HistoryItem(ordens, historico, rows[0])] else [];
      assert HistoryDesc(ordens, historico, rows, userId) == rest + tail;
      assert rows[0].id > b && HistoryItem(ordens, historico, rows[0]).id == rows[0].id;
    }
  }

  /** Over rows whose ids grow, the history lists ids strictly decreasing: newest first. */
  lemma {:induction false} HistoryDescNewestFirst(
    ordens: seq<Os>, historico: seq<EtapaHistorico>, rows: seq<Atendimento>, userId: int)
    requires IdsIncreasing(rows)
    ensures NewestFirst(HistoryDesc(ordens, historico, rows, userId))
  {
    if rows != [] {
      var rest := HistoryDesc(ordens, historico, rows[1..], userId);
      assert IdsIncreasing(rows[1..]);
      HistoryDescNewestFirst(ordens, historico, rows[1..], userId);
      HistoryDescIdsAbove(ordens, historico, rows[1..], userId, rows[0].id);
      var tail := if rows[0].tecnicoId == userId then [HistoryItem(ordens, historico, rows[0])] else [];
      var r := rest + tail;
      assert HistoryDesc(ordens, historico, rows, userId) == r;
      forall i, j | 0 <= i < j < |r| ensures r[i].id > r[j].id {
        if j >= |rest| {
          assert r[j] == tail[j - |rest|];
          assert HistoryItem(ordens, historico, rows[0]).id == rows[0].id;
          assert r[i] == rest[i] && rest[i] in rest;
        } else {
          assert r[i] == rest[i] && r[j] == rest[j];
        }
      }
    }
  }

  /** The engagement table's ids grow, so `listar_historico_completo` lists newest first. */
  lemma HistoryOfTableNewestFirst(
    ordens: seq<Os>, atendimentos: seq<Atendimento>, historico: seq<EtapaHistorico>, userId: int)
    requires AtendimentoRowsOk(ordens, atendimentos)
    ensures NewestFirst(HistoryDesc(ordens, historico, atendimentos, userId))
  {
    HistoryDescNewestFirst(ordens, historico, atendimentos, userId);
  }

  /**
   * Under the table invariant every engagement's order exists, so its history
   * item shows that order's client and address, never the placeholders'
   * source of "not found".
   */
  lemma HistoryItemNamesOrder(
    ordens: seq<Os>, atendimentos: seq<Atendimento>, historico: seq<EtapaHistorico>, i: nat)
    requires AtendimentoRowsOk(ordens, atendimentos) && i < |atendimentos|
    ensures var v := HistoryItem(ordens, historico, atendimentos[i]);
      exists k :: 0 <= k < |ordens| && ordens[k].id == atendimentos[i].osId
        && v.cliente == Some(ordens[k].cliente) && v.endereco == Some(ordens[k].endereco)
  {
    FindOsIffListed(ordens, atendimentos[i].osId);
    var k := FindOs(ordens, atendimentos[i].osId).value;
    assert ordens[k].id == atendimentos[i].osId;
  }

  /** Dropping the oldest record keeps the trails monotone. */
  lemma TrailsMonotoneTail(historico: seq<EtapaHistorico>)
    requires historico != [] && TrailsMonotone(historico)
    ensures TrailsMonotone(historico[1..])
  {
    var rest := historico[1..];
    forall i, j | 0 <= i < j < |rest| && rest[i].atendimentoId == rest[j].atendimentoId
      ensures Index(rest[i].etapa) <= Index(rest[j].etapa)
    {
      assert rest[i] == historico[i + 1] && rest[j] == historico[j + 1];
    }
  }

  /** The oldest record is at or below every later record of its engagement. */
  lemma OldestBelowLater(historico: seq<EtapaHistorico>)
    requires historico != [] && TrailsMonotone(historico)
    ensures forall x :: x in EtapasOf(historico[1..], historico[0].atendimentoId) ==>
      Index(historico[0].etapa) <= Index(x.etapa)
  {
    var rest := historico[1..];
    forall x | x in EtapasOf(rest, historico[0].atendimentoId)
      ensures Index(historico[0].etapa) <= Index(x.etapa)
    {
      var k :| 0 <= k < |rest| && rest[k] == x;
      assert historico[k + 1] == x;
    }
  }

  /** A record at or below a non-decreasing trail extends it at the front. */
  lemma ConsNonDecreasing(h: EtapaHistorico, tail: seq<EtapaHistorico>)
    requires NonDecreasing(tail)
    requires forall x :: x in tail ==> Index(h.etapa) <= Index(x.etapa)
    ensures NonDecreasing([h] + tail)
  {
    var trail := [h] + tail;
    forall i, j | 0 <= i < j < |trail| ensures Index(trail[i].etapa) <= Index(trail[j].etapa) {
      assert trail[j] == tail[j - 1];
      if i > 0 {
        assert trail[i] == tail[i - 1];
      }
    }
  }

  /** Each engagement's trail, as the history endpoints list it, never goes backwards. */
  lemma {:induction false} TrailOfEngagementMonotone(historico: seq<EtapaHistorico>, atendimentoId: int)
    requires TrailsMonotone(historico)
    ensures NonDecreasing(EtapasOf(historico, atendimentoId))
  {
    if historico != [] {
      var rest := historico[1..];
      TrailsMonotoneTail(historico);
      TrailOfEngagementMonotone(rest, atendimentoId);
      if historico[0].atendimentoId == atendimentoId {
        var tail := EtapasOf(rest, atendimentoId);
        OldestBelowLater(historico);
        assert EtapasOf(historico, atendimentoId) == [historico[0]] + tail;
        ConsNonDecreasing(historico[0], tail);
      } else {
        assert EtapasOf(historico, atendimentoId) == EtapasOf(rest, atendimentoId);
      }
    }
  }

  // ---------------------------------------------------------------------
  // The invariant is kept by both state changes
  // ---------------------------------------------------------------------

  /** Changing an order's fields other than its id moves no order: lookups find the same positions. */
  lemma {:induction false} FindOsKeepsPositions(ordens: seq<Os>, k: nat, o: Os, id: int)
    requires k < |ordens| && o.id == ordens[k].id
    ensures FindOs(ordens[k := o], id) == FindOs(ordens, id)
  {
    if ordens != [] && ordens[0].id != id && k > 0 {
      assert ordens[k := o][1..] == ordens[1..][k - 1 := o];
      FindOsKeepsPositions(ordens[1..], k - 1, o, id);
    }
  }

  /** Updating an order without changing its id keeps every engagement's order reference valid. */
  lemma AtendimentoRowsAfterOsUpdate(ordens: seq<Os>, atendimentos: seq<Atendimento>, k: nat, o: Os)
    requires AtendimentoRowsOk(ordens, atendimentos)
    requires k < |ordens| && o.id == ordens[k].id
    ensures AtendimentoRowsOk(ordens[k := o], atendimentos)
  {
    var after := ordens[k := o];
    forall id | id in OrderIds(ordens) ensures id in OrderIds(after) {
      var p :| p in ordens && p.id == id;
      var j :| 0 <= j < |ordens| && ordens[j] == p;
      assert after[j].id == id;
    }
  }

  /** Changing an order's fields other than its id keeps the keys distinct. */
  lemma OsKeysAfterUpdate(ordens: seq<Os>, k: nat, o: Os)
    requires OsKeysDistinct(ordens)
    requires k < |ordens| && o.id == ordens[k].id
    ensures OsKeysDistinct(ordens[k := o])
  {
  }

  /** Appending an open engagement on an order with no open engagement keeps one open per order. */
  lemma OneOpenAfterAppend(atendimentos: seq<Atendimento>, a: Atendimento)
    requires OneOpenPerOs(atendimentos)
    requires FirstOpenOn(atendimentos, a.osId).None?
    ensures OneOpenPerOs(atendimentos + [a])
  {
    var after := atendimentos + [a];
    forall i, j | 0 <= i < j < |after| && after[i].osId == after[j].osId
      ensures !IsOpen(after[i]) || !IsOpen(after[j])
    {
      assert after[i] == atendimentos[i];
      if j < |atendimentos| {
        assert after[j] == atendimentos[j];
      }
    }
  }

  /** A well-numbered engagement on an existing order may be appended. */
  lemma AtendimentoRowsAfterAppend(ordens: seq<Os>, atendimentos: seq<Atendimento>, a: Atendimento)
    requires AtendimentoRowsOk(ordens, atendimentos)
    requires a.id == |atendimentos| + 1 && a.osId in OrderIds(ordens)
    ensures AtendimentoRowsOk(ordens, atendimentos + [a])
  {
    var after := atendimentos + [a];
    forall i | 0 <= i < |after| ensures after[i].id == i + 1 && after[i].osId in OrderIds(ordens) {
      if i < |atendimentos| {
        assert after[i] == atendimentos[i];
      }
    }
  }

  /** Appending an open engagement keeps every closed one at FINALIZACAO. */
  lemma ClosedAfterAppend(atendimentos: seq<Atendimento>, a: Atendimento)
    requires ClosedAreFinal(atendimentos) && IsOpen(a)
    ensures ClosedAreFinal(atendimentos + [a])
  {
    var after := atendimentos + [a];
    forall i | 0 <= i < |after| && !IsOpen(after[i]) ensures after[i].etapa == FINALIZACAO {
      assert after[i] == atendimentos[i];
    }
  }

  /** Appending a row keeps every stage record's reference and stage bound. */
  lemma HistoricoRowsAfterAtendimentoAppend(atendimentos: seq<Atendimento>, historico: seq<EtapaHistorico>, a: Atendimento)
    requires HistoricoRowsOk(atendimentos, historico)
    ensures HistoricoRowsOk(atendimentos + [a], historico)
  {
    var after := atendimentos + [a];
    forall i | 0 <= i < |historico|
      ensures Index(historico[i].etapa) <= Index(after[historico[i].atendimentoId - 1].etapa)
    {
      assert after[historico[i].atendimentoId - 1] == atendimentos[historico[i].atendimentoId - 1];
    }
  }

  /** Moving an engagement forward keeps every stage record at or below its engagement's stage. */
  lemma HistoricoRowsAfterAdvance(atendimentos: seq<Atendimento>, historico: seq<EtapaHistorico>, i: nat, b: Atendimento)
    requires HistoricoRowsOk(atendimentos, historico)
    requires i < |atendimentos| && Index(atendimentos[i].etapa) <= Index(b.etapa)
    ensures HistoricoRowsOk(atendimentos[i := b], historico)
  {
  }

  /** A well-numbered record at or below its engagement's stage may be appended. */
  lemma HistoricoRowsAfterRecord(atendimentos: seq<Atendimento>, historico: seq<EtapaHistorico>, h: EtapaHistorico)
    requires HistoricoRowsOk(atendimentos, historico)
    requires h.id == |historico| + 1 && 1 <= h.atendimentoId <= |atendimentos|
    requires Index(h.etapa) <= Index(atendimentos[h.atendimentoId - 1].etapa)
    ensures HistoricoRowsOk(atendimentos, historico + [h])
  {
    var after := historico + [h];
    forall i | 0 <= i < |after|
      ensures after[i].id == i + 1 && 1 <= after[i].atendimentoId <= |atendimentos|
      ensures Index(after[i].etapa) <= Index(atendimentos[after[i].atendimentoId - 1].etapa)
    {
      if i < |historico| {
        assert after[i] == historico[i];
      }
    }
  }

  /** A record at or above every earlier record of its engagement keeps the trails monotone. */
  lemma TrailsAfterRecord(historico: seq<EtapaHistorico>, h: EtapaHistorico)
    requires TrailsMonotone(historico)
    requires forall i :: 0 <= i < |historico| && historico[i].atendimentoId == h.atendimentoId ==>
      Index(historico[i].etapa) <= Index(h.etapa)
    ensures TrailsMonotone(historico + [h])
  {
    var after := historico + [h];
    forall i, j | 0 <= i < j < |after| && after[i].atendimentoId == after[j].atendimentoId
      ensures Index(after[i].etapa) <= Index(after[j].etapa)
    {
      assert after[i] == historico[i];
      if j < |historico| {
        assert after[j] == historico[j];
      }
    }
  }

  /** When an order has no open engagement, an appended open one on it is the first found. */
  lemma {:induction false} FirstOpenOnAppend(atendimentos: seq<Atendimento>, a: Atendimento)
    requires FirstOpenOn(atendimentos, a.osId).None? && IsOpen(a)
    ensures FirstOpenOn(atendimentos + [a], a.osId) == Some(|atendimentos|)
  {
    if atendimentos != [] {
      assert (atendimentos + [a])[1..] == atendimentos[1..] + [a];
      FirstOpenOnAppend(atendimentos[1..], a);
    }
  }

  /** A fresh start keeps the tables consistent. */
  lemma StartKeepsTables(
    ordens: seq<Os>, atendimentos: seq<Atendimento>, historico: seq<EtapaHistorico>,
    osId: int, userId: int, now: int, k: nat)
    requires TablesOk(ordens, atendimentos, historico)
    requires FindOs(ordens, osId) == Some(k)
    requires FirstOpenOn(atendimentos, osId).None?
    ensures var n := |atendimentos|;
      TablesOk(
        StartedOrdens(ordens, k, userId),
        atendimentos + [NewAtendimento(n + 1, osId, userId, Some(now))],
        historico + [StartRecord(|historico| + 1, n + 1, now)])
  {
    var n := |atendimentos|;
    var o := ordens[k].(status := EM_ATENDIMENTO, tecnicoId := Some(userId));
    var a := NewAtendimento(n + 1, osId, userId, Some(now));
    var h := StartRecord(|historico| + 1, n + 1, now);
    OsKeysAfterUpdate(ordens, k, o);
    AtendimentoRowsAfterOsUpdate(ordens, atendimentos, k, o);
    FindOsKeepsPositions(ordens, k, o, osId);
    FindOsIffListed(ordens[k := o], osId);
    AtendimentoRowsAfterAppend(ordens[k := o], atendimentos, a);
    HistoricoRowsAfterAtendimentoAppend(atendimentos, historico, a);
    HistoricoRowsAfterRecord(atendimentos + [a], historico, h);
    OneOpenAfterAppend(atendimentos, a);
    ClosedAfterAppend(atendimentos, a);
    TrailsAfterRecord(historico, h);
  }

  /**
   * Starting is idempotent: right after a fresh start, the same call resumes
   * the engagement just created; and the order is now closed to every other
   * technician.
   */
  lemma StartThenResume(
    ordens: seq<Os>, atendimentos: seq<Atendimento>, osId: int, userId: int, other: int, now: int)
    requires OsKeysDistinct(ordens)
    requires PlanStart(ordens, atendimentos, osId, userId).Fresh?
    ensures var k := PlanStart(ordens, atendimentos, osId, userId).k;
      var n := |atendimentos|;
      var ordens' := StartedOrdens(ordens, k, userId);
      var atendimentos' := atendimentos + [NewAtendimento(n + 1, osId, userId, Some(now))];
      && PlanStart(ordens', atendimentos', osId, userId) == Resume(n + 1)
      && (other != userId ==> PlanStart(ordens', atendimentos', osId, other) == HeldByOther)
  {
    var k := PlanStart(ordens, atendimentos, osId, userId).k;
    var n := |atendimentos|;
    var a := NewAtendimento(n + 1, osId, userId, Some(now));
    FindOsKeepsPositions(ordens, k, StartedOrdens(ordens, k, userId)[k], osId);
    assert ordens[k := StartedOrdens(ordens, k, userId)[k]] == StartedOrdens(ordens, k, userId);
    FirstOpenOnAppend(atendimentos, a);
  }

  /** An accepted advance keeps the tables consistent. */
  lemma AdvanceKeepsTables(
    ordens: seq<Os>, atendimentos: seq<Atendimento>, historico: seq<EtapaHistorico>,
    id: int, nova: Etapa, descricao: string, foto: string, now: int, k: nat)
    requires TablesOk(ordens, atendimentos, historico)
    requires 1 <= id <= |atendimentos|
    requires Index(atendimentos[id - 1].etapa) <= Index(nova)
    requires FindOs(ordens, atendimentos[id - 1].osId) == Some(k)
    ensures TablesOk(
      ordens[k := ordens[k].(status := OsStatusFor(nova))],
      atendimentos[id - 1 := Advanced(atendimentos[id - 1], nova, now)],
      historico + [NewEtapaHistorico(|historico| + 1, id, nova, descricao, foto, now)])
  {
    var o := ordens[k].(status := OsStatusFor(nova));
    var b := Advanced(atendimentos[id - 1], nova, now);
    var after := atendimentos[id - 1 := b];
    var h := NewEtapaHistorico(|historico| + 1, id, nova, descricao, foto, now);
    OsKeysAfterUpdate(ordens, k, o);
    AtendimentoRowsAfterOsUpdate(ordens, atendimentos, k, o);
    assert AtendimentoRowsOk(ordens[k := o], after);
    HistoricoRowsAfterAdvance(atendimentos, historico, id - 1, b);
    HistoricoRowsAfterRecord(after, historico, h);
    assert OneOpenPerOs(after);
    assert ClosedAreFinal(after);
    TrailsAfterRecord(historico, h);
  }

  // ---------------------------------------------------------------------
  // The handlers
  // ---------------------------------------------------------------------

  class Backend {
    var tecnicos: map<int, Tecnico>
    var ordens: seq<Os>
    var atendimentos: seq<Atendimento>
    var historico: seq<EtapaHistorico>

    ghost predicate Valid()
      reads this
    {
      TablesOk(ordens, atendimentos, historico)
    }

    /** A database holding some technicians and service orders and no engagement yet. */
    constructor (tecnicos: map<int, Tecnico>, ordens: seq<Os>)
      requires OsKeysDistinct(ordens)
      ensures Valid()
      ensures this.tecnicos == tecnicos && this.ordens == ordens && atendimentos == [] && historico == []
    {
      this.tecnicos := tecnicos;
      this.ordens := ordens;
      atendimentos := [];
      historico := [];
    }

    /**
     * `get_current_user`: strip every "Bearer " from the header, decode the
     * token and load the technician; anything missing is a 401.
     */
    function CurrentUser(authorization: string, decodeToken: map<string, int>): (r: HttpResult<int>)
      reads this
      ensures r.Ok? <==>
        var token := Text.ReplaceAll(authorization, BearerPrefix, "");
        token in decodeToken && decodeToken[token] in tecnicos
      ensures r.Ok? ==> r.value in tecnicos
      ensures r.Ok? ==> r.value == decodeToken[Text.ReplaceAll(authorization, BearerPrefix, "")]
      ensures r.Fail? ==> r == Fail(401, "Usuário não autorizado")
    {
      var token := Text.ReplaceAll(authorization, BearerPrefix, "");
      if token in decodeToken && decodeToken[token] in tecnicos then Ok(decodeToken[token])
      else Fail(401, "Usuário não autorizado")
    }

    /** `listar_os`: the orders this technician may see, in table order. */
    method ListarOs(userId: int) returns (r: seq<Os>)
      ensures r == VisibleOrders(ordens, userId)
    {
      r := [];
      for i := 0 to |ordens|
        invariant r == VisibleOrders(ordens[..i], userId)
      {
        assert ordens[..i + 1][..i] == ordens[..i];
        var o := ordens[i];
        if o.status == CONCLUIDA {
          // excluded by the query itself
          continue;
        }
        if o.status == EM_ATENDIMENTO && o.tecnicoId != Some(userId) {
          continue;
        }
        if o.status == EM_CAMPO && o.tecnicoId != Some(userId) {
          continue;
        }
        r := r + [o];
      }
      assert ordens[..|ordens|] == ordens;
    }

    /** `iniciar_atendimento`: the reply and the new tables follow `PlanStart`. */
    method IniciarAtendimento(osId: int, userId: int, now: int) returns (r: HttpResult<StartReply>)
      requires Valid()
      modifies this
      ensures Valid() && tecnicos == old(tecnicos)
      ensures match PlanStart(old(ordens), old(atendimentos), osId, userId)
        case OsMissing => r == Fail(404, "OS não encontrada") && unchanged(this)
        case HeldByOther => r == Fail(400, "Esta OS já está sendo atendida por outro técnico") && unchanged(this)
        case OpenByOther => r == Fail(400, "Esta OS já possui um atendimento em andamento") && unchanged(this)
        case Resume(id) => r == Ok(StartReply(id, "Atendimento já existe")) && unchanged(this)
        case Fresh(k) =>
          var n := |old(atendimentos)|;
          && r == Ok(StartReply(n + 1, "Atendimento iniciado com sucesso"))
          && ordens == StartedOrdens(old(ordens), k, userId)
          && atendimentos == old(atendimentos) + [NewAtendimento(n + 1, osId, userId, Some(now))]
          && historico == old(historico) + [StartRecord(|old(historico)| + 1, n + 1, now)]
    {
      var k := FindOs(ordens, osId);
      ghost var plan := PlanStart(ordens, atendimentos, osId, userId);
      if k.None? {
        assert plan == OsMissing;
        return Fail(404, "OS não encontrada");
      }
      var os := ordens[k.value];
      if (os.status == EM_ATENDIMENTO || os.status == EM_CAMPO) && os.tecnicoId != Some(userId) {
        assert plan == HeldByOther;
        return Fail(400, "Esta OS já está sendo atendida por outro técnico");
      }
      var existente := FirstOpenOn(atendimentos, osId);
      if existente.Some? {
        if atendimentos[existente.value].tecnicoId != userId {
          assert plan == OpenByOther;
          return Fail(400, "Esta OS já possui um atendimento em andamento");
        }
        assert plan == Resume(atendimentos[existente.value].id);
        return Ok(StartReply(atendimentos[existente.value].id, "Atendimento já existe"));
      }
      assert plan == Fresh(k.value);
      r := StartNew(osId, userId, now, k.value);
    }

    /** The creating half of `iniciar_atendimento`: claim the order, open the engagement, record INSPECAO. */
    method StartNew(osId: int, userId: int, now: int, k: nat) returns (r: HttpResult<StartReply>)
      requires Valid()
      requires FindOs(ordens, osId) == Some(k) && FirstOpenOn(atendimentos, osId).None?
      modifies this
      ensures Valid() && tecnicos == old(tecnicos)
      ensures var n := |old(atendimentos)|;
        && r == Ok(StartReply(n + 1, "Atendimento iniciado com sucesso"))
        && ordens == StartedOrdens(old(ordens), k, userId)
        && atendimentos == old(atendimentos) + [NewAtendimento(n + 1, osId, userId, Some(now))]
        && historico == old(historico) + [StartRecord(|old(historico)| + 1, n + 1, now)]
    {
      var n := |atendimentos|;
      StartKeepsTables(ordens, atendimentos, historico, osId, userId, now, k);
      ordens, atendimentos, historico :=
        StartedOrdens(ordens, k, userId),
        atendimentos + [NewAtendimento(n + 1, osId, userId, Some(now))],
        historico + [StartRecord(|historico| + 1, n + 1, now)];
      r := Ok(StartReply(n + 1, "Atendimento iniciado com sucesso"));
    }

    /** `avancar_etapa`. */
    method AvancarEtapa(id: int, userId: int, etapa: string, descricao: string, foto: string, now: int)
      returns (r: HttpResult<AdvanceReply>)
      requires Valid()
      modifies this
      ensures Valid() && tecnicos == old(tecnicos)
      ensures
        if !(1 <= id <= |old(atendimentos)|) then
          r == Fail(404, "Atendimento não encontrado") && unchanged(this)
        else
          var a := old(atendimentos)[id - 1];
          if a.tecnicoId != userId then
            r == Fail(403, "Você não tem permissão para este atendimento") && unchanged(this)
          else match StageCheck(a.etapa, etapa)
            case UnknownStage =>
              r == Fail(400, "Etapa inválida: " + etapa) && unchanged(this)
            case Backwards(to) =>
              r == Fail(400, "Não é possível voltar para " + EtapaValue(to)) && unchanged(this)
            case Accepted(nova) =>
              var k := FindOs(old(ordens), a.osId).value;
              && r == Ok(AdvanceReply(EtapaValue(nova), "Etapa avançada para " + EtapaValue(nova)))
              && atendimentos == old(atendimentos)[id - 1 := Advanced(a, nova, now)]
              && historico == old(historico) + [NewEtapaHistorico(|old(historico)| + 1, id, nova, descricao, foto, now)]
              && ordens == old(ordens)[k := old(ordens)[k].(status := OsStatusFor(nova))]
    {
      if !(1 <= id <= |atendimentos|) {
        return Fail(404, "Atendimento não encontrado");
      }
      var atendimento := atendimentos[id - 1];
      if atendimento.tecnicoId != userId {
        return Fail(403, "Você não tem permissão para este atendimento");
      }
      var nova := EtapaNamed(etapa);
      if nova.None? {
        assert StageCheck(atendimento.etapa, etapa) == UnknownStage;
        return Fail(400, "Etapa inválida: " + etapa);
      }
      var novaIndex := Index(nova.value);
      var atualIndex := Index(atendimento.etapa);
      if novaIndex <= atualIndex && nova.value != atendimento.etapa {
        assert StageCheck(atendimento.etapa, etapa) == Backwards(nova.value);
        return Fail(400, "Não é possível voltar para " + EtapaValue(nova.value));
      }
      assert StageCheck(atendimento.etapa, etapa) == Accepted(nova.value);
      var k := FindOs(ordens, atendimento.osId).value;
      ApplyAdvance(id, nova.value, descricao, foto, now, k);
      r := Ok(AdvanceReply(EtapaValue(nova.value), "Etapa avançada para " + EtapaValue(nova.value)));
    }

    /** The writing half of `avancar_etapa`: the new stage, its record and the order's mapped status. */
    method ApplyAdvance(id: int, nova: Etapa, descricao: string, foto: string, now: int, k: nat)
      requires Valid()
      requires 1 <= id <= |atendimentos|
      requires Index(atendimentos[id - 1].etapa) <= Index(nova)
      requires FindOs(ordens, atendimentos[id - 1].osId) == Some(k)
      modifies this
      ensures Valid() && tecnicos == old(tecnicos)
      ensures atendimentos == old(atendimentos)[id - 1 := Advanced(old(atendimentos)[id - 1], nova, now)]
      ensures historico == old(historico) + [NewEtapaHistorico(|old(historico)| + 1, id, nova, descricao, foto, now)]
      ensures ordens == old(ordens)[k := old(ordens)[k].(status := OsStatusFor(nova))]
    {
      AdvanceKeepsTables(ordens, atendimentos, historico, id, nova, descricao, foto, now, k);
      ordens, atendimentos, historico :=
        ordens[k := ordens[k].(status := OsStatusFor(nova))],
        atendimentos[id - 1 := Advanced(atendimentos[id - 1], nova, now)],
        historico + [NewEtapaHistorico(|historico| + 1, id, nova, descricao, foto, now)];
    }

    /** `atendimento_ativo`: the technician's first open engagement, or null. */
    function AtendimentoAtivo(userId: int): (r: Option<AtivoView>)
      reads this
      requires Valid()
      ensures r.None? <==> forall i :: 0 <= i < |atendimentos| ==> !(atendimentos[i].tecnicoId == userId && IsOpen(atendimentos[i]))
      ensures r.Some? ==>
        && 1 <= r.value.id <= |atendimentos|
        && atendimentos[r.value.id - 1].tecnicoId == userId
        && IsOpen(atendimentos[r.value.id - 1])
        && FirstActiveOf(atendimentos, userId) == Some(r.value.id - 1)
        && r.value.etapa == EtapaValue(atendimentos[r.value.id - 1].etapa)
        && r.value.os.id == atendimentos[r.value.id - 1].osId
        && FindOs(ordens, r.value.os.id).Some?
        && var o := ordens[FindOs(ordens, r.value.os.id).value];
           r.value.os == AtivoOs(o.id, o.cliente, o.endereco, StatusValue(o.status))
    {
      match FirstActiveOf(atendimentos, userId)
      case None => None
      case Some(i) =>
        var a := atendimentos[i];
        FindOsIffListed(ordens, a.osId);
        var o := ordens[FindOs(ordens, a.osId).value];
        Some(AtivoView(a.id, EtapaValue(a.etapa), AtivoOs(o.id, o.cliente, o.endereco, StatusValue(o.status))))
    }

    /** `listar_historico_completo`: the technician's engagements newest first, each with its trail. */
    method ListarHistoricoCompleto(userId: int) returns (r: seq<HistoricoView>)
      ensures r == HistoryDesc(ordens, historico, atendimentos, userId)
      ensures Valid() ==> NewestFirst(r)
    {
      r := [];
      var i := |atendimentos|;
      while i > 0
        invariant 0 <= i <= |atendimentos|
        invariant r == HistoryDesc(ordens, historico, atendimentos[i..], userId)
      {
        i := i - 1;
        assert atendimentos[i..][1..] == atendimentos[i + 1..];
        var atendimento := atendimentos[i];
        if atendimento.tecnicoId == userId {
          r := r + [HistoryItem(ordens, historico, atendimento)];
        }
      }
      if Valid() {
        HistoryOfTableNewestFirst(ordens, atendimentos, historico, userId);
      }
    }

    /** `get_etapas_historico`: an engagement's trail in creation order, or 404. */
    function GetEtapasHistorico(id: int): (r: HttpResult<seq<EtapaView>>)
      reads this
      requires Valid()
      ensures r.Fail? <==> !(1 <= id <= |atendimentos|)
      ensures r.Fail? ==> r == Fail(404, "Atendimento não encontrado")
      ensures r.Ok? ==> r.value == TrailJson(EtapasOf(historico, id))
      ensures r.Ok? ==> NonDecreasing(EtapasOf(historico, id))
      ensures r.Ok? ==> IsSubsequence(EtapasOf(historico, id), historico)
    {
      if !(1 <= id <= |atendimentos|) then Fail(404, "Atendimento não encontrado")
      else
        TrailOfEngagementMonotone(historico, id);
        EtapasOfInOrder(historico, id);
        Ok(TrailJson(EtapasOf(historico, id)))
    }
  }
}
