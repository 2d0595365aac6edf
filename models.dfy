/**
 * The database model of the field-service backend: the two enumerations, the
 * rows of the four tables, and the defaults the columns declare. Timestamps are
 * abstract instants (`int`); the clock itself is a parameter of the handlers.
 */
module Models {
  import opened Wrappers

  /** The six stages of an engagement ("atendimento"), in declaration order. */
  datatype Etapa = INSPECAO | DIAGNOSTICO | ORCAMENTO | APROVACAO | EXECUCAO | FINALIZACAO

  /** The five statuses of a service order ("OS"), in declaration order. */
  datatype StatusOS = EM_ABERTO | EM_ATENDIMENTO | AGUARDANDO | EM_CAMPO | CONCLUIDA

  /** `list(Etapa)`: the members in declaration order. */
  const EtapasOrdem: seq<Etapa> := [INSPECAO, DIAGNOSTICO, ORCAMENTO, APROVACAO, EXECUCAO, FINALIZACAO]

  /** `list(StatusOS)`: the members in declaration order. */
  const StatusOrdem: seq<StatusOS> := [EM_ABERTO, EM_ATENDIMENTO, AGUARDANDO, EM_CAMPO, CONCLUIDA]

  /** `list(Etapa).index(e)`: the position of a stage in declaration order. */
  function Index(e: Etapa): (i: nat)
    ensures i < |EtapasOrdem| && EtapasOrdem[i] == e
  {
    match e
    case INSPECAO => 0
    case DIAGNOSTICO => 1
    case ORCAMENTO => 2
    case APROVACAO => 3
    case EXECUCAO => 4
    case FINALIZACAO => 5
  }

  /** The position of a status in declaration order. */
  function StatusIndex(s: StatusOS): (i: nat)
    ensures i < |StatusOrdem| && StatusOrdem[i] == s
  {
    match s
    case EM_ABERTO => 0
    case EM_ATENDIMENTO => 1
    case AGUARDANDO => 2
    case EM_CAMPO => 3
    case CONCLUIDA => 4
  }

  /** `Etapa.value`: each member's value is its own name. */
  function EtapaValue(e: Etapa): string {
    match e
    case INSPECAO => "INSPECAO"
    case DIAGNOSTICO => "DIAGNOSTICO"
    case ORCAMENTO => "ORCAMENTO"
    case APROVACAO => "APROVACAO"
    case EXECUCAO => "EXECUCAO"
    case FINALIZACAO => "FINALIZACAO"
  }

  /** `StatusOS.value`. */
  function StatusValue(s: StatusOS): string {
    match s
    case EM_ABERTO => "EM_ABERTO"
    case EM_ATENDIMENTO => "EM_ATENDIMENTO"
    case AGUARDANDO => "AGUARDANDO"
    case EM_CAMPO => "EM_CAMPO"
    case CONCLUIDA => "CONCLUIDA"
  }

  /** `Etapa[name]`: lookup by member name; `None` where Python raises KeyError. */
  function EtapaNamed(name: string): (r: Option<Etapa>)
    ensures r.Some? ==> EtapaValue(r.value) == name
    ensures r.None? ==> forall e: Etapa :: EtapaValue(e) != name
  {
    if name == "INSPECAO" then Some(INSPECAO)
    else if name == "DIAGNOSTICO" then Some(DIAGNOSTICO)
    else if name == "ORCAMENTO" then Some(ORCAMENTO)
    else if name == "APROVACAO" then Some(APROVACAO)
    else if name == "EXECUCAO" then Some(EXECUCAO)
    else if name == "FINALIZACAO" then Some(FINALIZACAO)
    else None
  }

  /** Looking a stage up by its own value finds that stage. */
  lemma EtapaNamedValue(e: Etapa)
    ensures EtapaNamed(EtapaValue(e)) == Some(e)
  {
  }

  /**
   * There are exactly six stages, declaration order lists each once, and the
   * position in it is a strict total order: equal positions mean equal stages.
   */
  lemma StagesTotallyOrdered()
    ensures |EtapasOrdem| == 6
    ensures forall e: Etapa :: e in EtapasOrdem
    ensures forall i, j :: 0 <= i < j < |EtapasOrdem| ==> EtapasOrdem[i] != EtapasOrdem[j]
    ensures forall a: Etapa, b: Etapa :: Index(a) == Index(b) ==> a == b
    ensures EtapasOrdem == [INSPECAO, DIAGNOSTICO, ORCAMENTO, APROVACAO, EXECUCAO, FINALIZACAO]
  {
    forall e: Etapa ensures e in EtapasOrdem {
      assert EtapasOrdem[Index(e)] == e;
    }
  }

  /** There are exactly five statuses, each listed once. */
  lemma StatusesEnumerated()
    ensures |StatusOrdem| == 5
    ensures forall s: StatusOS :: s in StatusOrdem
    ensures forall i, j :: 0 <= i < j < |StatusOrdem| ==> StatusOrdem[i] != StatusOrdem[j]
  {
    forall s: StatusOS ensures s in StatusOrdem {
      assert StatusOrdem[StatusIndex(s)] == s;
    }
  }

  /** Table `tecnico`. */
  datatype Tecnico = Tecnico(id: int, nome: string, email: string, senha: string, ativo: bool)

  /** Table `os`: a service order. `tecnicoId` is a nullable foreign key. */
  datatype Os = Os(id: int, cliente: string, endereco: string, status: StatusOS, tecnicoId: Option<int>)

  /** Table `atendimento`: one technician's engagement with one service order. */
  datatype Atendimento = Atendimento(
    id: int, osId: int, tecnicoId: int,
    horaInicio: Option<int>, horaFim: Option<int>, etapa: Etapa)

  /** Table `etapa_historico`: one recorded stage of an engagement. */
  datatype EtapaHistorico = EtapaHistorico(
    id: int, atendimentoId: int, etapa: Etapa, descricao: string, foto: string, criadoEm: int)

  /** A new service order: status defaults to EM_ABERTO. */
  function NewOs(id: int, cliente: string, endereco: string, tecnicoId: Option<int>): (o: Os)
    ensures o.status == EM_ABERTO
    ensures o.id == id && o.cliente == cliente && o.endereco == endereco && o.tecnicoId == tecnicoId
  {
    Os(id, cliente, endereco, EM_ABERTO, tecnicoId)
  }

  /** A new engagement: stage defaults to INSPECAO and `hora_fim` is unset. */
  function NewAtendimento(id: int, osId: int, tecnicoId: int, horaInicio: Option<int>): (a: Atendimento)
    ensures a.etapa == INSPECAO && a.horaFim.None?
    ensures a.id == id && a.osId == osId && a.tecnicoId == tecnicoId && a.horaInicio == horaInicio
  {
    Atendimento(id, osId, tecnicoId, horaInicio, None, INSPECAO)
  }

  /** A new stage record: `criado_em` defaults to the current instant. */
  function NewEtapaHistorico(id: int, atendimentoId: int, etapa: Etapa, descricao: string, foto: string, now: int)
    : (h: EtapaHistorico)
    ensures h.criadoEm == now
    ensures h.id == id && h.atendimentoId == atendimentoId && h.etapa == etapa
    ensures h.descricao == descricao && h.foto == foto
  {
    EtapaHistorico(id, atendimentoId, etapa, descricao, foto, now)
  }

  /** The `unique=True` constraint on `tecnico.email`. */
  ghost predicate EmailsUnique(ts: seq<Tecnico>) {
    forall i, j :: 0 <= i < j < |ts| ==> ts[i].email != ts[j].email
  }

  /** The technicians a lookup `filter(Tecnico.email == email)` yields, in table order. */
  function WithEmail(ts: seq<Tecnico>, email: string): (r: seq<Tecnico>)
    ensures forall t :: t in r ==> t in ts && t.email == email
    ensures forall t :: t in ts && t.email == email ==> t in r
  {
    if ts == [] then []
    else (if ts[0].email == email then [ts[0]] else []) + WithEmail(ts[1..], email)
  }

  /** No technician has the email: the lookup is empty. */
  lemma {:induction false} WithEmailNone(ts: seq<Tecnico>, email: string)
    requires forall t :: t in ts ==> t.email != email
    ensures WithEmail(ts, email) == []
  {
    if ts != [] {
      WithEmailNone(ts[1..], email);
    }
  }

  /** Because emails are unique, the login lookup by email yields at most one technician. */
  lemma {:induction false} LoginLookupAtMostOne(ts: seq<Tecnico>, email: string)
    requires EmailsUnique(ts)
    ensures |WithEmail(ts, email)| <= 1
  {
    if ts != [] {
      assert EmailsUnique(ts[1..]) by {
        forall i, j | 0 <= i < j < |ts[1..]| ensures ts[1..][i].email != ts[1..][j].email {
          assert ts[1..][i] == ts[i + 1] && ts[1..][j] == ts[j + 1];
        }
      }
      LoginLookupAtMostOne(ts[1..], email);
      if ts[0].email == email {
        forall t | t in ts[1..] ensures t.email != email {
          var k :| 0 <= k < |ts[1..]| && ts[1..][k] == t;
          assert ts[k + 1] == t;
        }
        WithEmailNone(ts[1..], email);
      }
    }
  }
}
