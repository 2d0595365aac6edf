/**
 * The technician's landing page: which orders it offers, whether it lets a
 * start begin, and the start sequence itself (GPS, request, navigation,
 * error text). Geolocation is given as its outcome; service replies are
 * parameters; the page's own state is a class.
 */
module TecnicoPage {
  import opened Wrappers
  import opened Wire
  import Text
  import Seqs
  import Api

  /** `podeIniciarAtendimento`: no active engagement, or one not at EXECUCAO. */
  predicate PodeIniciar(ativo: Option<AtivoView>) {
    ativo.None? || ativo.value.etapa != "EXECUCAO"
  }

  /** The four stages during which other orders stay on offer. */
  const MultiStages: seq<string> := ["INSPECAO", "DIAGNOSTICO", "ORCAMENTO", "APROVACAO"]

  /** The filter of `getOSFiltradas` (which compares the order's technician with the active order's id). */
  predicate ShownBeside(o: OsView, ativo: AtivoView) {
    !(o.status == "EM_CAMPO" && o.tecnicoId != Some(ativo.os.id))
  }

  /** `osList.filter(...)`: the orders `ShownBeside` keeps, in list order. */
  function KeepShown(list: seq<OsView>, ativo: AtivoView): (r: seq<OsView>)
    ensures forall o :: o in r <==> o in list && ShownBeside(o, ativo)
    ensures |r| <= |list|
  {
    if list == [] then []
    else
      var n := |list| - 1;
      assert list == list[..n] + [list[n]];
      KeepShown(list[..n], ativo) + (if ShownBeside(list[n], ativo) then [list[n]] else [])
  }

  /**
   * The filter keeps order and multiplicity: the result embeds into the list
   * at exactly the positions whose order is shown.
   */
  lemma {:induction false} KeepShownEmbedding(list: seq<OsView>, ativo: AtivoView) returns (f: seq<nat>)
    ensures Seqs.Embeds(KeepShown(list, ativo), list, f)
    ensures forall j :: 0 <= j < |list| ==> (j in f <==> ShownBeside(list[j], ativo))
  {
    if list == [] {
      f := [];
    } else {
      var n := |list| - 1;
      var g := KeepShownEmbedding(list[..n], ativo);
      var keep := ShownBeside(list[n], ativo);
      Seqs.EmbedsSnoc(KeepShown(list[..n], ativo), list, g, keep);
      f := g + (if keep then [n] else []);
      assert KeepShown(list, ativo) == KeepShown(list[..n], ativo) + (if keep then [list[n]] else []);
      forall j | 0 <= j < |list|
        ensures j in f <==> ShownBeside(list[j], ativo)
      {
        if j < n {
          assert list[..n][j] == list[j];
        }
      }
    }
  }

  /** `getOSFiltradas`. */
  function OsFiltradas(list: seq<OsView>, ativo: Option<AtivoView>): seq<OsView> {
    if ativo.None? then list
    else if ativo.value.etapa in MultiStages then KeepShown(list, ativo.value)
    else []
  }

  /**
   * The three regimes of the order list: everything without an active
   * engagement; during the first four stages everything except EM_CAMPO
   * orders of a technician other than the active order's id; nothing at
   * EXECUCAO, FINALIZACAO or any other stage text.
   */
  lemma {:induction false} OsFiltradasCases(list: seq<OsView>, ativo: Option<AtivoView>)
    ensures ativo.None? ==> OsFiltradas(list, ativo) == list
    ensures ativo.Some? && ativo.value.etapa in MultiStages ==>
      forall o :: o in OsFiltradas(list, ativo) <==>
        o in list && !(o.status == "EM_CAMPO" && o.tecnicoId != Some(ativo.value.os.id))
    ensures ativo.Some? && ativo.value.etapa in MultiStages ==> Seqs.IsSubsequence(OsFiltradas(list, ativo), list)
    ensures ativo.Some? && ativo.value.etapa !in MultiStages ==> OsFiltradas(list, ativo) == []
    ensures ativo.Some? && ativo.value.etapa == "EXECUCAO" ==> OsFiltradas(list, ativo) == []
    ensures ativo.Some? && ativo.value.etapa == "FINALIZACAO" ==> OsFiltradas(list, ativo) == []
  {
    if ativo.Some? && ativo.value.etapa in MultiStages {
      var f := KeepShownEmbedding(list, ativo.value);
    }
  }

  /** The Start button: disabled while GPS is being read or while the active engagement is at EXECUCAO. */
  function StartDisabled(ativo: Option<AtivoView>, obtendoGPS: bool): (d: bool)
    ensures obtendoGPS ==> d
    ensures ativo.Some? && ativo.value.etapa == "EXECUCAO" ==> d
    ensures !obtendoGPS && (ativo.None? || ativo.value.etapa != "EXECUCAO") ==> !d
  {
    !PodeIniciar(ativo) || obtendoGPS
  }

  /** What `obterLocalizacao` settles to. */
  datatype Gps = Fix(lat: real, lon: real) | GpsFailed(reason: string)

  /** The coordinates sent: the fix, or (0, 0) when the position could not be read. */
  function Coordinates(gps: Gps): (c: (real, real))
    ensures gps.Fix? ==> c == (gps.lat, gps.lon)
    ensures gps.GpsFailed? ==> c == (0.0, 0.0)
  {
    match gps
    case Fix(lat, lon) => (lat, lon)
    case GpsFailed(_) => (0.0, 0.0)
  }

  /** A start request as posted: the order and the coordinates. */
  datatype StartRequest = StartRequest(osId: int, latitude: real, longitude: real)

  /** Where a successful start goes: the refreshed active engagement, else the returned id, else a reload. */
  function NavTarget(novoAtivo: Option<AtivoView>, resultado: StartJson): (r: Option<Route>)
    ensures novoAtivo.Some? ==> r == Some(AtendimentoRoute(novoAtivo.value.id))
    ensures novoAtivo.None? && resultado.id.Some? && resultado.id.value != 0 ==>
      r == Some(AtendimentoRoute(resultado.id.value))
    ensures r.None? <==> novoAtivo.None? && (resultado.id.None? || resultado.id.value == 0)
  {
    if novoAtivo.Some? then Some(AtendimentoRoute(novoAtivo.value.id))
    else if resultado.id.Some? && resultado.id.value != 0 then Some(AtendimentoRoute(resultado.id.value))
    else None
  }

  /** The messages the page takes for a conflict with an engagement already running. */
  predicate IsConflictMessage(m: string) {
    Text.Contains(m, "já está em atendimento") || Text.Contains(m, "atendimento ativo") || Text.Contains(m, "422")
  }

  /** The messages the page takes for a geolocation problem. */
  predicate IsGpsMessage(m: string) {
    Text.Contains(m, "GPS") || Text.Contains(m, "localização")
  }

  const BlockedText: string := "⚠ Você já tem um atendimento em EXECUÇÃO. Finalize-o antes de iniciar outro."

  /** `ativo.os?.cliente || "Cliente"`. */
  function ClienteOr(a: AtivoView): (c: string)
    ensures c != ""
    ensures a.os.cliente != "" ==> c == a.os.cliente
  {
    if a.os.cliente != "" then a.os.cliente else "Cliente"
  }

  /** The error text `iniciar` shows for a failed start with message `m`; `extra` is the re-read active engagement. */
  function StartFailureText(m: string, extra: Option<AtivoView>): (t: string)
    ensures IsConflictMessage(m) && extra.Some? ==> t == "⚠ Você já está atendendo: " + ClienteOr(extra.value)
    ensures IsConflictMessage(m) && extra.None? ==> t == "⚠ " + m + " (mas não conseguimos encontrar o atendimento)"
    ensures !IsConflictMessage(m) && IsGpsMessage(m) ==> t == "⚠ " + m + " Tente novamente permitindo a localização."
    ensures !IsConflictMessage(m) && !IsGpsMessage(m) ==> t == "Erro: " + m
  {
    if IsConflictMessage(m) then
      if extra.Some? then "⚠ Você já está atendendo: " + ClienteOr(extra.value)
      else "⚠ " + m + " (mas não conseguimos encontrar o atendimento)"
    else if IsGpsMessage(m) then "⚠ " + m + " Tente novamente permitindo a localização."
    else "Erro: " + m
  }

  class PageState {
    var osList: seq<OsView>
    var ativo: Option<AtivoView>
    var erro: string
    var carregando: bool
    var obtendoGPS: bool
    /** Where the page navigated, if it did. */
    var location: Option<Route>
    /** The start requests posted, in order. */
    var requests: seq<StartRequest>

    constructor ()
      ensures osList == [] && ativo.None? && erro == "" && carregando && !obtendoGPS
      ensures location.None? && requests == []
    {
      osList := [];
      ativo := None;
      erro := "";
      carregando := true;
      obtendoGPS := false;
      location := None;
      requests := [];
    }

    /**
     * `carregar`: take the active engagement, then the orders; a failure of
     * `getOS` keeps the old list and sets the error text.
     */
    method Carregar(session: Api.Session, ativoReply: HttpReply<Option<AtivoView>>, osReply: HttpReply<seq<OsView>>)
      modifies this, session
      ensures !carregando && ativo == Api.GetAtendimentoAtivo(ativoReply)
      ensures obtendoGPS == old(obtendoGPS) && location == old(location) && requests == old(requests)
      ensures match Api.OsResult(osReply)
        case Returned(list) => osList == list && erro == ""
        case Threw(m) => osList == old(osList) && erro == "Erro ao carregar dados: " + m
      ensures Api.Expired(osReply) ==> session.token.None? && session.location == "/login"
      ensures !Api.Expired(osReply) ==> unchanged(session)
    {
      carregando := true;
      ativo := Api.GetAtendimentoAtivo(ativoReply);
      var data := session.GetOS(osReply);
      match data {
        case Returned(list) =>
          osList := list;
          erro := "";
        case Threw(message) =>
          erro := "Erro ao carregar dados: " + message;
      }
      carregando := false;
    }

    /**
     * `iniciar`: refuses without any request while an engagement is at
     * EXECUCAO; otherwise posts the start with the GPS fix or (0, 0), then
     * navigates or classifies the error. `ativoAfter` is the reply to the
     * second `getAtendimentoAtivo` call (after success, or on a conflict).
     */
    method Iniciar(
      session: Api.Session, id: int, gps: Gps, startReply: HttpReply<StartJson>,
      ativoAfter: HttpReply<Option<AtivoView>>, reloadAtivo: HttpReply<Option<AtivoView>>,
      reloadOs: HttpReply<seq<OsView>>)
      modifies this, session
      ensures !PodeIniciar(old(ativo)) ==> erro == BlockedText && requests == old(requests) && unchanged(session)
      ensures !PodeIniciar(old(ativo)) ==>
        && osList == old(osList) && ativo == old(ativo) && location == old(location)
        && obtendoGPS == old(obtendoGPS) && carregando == old(carregando)
      ensures PodeIniciar(old(ativo)) ==>
        var c := Coordinates(gps);
        requests == old(requests) + [StartRequest(id, c.0, c.1)] && !obtendoGPS
      ensures PodeIniciar(old(ativo)) ==> match Api.IniciarAtendimento(startReply)
        case Returned(res) =>
          var novo := Api.GetAtendimentoAtivo(ativoAfter);
          var target := NavTarget(novo, res);
          if target.Some? then
            && location == target && erro == "" && osList == old(osList)
            && carregando == old(carregando) && unchanged(session)
            && ativo == (if novo.Some? then novo else old(ativo))
          else
            && ativo == Api.GetAtendimentoAtivo(reloadAtivo) && !carregando && location == old(location)
            && (match Api.OsResult(reloadOs)
                case Returned(list) => osList == list && erro == ""
                case Threw(m) => osList == old(osList) && erro == "Erro ao carregar dados: " + m)
            && (Api.Expired(reloadOs) ==> session.token.None? && session.location == "/login")
            && (!Api.Expired(reloadOs) ==> unchanged(session))
        case Threw(m) =>
          var extra := if IsConflictMessage(m) then Api.GetAtendimentoAtivo(ativoAfter) else None;
          && erro == StartFailureText(m, extra)
          && osList == old(osList) && carregando == old(carregando) && unchanged(session)
          && (extra.Some? ==> ativo == extra && location == Some(AtendimentoRoute(extra.value.id)))
          && (extra.None? ==> ativo == old(ativo) && location == old(location))
    {
      if !PodeIniciar(ativo) {
        erro := BlockedText;
        return;
      }
      obtendoGPS := true;
      erro := "";
      var latitude := 0.0;
      var longitude := 0.0;
      match gps {
        case Fix(lat, lon) =>
          latitude := lat;
          longitude := lon;
        case GpsFailed(_) =>
      }
      requests := requests + [StartRequest(id, latitude, longitude)];
      var resultado := Api.IniciarAtendimento(startReply);
      match resultado {
        case Returned(res) =>
          var novoAtivo := Api.GetAtendimentoAtivo(ativoAfter);
          if novoAtivo.Some? {
            ativo := novoAtivo;
            location := Some(AtendimentoRoute(novoAtivo.value.id));
          } else if res.id.Some? && res.id.value != 0 {
            location := Some(AtendimentoRoute(res.id.value));
          } else {
            Carregar(session, reloadAtivo, reloadOs);
          }
        case Threw(message) =>
          if IsConflictMessage(message) {
            var extra := Api.GetAtendimentoAtivo(ativoAfter);
            if extra.Some? {
              ativo := extra;
              erro := "⚠ Você já está atendendo: " + ClienteOr(extra.value);
              location := Some(AtendimentoRoute(extra.value.id));
            } else {
              erro := "⚠ " + message + " (mas não conseguimos encontrar o atendimento)";
            }
          } else if IsGpsMessage(message) {
            erro := "⚠ " + message + " Tente novamente permitindo a localização.";
          } else {
            erro := "Erro: " + message;
          }
      }
      obtendoGPS := false;
    }
  }
}
