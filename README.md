# Field-service engagement lifecycle, in Dafny

A model of how a technician's engagement ("atendimento") on a service order
("OS") moves through its life, in the two halves of the field-service MVP.

- **The server** (`backend/app/routes.py`, `backend/app/db/models.py`) is the
  authority. `Routes.Backend` is a class whose fields are the tables: the
  technicians, the service orders, the engagements and the stage-history
  rows. Its handler methods change those tables in place and answer with an
  `HttpResult` (`Ok` or `Fail(code, detail)`). The object invariant
  `Routes.TablesOk` says:
  - service-order ids are distinct;
  - engagement and history ids are dense autoincrement keys;
  - every engagement points at an existing order;
  - at most one engagement is open per order;
  - a closed engagement is at FINALIZACAO;
  - every history row is no later than its engagement's stage;
  - each engagement's trail never goes backwards.

  Every handler keeps that invariant.
- **The client** (`frontend/src/services/api.ts` and the three pages) is
  modelled as:
  - pure functions where the source computes a value (stage stepping, the
    timeline, the filters, the error-text choice, the payload defaults);
  - small classes where the source updates page state (`PageState` per page,
    `Api.Session` for the stored token).

  Every `fetch` reply is a parameter (`Wire.HttpReply`). A call that throws
  is an `Api.Outcome` (`Returned` or `Threw(message)`).
- **`Lifecycle`** ties the halves together:
  - the client's stage list is the server's enum;
  - the page's "Avançar" followed by "Salvar" always passes the server's
    never-backwards check when page and server agree (`Lifecycle.AdvanceThenSave`
    runs both halves against each other);
  - the `Authorization` header round-trips through the server's prefix stripping;
  - the history badge agrees with the server's derived status.

Files:
- `wrappers.dfy`: `Option`.
- `text.dfy`: Python's `str.replace` and JavaScript's `includes` on strings, plus subsequences.
- `models.dfy`: the enums, the rows and their defaults.
- `wire.dfy`: the JSON shapes exchanged.
- `routes.dfy`: the server.
- `api.dfy`: the service layer.
- `atendimento_page.dfy`, `tecnico_page.dfy`, `historico_page.dfy`: the pages.
- `lifecycle.dfy`: the cross-layer results.

Decisions that shape the model:
- A table is a `seq`. An engagement's or history row's id is its position + 1,
  because they are autoincrement keys and the code never deletes rows.
- `.first()` without an ordering picks the lowest id.
- Ordering by `hora_inicio` descending is reverse creation order.
- Ordering history by `criado_em` is insertion order.
- The clock is an `int` parameter `now`. JWT decoding is a `map` from token to
  technician id.

Where the code and the specification disagree, the model follows the code:
- The server does not enforce "one active engagement per technician".
  `iniciar_atendimento` checks only the order's owner and open engagements on
  that order, so a technician at EXECUCAO on one order can start another
  (`Lifecycle.ServerAllowsSecondActive`). The only such guard is the client's
  `podeIniciarAtendimento`.
- Advancing a closed engagement is not refused. Re-posting FINALIZACAO
  appends another record and moves `hora_fim` forward.
- A CONCLUIDA order that has no open engagement can be started again.
- The engagement page does not load the engagement in its route. `carregar` takes the stage from `GET /atendimento/ativo`, while "Salvar" posts to the route id. With two open engagements, "Continuar" on the second shows the first one's stage, and the server accepts the stage after it for the second (`Lifecycle.ContinueOnSecondSkipsStage`).
- `getOSFiltradas` compares an order's `tecnico_id` with `ativo.os.id`, which
  is an order id, and the model keeps that comparison.

## Model

| member | source | states |
|---|---|---|
| Models.Index | backend/app/db/models.py:33-39 | the position of a stage in declaration order, the order `list(Etapa)` gives |
| Models.EtapaNamed | backend/app/routes.py:190-193 | `Etapa[name]`: a stage comes back only for its own name; no stage has an unknown name |
| Models.EtapaNamedValue | backend/app/db/models.py:33-39 | looking a stage up by its value gives that stage back |
| Models.StagesTotallyOrdered | backend/app/db/models.py:33-39 | exactly six distinct stages, INSPECAO < DIAGNOSTICO < ORCAMENTO < APROVACAO < EXECUCAO < FINALIZACAO; equal index means equal stage |
| Models.StatusesEnumerated | backend/app/db/models.py:21-26 | exactly five distinct order statuses, all enumerated |
| Models.NewOs | backend/app/db/models.py:56-65 | a new order defaults to EM_ABERTO and keeps the given fields |
| Models.NewAtendimento | backend/app/db/models.py:71-82 | a new engagement defaults to INSPECAO with `hora_fim` unset |
| Models.NewEtapaHistorico | backend/app/db/models.py:88-99 | a new history row is stamped with the current time and keeps its fields |
| Models.WithEmail | backend/app/routes.py:65-67 | the technicians with a given email, no more and no fewer |
| Models.WithEmailNone | backend/app/routes.py:65-69 | no technician has the email, so the login lookup finds nobody |
| Models.LoginLookupAtMostOne | backend/app/db/models.py:51 | with unique emails the login lookup yields at most one technician |
| Text.ReplaceAllAbsent | backend/app/routes.py:48 | `replace` leaves a string without the pattern unchanged |
| Text.RemoveAllIdentity | backend/app/routes.py:48 | removing a pattern changes the string iff the pattern occurs in it |
| Routes.FindOs | backend/app/routes.py:123-125 | `db.get(OS, id)`: the first row with that id, or none when no row has it |
| Routes.FindOsIffListed | backend/app/routes.py:123-125 | the lookup succeeds iff the id is among the order ids |
| Routes.FirstOpenOn | backend/app/routes.py:130-133 | the first open engagement on an order, or none when there is none |
| Routes.FirstActiveOf | backend/app/routes.py:239-242 | the first open engagement of a technician, or none when there is none |
| Routes.EtapasOf | backend/app/routes.py:331-333 | exactly the history rows of one engagement |
| Routes.EtapasOfEmbedding | backend/app/routes.py:331-333 | the trail embeds into the history table in creation order, and a row is in it iff it belongs to the engagement |
| Routes.EtapasOfInOrder | backend/app/routes.py:331-333 | the trail is an order-preserving subsequence of the history table |
| Routes.PlanStart | backend/app/routes.py:123-163 | which branch a start takes: 404 iff the order is missing; 400 iff it is EM_ATENDIMENTO/EM_CAMPO held by another; 400 iff an open engagement on it is another's; resume iff it is the user's; fresh iff there is none |
| Routes.StartedOrdens | backend/app/routes.py:147-148 | a start sets the order to EM_ATENDIMENTO owned by the user and touches no other order |
| Routes.StartRecord | backend/app/routes.py:154-159 | the first history row is INSPECAO, "Início do atendimento", with an empty photo |
| Routes.StageCheck | backend/app/routes.py:190-200 | an unknown name is rejected; a lower stage is "backwards"; any stage at or after the current one is accepted |
| Routes.OsStatusForCases | backend/app/routes.py:212-220 | ORCAMENTO/APROVACAO give AGUARDANDO, EXECUCAO gives EM_CAMPO, FINALIZACAO gives CONCLUIDA, the rest EM_ATENDIMENTO; never EM_ABERTO |
| Routes.OsStatusMonotone | backend/app/routes.py:212-220 | a later stage never maps to an earlier order status |
| Routes.Advanced | backend/app/routes.py:202-218 | the engagement takes the new stage; `hora_fim` is set to now iff the stage is FINALIZACAO; nothing else changes |
| Routes.VisibleOrdersMembers | backend/app/routes.py:84-96 | an order is listed iff it is not CONCLUIDA and not EM_ATENDIMENTO/EM_CAMPO under another technician |
| Routes.VisibleOrdersEmbedding | backend/app/routes.py:90-103 | the listing embeds into the table in order |
| Routes.ListedOrders | backend/app/routes.py:84-105 | the listing is an order-preserving subsequence, never holds CONCLUIDA or another's EM_ATENDIMENTO/EM_CAMPO, and holds every other order |
| Routes.StatusOf | backend/app/routes.py:293 | "concluido" iff `hora_fim` is set, "em_andamento" iff it is not |
| Routes.TrailJson | backend/app/routes.py:294-303 | one view per history row, in order |
| Routes.HistoryItem | backend/app/routes.py:285-304 | the item carries the engagement's id, order, start, end and stage value, its derived status and its whole trail; the order's client and address, or "Cliente não encontrado" and "Endereço não encontrado" when the order is missing |
| Routes.HistoryDescItems | backend/app/routes.py:271-307 | the history holds exactly the items of the user's engagements |
| Routes.HistoryDescIdsAbove | backend/app/routes.py:271-279 | every item built from engagements with ids above a bound has an id above it |
| Routes.HistoryDescNewestFirst | backend/app/routes.py:271-279 | from engagements in increasing id order, the items come out in strictly decreasing id order |
| Routes.HistoryOfTableNewestFirst | backend/app/routes.py:271-279 | over a well-formed engagement table the history is newest first |
| Routes.HistoryItemNamesOrder | backend/app/routes.py:285-289 | over a well-formed table every item names its existing order's client and address, never the placeholders |
| Routes.TrailOfEngagementMonotone | backend/app/routes.py:195-202 | under the invariant each engagement's trail is non-decreasing in stage |
| Routes.FindOsKeepsPositions | backend/app/routes.py:212-220 | changing an order's fields but not its id leaves every lookup where it was |
| Routes.OneOpenAfterAppend | backend/app/routes.py:130-140 | creating an engagement only when none is open keeps at most one open per order |
| Routes.HistoricoRowsAfterRecord | backend/app/routes.py:204-210 | appending a row no later than its engagement's stage keeps the history rows well-formed |
| Routes.TrailsAfterRecord | backend/app/routes.py:195-210 | appending a stage no lower than the engagement's earlier rows keeps each trail monotone |
| Routes.FirstOpenOnAppend | backend/app/routes.py:130-150 | after a fresh start, the new engagement is the open one on its order |
| Routes.StartKeepsTables | backend/app/routes.py:140-161 | a fresh start keeps the table invariant |
| Routes.StartThenResume | backend/app/routes.py:130-138 | after a fresh start, starting again resumes the same engagement, and another technician is refused |
| Routes.AdvanceKeepsTables | backend/app/routes.py:202-222 | an accepted advance keeps the table invariant |
| Routes.Backend.constructor | backend/app/db/models.py:46-101 | the four tables, starting from given technicians and orders with no engagements and no history, satisfy the invariant |
| Routes.Backend.CurrentUser | backend/app/routes.py:44-56 | the user iff the stripped token decodes to a known technician, and then the id it decodes to; otherwise 401 "Usuário não autorizado" |
| Routes.Backend.ListarOs | backend/app/routes.py:79-105 | the loop's result is the listing `VisibleOrders` describes |
| Routes.Backend.IniciarAtendimento | backend/app/routes.py:116-163 | each failing case answers 404/400/400 and changes nothing; resume returns the open id and changes nothing; a fresh start appends the INSPECAO engagement and its first record and takes the order; the invariant is kept |
| Routes.Backend.StartNew | backend/app/routes.py:140-163 | the table update of a fresh start, stated in full |
| Routes.Backend.AvancarEtapa | backend/app/routes.py:176-227 | 404, 403, 400 "Etapa inválida", 400 "Não é possível voltar para" in that order, each changing nothing; otherwise the stage, `hora_fim`, one appended record and the order's status as mapped; the invariant is kept |
| Routes.Backend.ApplyAdvance | backend/app/routes.py:202-222 | the writing half of an accepted advance: the engagement's new stage, one appended record and the order's mapped status; the invariant is kept |
| Routes.Backend.AtendimentoAtivo | backend/app/routes.py:234-256 | none iff the user has no open engagement; otherwise the user's first open engagement in id order, its stage, and its order's id, client, address and status |
| Routes.Backend.ListarHistoricoCompleto | backend/app/routes.py:263-314 | the loop's result is the list of the user's history items, and under the invariant it is newest first |
| Routes.Backend.GetEtapasHistorico | backend/app/routes.py:321-344 | 404 iff the engagement is missing; otherwise its trail in creation order, which is non-decreasing |
| Api.AuthHeader | frontend/src/services/api.ts:57-64 | the header is "Bearer " followed by the stored token, and "Bearer null" when there is none |
| Api.JsonOf | frontend/src/services/api.ts:110 | a parsed body is returned; an unparsable one throws the parser's message |
| Api.Session.Logout | frontend/src/services/api.ts:88-91 | the token is removed and the location becomes /login |
| Api.OsResult | frontend/src/services/api.ts:97-111 | a 401 throws "Sessão expirada"; another failure throws "Erro ao buscar OS"; a network error throws its message; it returns iff the reply is 2xx with a parsed body, and then returns that body |
| Api.Session.GetOS | frontend/src/services/api.ts:97-111 | the outcome is `OsResult` of the reply; a 401 also removes the token and goes to /login; any other reply leaves the session as it was |
| Api.StartErrorText | frontend/src/services/api.ts:131-153 | 422 gives the fixed EXECUÇÃO text; otherwise `detail`, else `message`, else the default; never empty |
| Api.StartErrorMessage | frontend/src/services/api.ts:131-153 | the step-by-step reassignment of `errorMessage` computes `StartErrorText` |
| Api.BadRequestFallbackUnreachable | frontend/src/services/api.ts:147-151 | the 400 fallback text is only chosen when the server sent that very text |
| Api.IniciarAtendimento | frontend/src/services/api.ts:117-157 | a 2xx parsed reply is returned; any other status throws the chosen error text; a network error or an unparsable 2xx body throws its own message |
| Api.SalvarEtapaPayload | frontend/src/services/api.ts:447-455 | `etapa` is `dados.etapa` when truthy, else `novaEtapa`; description and photo fall back to "" |
| Api.AvancarEtapa | frontend/src/services/api.ts:178-203 | a 2xx parsed reply is returned; another status throws `detail` or "Erro ao avançar etapa"; a network error or an unparsable 2xx body throws its own message |
| Api.GetAtendimentoAtivo | frontend/src/services/api.ts:209-230 | the body for a 2xx reply; null for 404, any other status, any error; it never throws |
| Api.ListOrEmpty | frontend/src/services/api.ts:236-286 | `getHistorico` and `getEtapas`, which share one shape: the array body of a 2xx reply unchanged; [] for 404, a non-array body, or any error |
| Api.VerificarPodeIniciarAtendimento | frontend/src/services/api.ts:394-408 | true iff there is no active engagement or its stage is not EXECUCAO; true on any error |
| AtendimentoPage.IndexOf | frontend/src/pages/AtendimentoPage.tsx:119 | `indexOf`: the first position of the value, or -1 iff it is absent |
| AtendimentoPage.EtapasDistinct | frontend/src/pages/AtendimentoPage.tsx:10-17 | the six stage names are distinct and each is found at its own position |
| AtendimentoPage.Next | frontend/src/pages/AtendimentoPage.tsx:118-129 | no next stage iff at FINALIZACAO; INSPECAO for an unknown stage; otherwise the following element |
| AtendimentoPage.MarkOfCases | frontend/src/pages/AtendimentoPage.tsx:147-155 | each timeline stage is exactly one of current (equal), done (earlier than the current) or pending |
| AtendimentoPage.PageState.constructor | frontend/src/pages/AtendimentoPage.tsx:23-27 | the page's initial state |
| AtendimentoPage.PageState.Avancar | frontend/src/pages/AtendimentoPage.tsx:118-129 | sets the stage to the next one, or alerts "Atendimento concluído!" and goes to /tecnico; sends nothing |
| AtendimentoPage.PageState.CarregarHistorico | frontend/src/pages/AtendimentoPage.tsx:62-69 | the trail becomes `getEtapas`'s result and nothing else changes |
| AtendimentoPage.PageState.Salvar | frontend/src/pages/AtendimentoPage.tsx:92-112 | nothing when no stage is set; otherwise posts the current stage; success alerts "Etapa salva", clears the form and reloads; failure alerts "Erro ao salvar etapa" |
| AtendimentoPage.PageState.Carregar | frontend/src/pages/AtendimentoPage.tsx:37-56 | with no active engagement goes to /tecnico without setting a stage; otherwise takes its stage and loads the trail |
| TecnicoPage.KeepShown | frontend/src/pages/TecnicoPage.tsx:169-175 | keeps exactly the orders that are not EM_CAMPO under another `tecnico_id` |
| TecnicoPage.KeepShownEmbedding | frontend/src/pages/TecnicoPage.tsx:169-175 | the kept orders embed into the list in their original order, and a position is kept iff its order is shown |
| TecnicoPage.OsFiltradasCases | frontend/src/pages/TecnicoPage.tsx:160-180 | no active engagement: the whole list; one of the first four stages: the filtered list, an order-preserving subsequence of the input; any other stage, EXECUCAO and FINALIZACAO included: empty |
| TecnicoPage.StartDisabled | frontend/src/pages/TecnicoPage.tsx:689 | disabled while GPS is in flight; disabled while the active engagement is at EXECUCAO; enabled in every other case, including an active engagement at any other stage |
| TecnicoPage.Coordinates | frontend/src/pages/TecnicoPage.tsx:76-87 | the fix when GPS answers, (0, 0) when it fails |
| TecnicoPage.NavTarget | frontend/src/pages/TecnicoPage.tsx:100-110 | the refreshed active id first, then a non-zero `resultado.id`, otherwise no navigation (a reload) |
| TecnicoPage.ClienteOr | frontend/src/pages/TecnicoPage.tsx:126 | the client's name, or "Cliente" when it is empty |
| TecnicoPage.StartFailureText | frontend/src/pages/TecnicoPage.tsx:116-138 | the error text for a conflict (with or without the engagement found), a GPS message, or any other failure |
| TecnicoPage.PageState.constructor | frontend/src/pages/TecnicoPage.tsx:15-19 | the page's initial state |
| TecnicoPage.PageState.Carregar | frontend/src/pages/TecnicoPage.tsx:27-49 | the active engagement is always set and loading ends; on success the list and a cleared error; on failure the old list and "Erro ao carregar dados: " plus the thrown message; a 401 logs the session out, any other reply leaves it as it was |
| TecnicoPage.PageState.Iniciar | frontend/src/pages/TecnicoPage.tsx:61-143 | blocked: the error text, no request, nothing else changed; otherwise one request with the coordinates and GPS no longer in flight, then: navigation to the target with a cleared error; with no target, both reloads as `Carregar` states them; on a failure the `StartFailureText` text, with the re-read engagement and its route only on a conflict; the session changes only through a 401 on the reload |
| HistoricoPage.StatusBadge | frontend/src/pages/HistoricoPage.tsx:58-65 | Concluído iff "concluido", Cancelado iff "cancelado", Em Andamento for anything else, the default included |
| HistoricoPage.OrPlaceholder | frontend/src/pages/HistoricoPage.tsx:258-306 | the value when truthy, otherwise the placeholder |
| HistoricoPage.StepCount | frontend/src/pages/HistoricoPage.tsx:313 | the number of steps, 0 when absent |
| HistoricoPage.CardOf | frontend/src/pages/HistoricoPage.tsx:258-394 | a set client, address and stage are shown as given, a missing one as "Cliente não identificado", "Endereço não informado", "N/A"; the step count and the status badge; "Continuar" iff the status is "em_andamento" |
| HistoricoPage.StepTexts | frontend/src/pages/HistoricoPage.tsx:338-342 | a set stage and description are shown as given; "Etapa" and "Sem descrição" stand in for missing ones |
| HistoricoPage.Toggled | frontend/src/pages/HistoricoPage.tsx:82-84 | null iff the id was expanded, otherwise that id, so at most one item is open |
| HistoricoPage.ToggleTwice | frontend/src/pages/HistoricoPage.tsx:82-84 | toggling the same id twice restores the state iff nothing or that id was expanded |
| HistoricoPage.PageState.ToggleExpandir | frontend/src/pages/HistoricoPage.tsx:82-84 | `expandido` becomes `Toggled` of the old value and nothing else changes |
| HistoricoPage.PageState.CarregarHistorico | frontend/src/pages/HistoricoPage.tsx:18-37 | success shows the list; failure resets it to [] and sets the message or "Erro ao carregar histórico" |
| HistoricoPage.PageState.Carregar | frontend/src/pages/HistoricoPage.tsx:18-37 | with the real `getHistorico` the error is never set |
| Lifecycle.ClientStagesAreEnum | frontend/src/pages/AtendimentoPage.tsx:10-17 | the client's list holds the enum's six values in declaration order |
| Lifecycle.ClientIndexIsEnumIndex | backend/app/routes.py:195-197 | a stage's position in the client list is its server index |
| Lifecycle.NextIsSuccessor | frontend/src/pages/AtendimentoPage.tsx:118-129 | from a known stage the client steps to the server's next stage, and there is none from FINALIZACAO |
| Lifecycle.NextPassesServerCheck | backend/app/routes.py:195-200 | the posted next stage is accepted iff the server is not past it, and so always when page and server agree |
| Lifecycle.UnknownClientStage | frontend/src/pages/AtendimentoPage.tsx:119-128 | from an unknown stage the client posts INSPECAO, which the server accepts only at INSPECAO |
| Lifecycle.AdvanceWire | frontend/src/services/api.ts:178-203 | the server's answer as read by `avancarEtapa`: the body on success, `detail` or the default as the thrown message |
| Lifecycle.AdvanceThenSave | frontend/src/pages/AtendimentoPage.tsx:92-129 | page and server agree on a stage before FINALIZACAO: the post is accepted, the engagement moves one stage on, one record is appended and the page shows "Etapa salva" |
| Lifecycle.PodeIniciarAgrees | frontend/src/services/api.ts:394-408 | the service-layer check equals the page predicate on every reply |
| Lifecycle.BearerRoundTrip | backend/app/routes.py:48 | stripping "Bearer " from the client's header gives back a token that does not contain it |
| Lifecycle.CurrentUserFromHeader | backend/app/routes.py:44-56 | with such a token the server accepts the header iff the token decodes to a known technician |
| Lifecycle.BadgeMatchesServerStatus | frontend/src/pages/HistoricoPage.tsx:58-65 | the card is "Concluído" iff the engagement is closed and offers "Continuar" iff it is open |
| Lifecycle.OpenPage | frontend/src/pages/AtendimentoPage.tsx:37-56 | against the backend the page always shows the stage of the technician's first open engagement, so engagement `id`'s stage when `id` is that one |
| Lifecycle.ContinueOnSecondSkipsStage | frontend/src/pages/HistoricoPage.tsx:392-415 | on valid tables with two open engagements, the second opened from "Continuar" shows the first one's DIAGNOSTICO, and the ORCAMENTO posted for it is accepted over its INSPECAO: two stages on |
| Lifecycle.ServerAllowsSecondActive | backend/app/routes.py:127-138 | a technician with an open EXECUCAO engagement can still start a fresh one on another order |

## Left out

- Login and password checking, and JWT encoding. `bcrypt` and the token library are foreign calls; token decoding is a `map` parameter. `LoginPage.tsx` and `App.tsx` are UI and routing only.
- `backend/app/main.py` (startup DDL, enum migration, health endpoints) and the engine setup and one-off scripts (`database.py`, `db/database.py`, `cadastro.py`, `db/migrate.py`): SQL against a live database.
- `obterLocalizacao` and `formatarData`: platform geolocation, timeouts, floating point and locale formatting. GPS is `Fix(lat, lon) | GpsFailed`.
- Real `fetch`, `localStorage`, `alert`, `navigate` and timers. Replies are parameters, alerts are a sequence, navigation is a `location` field, the 500 ms wait is dropped, and the 2 s delayed redirect after a conflict is recorded as immediate.
- `iniciarAtendimentoComGPS`: no page calls it.
- `finalizarAtendimento`: it posts to `/finalizar`, and no route in `routes.py` answers it.
- `debugAtendimentoAtivo` (logging only), `getMeusAtendimentos` and its route `meus_atendimentos`, and the compatibility alias `historico_completo`: none is part of the lifecycle.
- The request a missing `Authorization` header gets (rejected by the framework before `get_current_user` runs), and request-body validation in general.
- Atomicity: a fresh start commits twice, and the model treats the two commits as one step.
- ISO timestamp formatting: timestamps are integers.
- The exception handlers in `listar_historico_completo` (database failures): the model has none.
- A non-string `detail` in a JSON error body: `detail` and `message` are optional strings.
- Routes.Backend.AtendimentoAtivo: requires the table invariant, which stands in for the database guaranteeing that an engagement's order exists.
- TecnicoPage.StartFailureText: the model keeps the conflict branch as written and does not state when it is reached. The service layer's 422 text contains none of the strings the page tests for, and neither do the start refusals of `routes.py`. A reply from elsewhere whose `detail` or `message` contains "já está em atendimento", "atendimento ativo" or "422" does reach the branch.
- Models.WithEmail, Models.WithEmailNone and Models.LoginLookupAtMostOne: they model the login query over a sequence of technicians alone. Login is not a `Routes.Backend` method, so they do not read `Routes.Backend.tecnicos`, and email uniqueness is the database's unique column, not part of `Routes.TablesOk`.
- Lifecycle.AdvanceThenSave: requires the page to show the engagement's own stage. `carregar` takes the stage from the first open engagement, not from the route id, so this holds only when the route's engagement is that one (`Lifecycle.OpenPage`); otherwise a stage can be skipped (`Lifecycle.ContinueOnSecondSkipsStage`).
- HistoricoPage.StatusBadge: does not model the lookup of JavaScript's inherited object properties. A status such as "constructor" would find a prototype member, not the fallback.
- AtendimentoPage.PageState.Carregar and HistoricoPage.PageState.Carregar: the `catch` branches cannot run, because `getAtendimentoAtivo`, `getEtapas` and `getHistorico` never throw, so they are not modelled beyond `HistoricoPage.PageState.CarregarHistorico` taking any outcome.
