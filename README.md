# sisBolt queue core in Dafny

sisBolt is a customer-queue system: a kiosk issues numbered tickets per queue
(`fila`), agents at service counters (`guichês`) call and finish them, a
public board (`painel`) shows the latest calls between advertisements, and a
report endpoint summarises a period. This project models the queue core of
that system and proves what its code promises.

| file | models |
|---|---|
| `tipos.dfy` | the records and enums of `src/types/index.ts` (`StatusTicket`, `ResetTicket`, `Fila`, `ControleTicket`, `Ticket`, `LogAtendimento`); `Array.filter` as `Colecoes.Filtrar` with its laws; one division lemma |
| `formatadores.dfy` | `formatarNumeroTicket`, `formatarTempo`, `formatarTempoEmMinutos`, `capitalizarPalavras` and `formatarEnum`, with the `split`/`join`/`padStart`/`toString` they are built from |
| `servico_tickets.dfy` | the `tickets` edge function: `emitir` (per-day numbering counter, ticket creation), `chamar`, `finalizar`, route/method/body errors, over in-memory tables. It has a pure specification (`Tratar`, `Emissao`, `Chamada`, `Finalizacao`) and a class `ServidorTickets` whose methods update the tables in place and are proved equal to it |
| `atendimento.dfy` | the agent screen: a class `TelaAtendimento` holding the waiting list, current ticket, history, pause flag and day counters, whose six handlers are proved equal to pure transition functions; the selection rule, the list filter and the MM:SS timer text |
| `relatorios.dfy` | the `relatorios` edge function: period validation, counts by status, average wait and service time rounded half up to whole minutes |
| `painel.dfy` | the public board: a class `PainelChamada` with the advertisement rotation, the bounded list of recent calls, the last ticket and the twelve rendered rows |

Conventions of the model:
- Instants are integer milliseconds. "Now" is a parameter of every operation.
- An absent JSON field or a null column is `None`.
- JavaScript truthiness is written out: an id is missing when it is absent or
  0, and a date string when it is absent or empty.
- The database tables are maps keyed by row id, and the log table is a
  sequence. The next row ids are part of the state.
- The day key `new Date().toISOString().split('T')[0]` is the UTC day number
  `agora / 86400000`, which is distinct for distinct ISO dates.
- `Math.round(T / n / 60000)` is computed exactly on integers as
  `(2T + n·60000) div (2n·60000)`.
- Case mapping is ASCII.
- Which database calls fail is the parameter `Falhas`. The `tickets`
  function checks the queue read of `emitir` (404), the ticket insert (500)
  and the ticket updates of `chamar` and `finalizar` (500, nothing written).
  It ignores errors of the counter read, the counter write and the log
  inserts, and the answer is still 200. A failed counter write means the next
  ticket of that queue and day repeats the number, which
  `ServicoTickets.ContadorFalhoRepeteNumero` proves. A failed counter read is
  not modelled (see "Left out"). Uniqueness of numbers is therefore proved
  for runs in which every counter read and write succeeds.

## Model

| member | source | states |
|---|---|---|
| `ServicoTickets.ServidorTickets.Atender` | supabase/functions/tickets/index.ts:9-221 | the handler's response and new tables are those of `Tratar`: OPTIONS → 200 "ok"; last path segment not a route → 404; non-POST → 405; unparsable body → 500; otherwise the route's operation |
| `ServicoTickets.ServidorTickets.Emitir` | supabase/functions/tickets/index.ts:32-103 | `emitir` step by step: check the queue (404 when missing or its read fails), read the day's counter, bump it or insert it with 1 (a failed write leaves it unchanged, unnoticed), insert the ticket; result and tables equal `Emissao` |
| `ServicoTickets.ServidorTickets.Chamar` | supabase/functions/tickets/index.ts:113-156 | `chamar` step by step: 500 with nothing written when the ticket is unknown or the update fails, the log insert skipped when it fails; result and tables equal `Chamada` |
| `ServicoTickets.ServidorTickets.Finalizar` | supabase/functions/tickets/index.ts:166-207 | `finalizar` step by step: 500 with nothing written when the ticket is unknown or the update fails, the log insert skipped when it fails; result and tables equal `Finalizacao` |
| `ServicoTickets.ServidorTickets.constructor` | supabase/functions/tickets/index.ts:14-18 | the tables behind the database client start empty over the given queues (in-memory maps), satisfying the table invariant |
| `ServicoTickets.Referencia` | supabase/functions/tickets/index.ts:57 | the day key of `toISOString().split('T')[0]`: the UTC day whose 24 hours contain the instant; used by `CenarioNumeracao` to restart numbering on the next day |
| `ServicoTickets.Informado` | supabase/functions/tickets/index.ts:35 | JavaScript truthiness of an id (absent or 0 is falsy); no contract of its own, stated by `EmitirSemFila`, `ChamarDadosIncompletos` and `FinalizarDadosIncompletos` (the same test at lines 116 and 169) |
| `ServicoTickets.Rota` | supabase/functions/tickets/index.ts:21 | `pathname.split('/').pop()`; no contract of its own, stated by `RotaUltimoSegmento` |
| `ServicoTickets.NovoTicket` | supabase/functions/tickets/index.ts:83-91 | the row the insert creates; no contract of its own, its fields are stated by `EmitirNumera` |
| `ServicoTickets.Tratar` | supabase/functions/tickets/index.ts:9-221 | the handler as a function of the tables, the request, the clock and the failing writes; no contract of its own, its behaviour is stated by `PreflightOk`, `RotaDesconhecida`, `MetodoNaoPermitido` and `TratarPreservaValido` |
| `ServicoTickets.Emissao` | supabase/functions/tickets/index.ts:32-103 | `emitir` as a function; no contract of its own, stated by `EmitirSemFila`, `EmitirFilaInexistente`, `EmitirNumera`, `EmitirPreservaValido` and `ContadorFalhoRepeteNumero` |
| `ServicoTickets.AvancarContador` | supabase/functions/tickets/index.ts:56-79 | the counter step of `emitir`; no contract of its own, stated by `UltimoAposAvanco` and `AvancarContadorValido` |
| `ServicoTickets.Chamada` | supabase/functions/tickets/index.ts:113-156 | `chamar` as a function; no contract of its own, stated by `ChamarDadosIncompletos`, `ChamarTicketInexistente`, `ChamarAtualiza` and `ChamarPreservaValido` |
| `ServicoTickets.Finalizacao` | supabase/functions/tickets/index.ts:166-207 | `finalizar` as a function; no contract of its own, stated by `FinalizarDadosIncompletos`, `FinalizarTicketInexistente`, `FinalizarAtualiza` and `FinalizarPreservaValido` |
| `ServicoTickets.BancoVazioValido` | supabase/functions/tickets/index.ts:14-18 | the empty tables satisfy the invariant `Valido` |
| `ServicoTickets.PreflightOk` | supabase/functions/tickets/index.ts:10-12 | an OPTIONS request on any path gets 200 "ok" and writes nothing |
| `ServicoTickets.RotaDesconhecida` | supabase/functions/tickets/index.ts:209-213 | a path whose last segment is not emitir/chamar/finalizar gets 404 'Rota não encontrada' and writes nothing, whatever the method |
| `ServicoTickets.MetodoNaoPermitido` | supabase/functions/tickets/index.ts:25-30 | a method other than POST (and OPTIONS) on any route gets 405 'Método não permitido' and writes nothing |
| `ServicoTickets.RotaUltimoSegmento` | supabase/functions/tickets/index.ts:21 | the route is the last '/'-segment of the path, whatever precedes it |
| `ServicoTickets.EmitirSemFila` | supabase/functions/tickets/index.ts:35-40 | without a truthy `fila_id`: 400 'Fila não informada', no counter and no ticket written |
| `ServicoTickets.EmitirFilaInexistente` | supabase/functions/tickets/index.ts:43-54 | a `fila_id` with no queue row, or a failed queue read: 404 'Fila não encontrada', nothing written |
| `ServicoTickets.EmitirNumera` | supabase/functions/tickets/index.ts:57-99 | for an existing queue read successfully, the issued number is the day counter plus one (1 for a new key); when the counter write succeeds the counter becomes that number (a new key gets a counter row for that queue and day) and no other counter changes, when it fails no counter changes and the ticket is issued anyway; no queue or log changes; a failed insert answers 500 and keeps the counter as written; otherwise the new ticket is `aguardando` with that number, the queue id, the embedded queue and the note |
| `ServicoTickets.EmitirPreservaValido` | supabase/functions/tickets/index.ts:57-99 | issuing with a working queue read and counter write keeps the invariant: every ticket's number lies between 1 and the counter of its queue and day, and no two tickets of one queue and day share a number |
| `ServicoTickets.AvancarContadorValido` | supabase/functions/tickets/index.ts:56-79 | bumping or creating the day's counter keeps the invariant, raises that counter by one and leaves it above every number already issued under its key |
| `ServicoTickets.UltimoAposAvanco` | supabase/functions/tickets/index.ts:64-79 | the counter step changes the counter of its own (queue, day) key only, by one (from none, read as 0, to 1) |
| `ServicoTickets.InserirTicketValido` | supabase/functions/tickets/index.ts:81-91 | inserting the ticket under the next id with its key's counter as number keeps the invariant |
| `ServicoTickets.ContadorFalhoRepeteNumero` | supabase/functions/tickets/index.ts:64-80 | the counter update and insert are not checked: when the counter write fails, the ticket is still issued (200), the next issuance for that queue and day gets the same number, and the tables are no longer valid |
| `ServicoTickets.EmissoesSequenciais` | supabase/functions/tickets/index.ts:57-80 | n sequential issuances on one day, with every write succeeding, answer 200 with numbers last+1, …, last+n; the counter ends at last+n; every other (queue, day) counter is untouched |
| `ServicoTickets.EmissoesDistintas` | supabase/functions/tickets/index.ts:57-80 | two different sequential issuances on one day never get the same number |
| `ServicoTickets.CenarioNumeracao` | supabase/functions/tickets/index.ts:57-80 | two tickets on one day get 1 and 2, and the next day starts again at 1 |
| `ServicoTickets.ChamarDadosIncompletos` | supabase/functions/tickets/index.ts:116-121 | `chamar` missing any of ticket, counter or user id: 400 'Dados incompletos', nothing written |
| `ServicoTickets.ChamarTicketInexistente` | supabase/functions/tickets/index.ts:124-141 | `chamar` on an unknown ticket, or any failed ticket update: 500 'Erro ao chamar ticket', nothing written (no ticket change, no log row) |
| `ServicoTickets.ChamarAtualiza` | supabase/functions/tickets/index.ts:124-156 | when the update succeeds, whatever the prior status: the ticket becomes `em_atendimento` with `chamado_por`, `chamado_em` and `guiche_id` set, `atendimento_iniciado_em` and every other field unchanged; other tickets, counters and queues unchanged; exactly one log row appended with action 'chamada' unless the log insert fails, which leaves the log as it was; the response is the updated ticket either way |
| `ServicoTickets.ChamarPreservaValido` | supabase/functions/tickets/index.ts:124-152 | calling keeps the table invariant |
| `ServicoTickets.FinalizarDadosIncompletos` | supabase/functions/tickets/index.ts:169-174 | `finalizar` missing ticket or user id: 400 'Dados incompletos', nothing written |
| `ServicoTickets.FinalizarTicketInexistente` | supabase/functions/tickets/index.ts:177-192 | `finalizar` on an unknown ticket, or any failed ticket update: 500 'Erro ao finalizar ticket', nothing written (no ticket change, no log row) |
| `ServicoTickets.FinalizarAtualiza` | supabase/functions/tickets/index.ts:177-207 | when the update succeeds, the ticket becomes `atendido` with the finish time and nothing else changes in it, whatever its prior status; with a counter recorded, the ticket is returned (200) and one log row 'finalização' carrying the ticket's counter is appended unless the log insert fails; a ticket never called (no counter) makes the log text throw, giving 500 'Erro interno do servidor' after the update and with no log row |
| `ServicoTickets.FinalizarPreservaValido` | supabase/functions/tickets/index.ts:177-203 | finishing keeps the table invariant |
| `ServicoTickets.TratarPreservaValido` | supabase/functions/tickets/index.ts:9-221 | every request keeps the table invariant, whatever the queue read, ticket insert, ticket updates and log inserts do, as long as the counter write succeeds (the counter read is always successful in the model) |
| `Atendimento.TelaAtendimento.constructor` | src/pages/atendimento/Atendimento.tsx:52-199 | the screen as loaded: the loaded waiting list, history and day counters (`atendidos`, `cancelados`), nothing in service, not paused, the timer at 0 (the `useState` defaults of lines 15-30); valid whenever the loaded history holds only finished tickets, as the loaded one does |
| `Atendimento.ProximaChamada` | src/pages/atendimento/Atendimento.tsx:211-247 | `chamarProximo` as a transition; no contract of its own, stated by `PausadoRecusaChamadas`, `EmServicoRecusaChamadas`, `FilaVaziaRecusa`, `ProximoSelecao` and `ProximaChamadaEfeito` |
| `Atendimento.Proximo` | src/pages/atendimento/Atendimento.tsx:224-225 | the selection rule of `chamarProximo`; no contract of its own, stated by `ProximoSelecao` |
| `Atendimento.Chamado` | src/pages/atendimento/Atendimento.tsx:227-234 | the called copy of a ticket; no contract of its own, stated by `ChamadoCopia` |
| `Atendimento.Remover` | src/pages/atendimento/Atendimento.tsx:237 | `filter(t => t.id !== id)` (also line 271); no contract of its own, stated by `RemoverExato`, `RemoverEncurta`, `ProximaChamadaEfeito` and `ChamadaEspecificaEfeito` |
| `Atendimento.TextoId` | src/pages/atendimento/Atendimento.tsx:208 | `id.toString()` of an integer id; no contract of its own, stated by `TextoIdInjetivo` and `TicketsDaFila` |
| `Atendimento.ChamadaEspecifica` | src/pages/atendimento/Atendimento.tsx:250-272 | `chamarTicketEspecifico` as a transition; no contract of its own, stated by `PausadoRecusaChamadas`, `EmServicoRecusaChamadas`, `ChamadaEspecificaEfeito` and `HandlersPreservamValida` |
| `Atendimento.Encerramento` | src/pages/atendimento/Atendimento.tsx:275-320 | `finalizarAtendimento` and `cancelarAtendimento` as one transition; no contract of its own, stated by `EncerramentoEfeito` and `EncerrarLiberaChamada` |
| `Atendimento.Rechamada` | src/pages/atendimento/Atendimento.tsx:323-334 | `rechamarTicket`'s outcome; no contract of its own, stated by the method `TelaAtendimento.RechamarTicket` |
| `Atendimento.Pausa` | src/pages/atendimento/Atendimento.tsx:337-339 | `alternarPausa` as a transition; no contract of its own, stated by `PausaSoAlternaFlag` |
| `Atendimento.TicketsParaExibir` | src/pages/atendimento/Atendimento.tsx:206-208 | the list filter by queue; no contract of its own, stated by `TicketsDaFila` |
| `Atendimento.FormatarMinSeg` | src/pages/atendimento/Atendimento.tsx:347-351 | the MM:SS timer text; no contract of its own, stated by `FormatarMinSegDecompoe` |
| `Atendimento.TelaAtendimento.ChamarProximo` | src/pages/atendimento/Atendimento.tsx:211-247 | `chamarProximo` on the screen's fields; result and new state equal `ProximaChamada` |
| `Atendimento.ChamadaEspecificaEfeito` | src/pages/atendimento/Atendimento.tsx:250-272 | when not paused and no ticket is in service: accepted; the given ticket, called by this user at this counter now, becomes the current one; exactly the listed tickets with a different id remain (fewer when it was listed); history, pause, counters and service clock unchanged |
| `Atendimento.TelaAtendimento.ChamarTicketEspecifico` | src/pages/atendimento/Atendimento.tsx:250-272 | `chamarTicketEspecifico`; result and new state equal `ChamadaEspecifica` |
| `Atendimento.TelaAtendimento.FinalizarAtendimento` | src/pages/atendimento/Atendimento.tsx:275-296 | `finalizarAtendimento`; result and new state equal `Encerramento(…, atendido, …)` |
| `Atendimento.TelaAtendimento.CancelarAtendimento` | src/pages/atendimento/Atendimento.tsx:299-320 | `cancelarAtendimento`; result and new state equal `Encerramento(…, cancelado, …)` |
| `Atendimento.TelaAtendimento.RechamarTicket` | src/pages/atendimento/Atendimento.tsx:323-334 | `rechamarTicket` changes no field; it succeeds exactly when there is a current ticket |
| `Atendimento.TelaAtendimento.AlternarPausa` | src/pages/atendimento/Atendimento.tsx:337-339 | `alternarPausa`: the new state is `Pausa` of the old |
| `Atendimento.PausadoRecusaChamadas` | src/pages/atendimento/Atendimento.tsx:212-215 | while paused both call handlers refuse and change nothing |
| `Atendimento.EmServicoRecusaChamadas` | src/pages/atendimento/Atendimento.tsx:217-220 | while the current ticket is `EM_ATENDIMENTO` both call handlers refuse and change nothing |
| `Atendimento.FilaVaziaRecusa` | src/pages/atendimento/Atendimento.tsx:222 | `chamarProximo` on an empty list refuses and changes nothing |
| `Atendimento.ProximoSelecao` | src/pages/atendimento/Atendimento.tsx:224-225 | the pick is in the list; it is the first ticket of the 'Prioritário' queue when there is one, otherwise the head |
| `Atendimento.PrimeiroPrioritario` | src/pages/atendimento/Atendimento.tsx:224 | when some ticket is of the 'Prioritário' queue, there is a first such index with none before it |
| `Atendimento.ChamadoCopia` | src/pages/atendimento/Atendimento.tsx:227-234 | the called ticket is `EM_ATENDIMENTO` with `chamado_por`, `guiche_id`, `chamado_em` and `atendimento_iniciado_em` set, and equals the original in every other field |
| `Atendimento.RemoverExato` | src/pages/atendimento/Atendimento.tsx:237 | removal drops every ticket with the chosen id, keeps every other ticket as many times as before, and keeps the order (removal distributes over concatenation) |
| `Atendimento.ProximaChamadaEfeito` | src/pages/atendimento/Atendimento.tsx:222-237 | a successful `chamarProximo` makes the selected ticket, as called, current; the list loses exactly the tickets with its id and gets shorter; history, counters and pause flag unchanged |
| `Atendimento.RemoverEncurta` | src/pages/atendimento/Atendimento.tsx:237 | removing the id of a listed ticket shortens the list |
| `Atendimento.EncerramentoEfeito` | src/pages/atendimento/Atendimento.tsx:275-320 | finishing/cancelling without a current ticket refuses and changes nothing; otherwise the ticket with the final status and finish time heads the history, the current ticket is cleared, the timer reset, exactly one of `atendidos`/`cancelados` goes up by one, list and pause unchanged |
| `Atendimento.PausaSoAlternaFlag` | src/pages/atendimento/Atendimento.tsx:337-339 | the pause toggle flips only the flag, and twice is the identity |
| `Atendimento.HandlersPreservamValida` | src/pages/atendimento/Atendimento.tsx:211-339 | every handler keeps the screen invariant: a current ticket is in service and its id is no longer waiting; the history holds only served or cancelled tickets |
| `Atendimento.EncerrarLiberaChamada` | src/pages/atendimento/Atendimento.tsx:217-222 | under the invariant a current ticket blocks calls, and after finishing or cancelling it the next call succeeds (not paused, list not empty) |
| `Atendimento.CenarioAtendimento` | src/pages/atendimento/Atendimento.tsx:211-296 | with a common and a priority ticket waiting: the priority one is called first, a second call is refused, and after finishing the common one is called |
| `Atendimento.TextoIdInjetivo` | src/pages/atendimento/Atendimento.tsx:208 | `id.toString()` is injective on integer ids |
| `Atendimento.TicketsDaFila` | src/pages/atendimento/Atendimento.tsx:206-208 | filtering by a queue id's text keeps exactly the tickets whose embedded queue has that id |
| `Atendimento.FormatarMinSegDecompoe` | src/pages/atendimento/Atendimento.tsx:347-351 | the MM:SS text is two ':'-separated fields of at least two digits, seconds below 60, worth m·60 + s = the input |
| `Formatadores.Decimal` | src/utils/formatadores.ts:33 | `toString` of a natural: non-empty digits that read back as the number, no leading zero |
| `Formatadores.Zeros` | src/utils/formatadores.ts:33 | the fill of `padStart(w, '0')`: exactly k characters, all digits |
| `Formatadores.Preencher` | src/utils/formatadores.ts:33 | `padStart(largura, '0')`, left-filling and never cutting; no contract of its own, stated by `PreencherDecimal` and `NumeroTicketEstrutura` |
| `Formatadores.DoisDigitos` | src/utils/formatadores.ts:43-45 | `toString().padStart(2, '0')`; no contract of its own, stated by `FormatarTempoDecompoe` and `Atendimento.FormatarMinSegDecompoe` |
| `Formatadores.Juntar` | src/utils/formatadores.ts:46 | `join(sep)`; no contract of its own, stated by `JuntarDividir` and `DividirJuntar` |
| `Formatadores.Minuscula` | src/utils/formatadores.ts:71 | `toLowerCase` on one ASCII character; no contract of its own, stated by `CaixaEstavel`, `CapitalizarEm` and `FormatarEnumEm` |
| `Formatadores.Maiuscula` | src/utils/formatadores.ts:73 | `toUpperCase` on one ASCII character; no contract of its own, stated by `CaixaEstavel`, `CapitalizarEm` and `FormatarEnumEm` |
| `Formatadores.CaixaEstavel` | src/utils/formatadores.ts:71-81 | lower-casing is idempotent, upper-casing a lower-cased character is stable, and neither makes or removes a space |
| `Formatadores.FormatarNumeroTicket` | src/utils/formatadores.ts:32-34 | `formatarNumeroTicket`; no contract of its own, stated by `NumeroTicketEstrutura`, `NumeroTicketValor`, `NumeroTicketInjetivo` and `CodigoDeFilaValida` |
| `Formatadores.FormatarTempo` | src/utils/formatadores.ts:37-47 | `formatarTempo`; no contract of its own, stated by `FormatarTempoDecompoe` |
| `Formatadores.FormatarTempoEmMinutos` | src/utils/formatadores.ts:50-58 | `formatarTempoEmMinutos`; no contract of its own, stated by `TempoEmMinutosIdaEVolta`, `TempoEmMinutosNormalizado` and `TempoEmMinutosCampos` |
| `Formatadores.CapitalizarPalavras` | src/utils/formatadores.ts:69-75 | `capitalizarPalavras`; no contract of its own, stated by `CapitalizarPorCaractere`, `CapitalizarEm`, `CapitalizarPreservaPalavras` and `CapitalizarIdempotente` |
| `Formatadores.FormatarEnum` | src/utils/formatadores.ts:78-83 | `formatarEnum`; no contract of its own, stated by `FormatarEnumEm` and `FormatarEnumPalavras` |
| `Formatadores.TamanhoDecimal` | src/utils/formatadores.ts:33 | a number has at most k digits exactly when it is below 10^k |
| `Formatadores.PreencherDecimal` | src/utils/formatadores.ts:33 | `padStart(w, '0')` of a number: length max(w, digits), zeros then the digits, reads back as the number |
| `Formatadores.NumeroTicketEstrutura` | src/utils/formatadores.ts:32-34 | the code is the prefix, then max(width, digits) − digits zeros, then the number's digits; its length is |prefix| + max(width, digits) |
| `Formatadores.NumeroTicketValor` | src/utils/formatadores.ts:32-34 | the part of the code after the prefix is all digits and reads back as the number |
| `Formatadores.NumeroTicketInjetivo` | src/utils/formatadores.ts:32-34 | with one prefix and width, equal codes mean equal numbers |
| `Formatadores.CodigoDeFilaValida` | src/pages/dashboard/Filas.tsx:442-452 | for a queue the form accepts (prefix ≤ 3 as checked at line 125, width 1..6), numbers below 10^width give codes of exactly prefix+width ≤ 9 characters, larger numbers widen the code instead of being cut |
| `Formatadores.CodigosP001P002` | src/utils/formatadores.ts:32-34 | prefix "P", width 3: numbers 1 and 2 give "P001" and "P002" |
| `Formatadores.Dividir` | src/utils/formatadores.ts:72 | `split(sep)`: at least one part, none containing the separator |
| `Formatadores.JuntarDividir` | src/utils/formatadores.ts:72-74 | joining the parts of a split gives the text back |
| `Formatadores.DividirJuntar` | src/utils/formatadores.ts:42-46 | splitting a join of separator-free parts gives the parts back |
| `Formatadores.FormatarTempoDecompoe` | src/utils/formatadores.ts:37-47 | HH:MM:SS is three ':'-separated fields of at least two digits h, m, s with m < 60, s < 60 and h·3600 + m·60 + s = the input |
| `Formatadores.HorasMinutosSegundos` | src/utils/formatadores.ts:38-40 | the hours/minutes/seconds split is in range and recombines to the input |
| `Formatadores.TempoEmMinutosIdaEVolta` | src/utils/formatadores.ts:50-58 | reading "Xh Ymin" / "Y min" back gives the input, and the hour form appears exactly when the input is ≥ 60 |
| `Formatadores.TempoEmMinutosNormalizado` | src/utils/formatadores.ts:50-58 | for any hours X and minutes Y with Y < 60 and X·60 + Y = the input, the text is "Xh Ymin" when X > 0 and "Y min" otherwise |
| `Formatadores.TempoEmMinutosCampos` | src/utils/formatadores.ts:50-58 | whatever X and Y a text "Xh Ymin" shows, X ≥ 1, Y < 60 and X·60 + Y = the input (never "1h 90min") |
| `Formatadores.LerHorasEMinutos` | src/utils/formatadores.ts:54-55 | two words "Xh" and "Ymin" (the second not just "min") read as X·60 + Y |
| `Formatadores.LerComHoras` | src/utils/formatadores.ts:54-55 | the text "Xh Ymin" built from two numbers reads back as X·60 + Y and contains 'h' |
| `Formatadores.LerSoMinutos` | src/utils/formatadores.ts:57 | "Y min" built from a number reads back as Y and contains no 'h' |
| `Formatadores.CapitalizarPorCaractere` | src/utils/formatadores.ts:69-75 | lower-case, split on ' ', upper-case each word's first character, join is the same as a per-character transform; length is kept |
| `Formatadores.CapitalizarEm` | src/utils/formatadores.ts:69-75 | character i of the result is the lower-cased input character, upper-cased where a word starts |
| `Formatadores.CapitalizarPreservaPalavras` | src/utils/formatadores.ts:69-75 | length, space positions and word count are kept; word starts are not lower-case letters and other characters are not upper-case letters |
| `Formatadores.CapitalizarIdempotente` | src/utils/formatadores.ts:69-75 | capitalising twice equals capitalising once |
| `Formatadores.FormatarEnumEm` | src/utils/formatadores.ts:78-83 | each '_' becomes ' ', segment starts are upper-cased and the rest lower-cased; length kept |
| `Formatadores.FormatarEnumPalavras` | src/utils/formatadores.ts:78-83 | for a value without spaces, the words of the label are exactly the title-cased '_'-segments, one per segment |
| `Relatorios.PeriodoObrigatorio` | supabase/functions/relatorios/index.ts:28-33 | a missing or empty `data_inicio` or `data_fim`: 400 'Período não informado' |
| `Relatorios.Atender` | supabase/functions/relatorios/index.ts:9-115 | the handler as a function of the request and the query's result; no contract of its own, stated by `PeriodoObrigatorio`, `RotaDesconhecida` and `RelatorioDoPeriodo` |
| `Relatorios.Informada` | supabase/functions/relatorios/index.ts:28 | JavaScript truthiness of a date (absent or "" is falsy); no contract of its own, stated by `PeriodoObrigatorio` |
| `Relatorios.Contar` | supabase/functions/relatorios/index.ts:76-79 | `filter(t => t.status === st).length`; no contract of its own, stated by `ContarMultiplicidade` and `StatusSomamTotal` |
| `Relatorios.SomaEspera` | supabase/functions/relatorios/index.ts:87-90 | the `reduce` of the waiting times; no contract of its own, stated by `SoFinalizadosNasMedias`, `SomasConstantes` and `MediasConstantes` |
| `Relatorios.SomaAtendimento` | supabase/functions/relatorios/index.ts:92-95 | the `reduce` of the service times; no contract of its own, stated by `SoFinalizadosNasMedias`, `SomasConstantes` and `MediasConstantes` |
| `Relatorios.Calcular` | supabase/functions/relatorios/index.ts:74-99 | the statistics; no contract of its own, stated by `ContarMultiplicidade`, `StatusSomamTotal`, `MediasSemFinalizados`, `SoFinalizadosNasMedias` and `MediasConstantes` |
| `Relatorios.Medias` | supabase/functions/relatorios/index.ts:80-98 | the two averages; no contract of its own, stated by `MediasSemFinalizados`, `SoFinalizadosNasMedias` and `MediasConstantes` |
| `Relatorios.Arredondar` | supabase/functions/relatorios/index.ts:97-98 | `Math.round(T / n / 60000)`; no contract of its own, stated by `ArredondarMeioParaCima` |
| `Relatorios.RotaDesconhecida` | supabase/functions/relatorios/index.ts:108-112 | any route other than `atendimentos`: 404 |
| `Relatorios.RelatorioDoPeriodo` | supabase/functions/relatorios/index.ts:64-106 | with a valid period the answer is the tickets with their statistics, or 500 'Erro ao buscar atendimentos' when the query fails |
| `Relatorios.Finalizados` | supabase/functions/relatorios/index.ts:85 | the tickets entering the averages are all `atendido` with both times recorded |
| `Relatorios.ContarMultiplicidade` | supabase/functions/relatorios/index.ts:76-79 | each status count is the multiplicity of that status among the tickets |
| `Relatorios.StatusSomamTotal` | supabase/functions/relatorios/index.ts:75-79 | `total` is the number of tickets and the four status counts sum to it |
| `Relatorios.MediasSemFinalizados` | supabase/functions/relatorios/index.ts:80-86 | with no finished ticket both averages are 0 |
| `Relatorios.SoFinalizadosNasMedias` | supabase/functions/relatorios/index.ts:85-98 | inserting a ticket that is not finished (cancelled, waiting, in service, or missing a time) anywhere in the list leaves both averages unchanged |
| `Relatorios.FinalizadosSemNaoFinalizado` | supabase/functions/relatorios/index.ts:85 | such a ticket does not enter the finished subset |
| `Relatorios.ArredondarMeioParaCima` | supabase/functions/relatorios/index.ts:97-98 | the rounded average r satisfies r − ½ ≤ T/(n·60000) < r + ½ (round half up) |
| `Relatorios.MediasConstantes` | supabase/functions/relatorios/index.ts:87-98 | when every finished ticket waited w and was served a whole minutes, the averages are exactly w and a |
| `Relatorios.SomasConstantes` | supabase/functions/relatorios/index.ts:87-95 | the two `reduce` sums of constant times are n times that time |
| `Painel.ProximaPublicidadeNoIntervalo` | src/pages/publico/PainelChamada.tsx:43 | one rotation step stays in [0, n) and moves to the next index, wrapping from the last to 0 |
| `Painel.ProximaPublicidade` | src/pages/publico/PainelChamada.tsx:43 | one rotation step; no contract of its own, stated by `ProximaPublicidadeNoIntervalo`, `GirarSoma` and `VoltaCompleta` |
| `Painel.Empilhar` | src/pages/publico/PainelChamada.tsx:315 | pushing a call; no contract of its own, stated by `EmpilharLimitado` and `EmpilharTodosRecentes` |
| `Painel.Primeiros` | src/pages/publico/PainelChamada.tsx:500 | `slice(0, n)`: min(n, length) elements, a prefix of the list (also `slice(0, 9)` at line 315) |
| `Painel.LinhasExibidas` | src/pages/publico/PainelChamada.tsx:500-505 | the rendered rows; no contract of its own, stated by `LinhasDoPainel` |
| `Painel.GirarSoma` | src/pages/publico/PainelChamada.tsx:43 | k rotation steps from i land on (i + k) mod n |
| `Painel.VoltaCompleta` | src/pages/publico/PainelChamada.tsx:41-47 | after n steps the index is back where it started, and those n steps show every advertisement |
| `Painel.EmpilharLimitado` | src/pages/publico/PainelChamada.tsx:315 | a new call heads the list, which holds at most 10, the previous calls following in their order, dropped only from the tail |
| `Painel.EmpilharTodosRecentes` | src/pages/publico/PainelChamada.tsx:315 | after one or more calls the list is the first 10 of (the calls newest first, then the earlier list) |
| `Painel.LinhasDoPainel` | src/pages/publico/PainelChamada.tsx:500-505 | the board renders min(12, list length) rows in list order and highlights exactly row 0 |
| `Painel.PainelChamada.constructor` | src/pages/publico/PainelChamada.tsx:11-14 | the board starts with no advertisement, index 0, no calls and no last ticket |
| `Painel.PainelChamada.Carregar` | src/pages/publico/PainelChamada.tsx:262-265 | loading sets the advertisements (line 111) and the calls, makes the first call (if any) the last ticket, and leaves the rotation index as it was |
| `Painel.PainelChamada.AvancarPublicidade` | src/pages/publico/PainelChamada.tsx:40-48 | a tick happens only when there is an advertisement; it applies one rotation step, after which the index is in range whatever it was before |
| `Painel.PainelChamada.NovaChamada` | src/pages/publico/PainelChamada.tsx:311-315 | a new call becomes the last ticket and is pushed onto the bounded list |
| `Painel.CenarioRotacao` | src/pages/publico/PainelChamada.tsx:40-48 | with three advertisements the board shows a, b, c and then a again |
| `Colecoes.Filtrar` | src/pages/atendimento/Atendimento.tsx:224 | `Array.prototype.filter` (also at src/pages/atendimento/Atendimento.tsx:208, 237, 271 and supabase/functions/relatorios/index.ts:76-85): never longer, and an element is kept exactly when it is in the list and passes |
| `Colecoes.FiltrarMultiset` | src/pages/atendimento/Atendimento.tsx:237 | `filter` keeps each kept element as many times as before and drops every rejected one |
| `Colecoes.FiltrarConcat` | src/pages/atendimento/Atendimento.tsx:237 | `filter` distributes over concatenation, so the relative order is kept |
| `Colecoes.FiltrarPrimeiro` | src/pages/atendimento/Atendimento.tsx:224-225 | the head of a filtered list is the first element that passes |

## Left out

- HTTP and Supabase plumbing are not modelled: `serve`, CORS headers, `createClient`, `req.json` and the query builders. A request is a method, a path and an already-parsed body; a body that is not JSON, or is JSON but not an object (`null`, a number, an array), is `None`, which reaches the catch-all 500: in the source the destructuring of such a body throws (tickets/index.ts:32, 116 and 169, relatorios/index.ts:25).
- The database is modelled as in-memory maps. New row ids are taken from a counter in the state, log ids are 1, 2, 3, … in insertion order, and a ticket's creation time is the instant of `emitir`.
- One instant `agora` serves a whole request. The source reads the clock again at each `new Date()`: for `emitir` the day key and the ticket's `criado_em` can fall on different days at midnight, and the model does not capture that.
- `Number.prototype.toString` is modelled as plain decimal digits. From 10^21 upward JavaScript uses exponent notation, which the model does not capture.
- Foreign keys and joins are left out: the repository has no schema. `chamar` and `finalizar` assume the counter (`guiche`) and user ids they receive refer to existing rows. The response bodies embed the stored ticket, not the joined `guiche` row.
- Log rows are modelled without the human-readable `detalhes` text. The one consequence the model keeps is that `finalizar` on a ticket with no counter throws while building it.
- The failures of the queue read, the counter write, the ticket insert, the ticket updates and the log inserts are the parameter `Falhas`; their causes (constraints, the network) are not modelled.
- `ServicoTickets.Emissao` does not model a failed counter read. The source ignores that error, so the number is 1 and a second counter row for the same queue and day is inserted; from then on every read of that key fails (`.single()` on two rows), and every ticket of that queue and day is numbered 1. The counter table is a map with one row per (queue, day) key and cannot hold the second row, so the model reads the counter successfully every time.
- `ServicoTickets.EmitirPreservaValido` holds only when every counter read and write succeeds. The failed write is `Falhas.contador`, excluded by its condition; `ContadorFalhoRepeteNumero` shows the duplicate number that follows when it fails. The failed read is not modelled (line above), and it too breaks uniqueness in the source.
- `ServicoTickets.TratarPreservaValido` holds only when every counter read and write succeeds, for the same two reasons. `EmissoesSequenciais` and `EmissoesDistintas` are likewise stated for runs in which every database call succeeds.
- The `relatorios` period query is not modelled: its result (the filter on `criado_em`, `local_id`, the joins) and its failure are parameters.
- Concurrency is not modelled. The counter read-then-write is not atomic in the source; the model proves uniqueness of numbers for sequential requests only.
- Reset policies other than the daily key do not exist in the code, which always keys the counter on the ISO date. `Fila.reset_ticket` is carried but unused.
- Timers are method calls. The 10-second advertisement interval and the agent's one-second service clock are left out; only the clock's reset to 0 is modelled.
- Sound, `alert`, `console.log`, notifications and fullscreen are left out.
- `estatisticasDia.tempoMedio` and `naFila` are never updated by the handlers and are not modelled.
- The screens' data loading and the mock data are parameters: of the `TelaAtendimento` constructor (waiting list, history, day counters) and of `PainelChamada.Carregar`. The board's constructor is the empty state before loading.
- The simulated random call on the board (`Math.random`) is left out; the new ticket is a parameter of `NovaChamada`.
- `formatarDataHora`, `formatarData` and `formatarMoeda` are left out: they are locale formatting by `Intl`/`Date`.
- `Formatadores.CapitalizarPreservaPalavras`: the case-mapping properties are stated for ASCII letters only. `Minuscula`/`Maiuscula` map `A`–`Z`/`a`–`z` and leave every other character as it is, unlike JavaScript's Unicode case mapping.
- `Formatadores.FormatarEnumEm`: ASCII case mapping only, as above.
- `Formatadores.FormatarNumeroTicket`: numbers are naturals. Negative or fractional numbers, whose `toString` has a sign or a point, are not modelled.
- `Formatadores.FormatarTempo`, `Formatadores.FormatarTempoEmMinutos` and `Atendimento.FormatarMinSeg` take naturals too. The source accepts any number (`formatarTempoEmMinutos(-5)` gives "-5 min", formatadores.ts:50-58); negative and fractional inputs are not modelled. The screen's own `formatarTempo`, which `Atendimento.FormatarMinSeg` models, is only ever passed the natural service clock `tempoAtendimento` (Atendimento.tsx:443 and 466); the two utilities have no caller in the source.
- Ids are integers, as in `src/types/index.ts`; the database typings in `src/lib/supabase.ts` use strings.
- `Relatorios.ArredondarMeioParaCima`: the average is computed on exact integers. The source divides in floating point, which can differ when the quotient sits within rounding error of a half.
- The master-data screens, dashboards, authentication and routing are not part of this model. They only reuse the queue form's prefix and width limits, which here are the precondition `FilaValida`.
