/**
 * The `tickets` edge function (supabase/functions/tickets/index.ts): issuing a
 * numbered ticket, calling it to a counter and finishing it.
 *
 * The three database tables the function touches are held in memory: the
 * numbering counters keyed by (queue id, reference day), the tickets keyed by
 * id, and the append-only attendance log. `Tratar` and the three route
 * functions are the specification; the class `ServidorTickets` keeps the same
 * tables in fields and its methods update them step by step, each proved to
 * produce the state and the response the specification gives.
 *
 * The clock is the parameter `agora`; which database calls fail is the
 * parameter `Falhas`. The function checks the queue read, the ticket insert
 * and the ticket updates; a failed counter write or log insert goes
 * unnoticed.
 */
module ServicoTickets {
  import opened Tipos
  import Formatadores

  const MS_POR_DIA: int := 86_400_000

  /** `new Date().toISOString().split('T')[0]`: the UTC calendar day of an
      instant, represented by its day number since the epoch: the day whose
      24 hours contain the instant. */
  function Referencia(agora: Instante): (dia: int)
    ensures dia * MS_POR_DIA <= agora < (dia + 1) * MS_POR_DIA
  {
    agora / MS_POR_DIA
  }

  /** The key of a numbering counter: (queue id, reference day). */
  type Chave = (Id, int)

  /** The tables the function reads and writes, plus the next free row ids the
      database would assign. */
  datatype Banco = Banco(
    filas: map<Id, Fila>,
    controles: map<Chave, ControleTicket>,
    tickets: map<Id, Ticket>,
    logs: seq<LogAtendimento>,
    proximoControle: Id,
    proximoTicket: Id)

  /** Which database calls fail: the queue read of `emitir`, its counter
      update or insert, its ticket insert, the ticket update of `chamar` and
      `finalizar`, and their log insert. */
  datatype Falhas = Falhas(fila: bool, contador: bool, insercao: bool, atualizacao: bool, log: bool)

  const SEM_FALHAS := Falhas(false, false, false, false, false)

  /** The JSON body fields the three routes read; `None` is an absent field. */
  datatype Corpo = Corpo(
    fila_id: Option<Id>,
    observacao: Option<string>,
    ticket_id: Option<Id>,
    guiche_id: Option<Id>,
    usuario_id: Option<Id>)

  /** A request: HTTP method, URL path, and the body (`None` when it is not JSON). */
  datatype Requisicao = Requisicao(metodo: string, caminho: string, corpo: Option<Corpo>)

  datatype CorpoResposta = Texto(texto: string) | TicketJson(ticket: Ticket) | Erro(mensagem: string)

  datatype Resposta = Resposta(status: int, corpo: CorpoResposta)

  /** JavaScript truthiness of an id: absent and 0 are falsy. */
  predicate Informado(id: Option<Id>)
  {
    id.Some? && id.value != 0
  }

  /** `url.pathname.split('/').pop()`. */
  function Rota(caminho: string): string
  {
    var partes := Formatadores.Dividir(caminho, '/');
    partes[|partes| - 1]
  }

  /** The counter key a ticket was numbered under. */
  function ChaveDe(t: Ticket): Chave
  {
    (t.fila_id, Referencia(t.criado_em))
  }

  /** The last number issued under a key, 0 when the key has no counter yet. */
  function Ultimo(b: Banco, k: Chave): nat
  {
    if k in b.controles then b.controles[k].ultimo_numero else 0
  }

  /** The row the ticket insert creates: the given number, queue and note,
      status `aguardando`, every other optional column empty. */
  function NovoTicket(id: Id, numero: nat, fid: Id, fila: Fila, observacao: Option<string>, agora: Instante): Ticket
  {
    Ticket(id, numero, fid, Some(fila), Aguardando, observacao,
           None, None, None, None, None, agora, None)
  }

  // ---------------------------------------------------------------------------
  // The routes (index.ts:24-213)
  // ---------------------------------------------------------------------------

  /** The counter step of `emitir` (index.ts:56-79): bump today's counter of
      the queue, or create it at 1. */
  function AvancarContador(b: Banco, fid: Id, agora: Instante): Banco
  {
    var k := (fid, Referencia(agora));
    var numero := Ultimo(b, k) + 1;
    if k in b.controles then
      b.(controles := b.controles[k := b.controles[k].(ultimo_numero := numero)])
    else
      b.(controles := b.controles[k := ControleTicket(b.proximoControle, fid, k.1, numero, agora)],
         proximoControle := b.proximoControle + 1)
  }

  /** `emitir` after the method check (index.ts:32-103). */
  function Emissao(b: Banco, corpo: Corpo, agora: Instante, falhas: Falhas): (Resposta, Banco)
  {
    if !Informado(corpo.fila_id) then
      (Resposta(400, Erro("Fila não informada")), b)
    else if corpo.fila_id.value !in b.filas || falhas.fila then
      (Resposta(404, Erro("Fila não encontrada")), b)
    else
      var fid := corpo.fila_id.value;
      var numero := Ultimo(b, (fid, Referencia(agora))) + 1;
      var b1 := if falhas.contador then b else AvancarContador(b, fid, agora);
      if falhas.insercao then
        (Resposta(500, Erro("Erro ao criar ticket")), b1)
      else
        var t := NovoTicket(b.proximoTicket, numero, fid, b.filas[fid], corpo.observacao, agora);
        (Resposta(200, TicketJson(t)),
         b1.(tickets := b1.tickets[t.id := t], proximoTicket := b.proximoTicket + 1))
  }

  /** `chamar` after the method check (index.ts:113-156). */
  function Chamada(b: Banco, corpo: Corpo, agora: Instante, falhas: Falhas): (Resposta, Banco)
  {
    if !Informado(corpo.ticket_id) || !Informado(corpo.guiche_id) || !Informado(corpo.usuario_id) then
      (Resposta(400, Erro("Dados incompletos")), b)
    else if corpo.ticket_id.value !in b.tickets || falhas.atualizacao then
      (Resposta(500, Erro("Erro ao chamar ticket")), b)
    else
      var tid, gid, uid := corpo.ticket_id.value, corpo.guiche_id.value, corpo.usuario_id.value;
      var t := b.tickets[tid].(status := EmAtendimento, chamado_por := Some(uid),
                               chamado_em := Some(agora), guiche_id := Some(gid));
      var log := LogAtendimento(|b.logs| + 1, uid, tid, Some(gid), "chamada", agora);
      (Resposta(200, TicketJson(t)),
       b.(tickets := b.tickets[tid := t], logs := if falhas.log then b.logs else b.logs + [log]))
  }

  /** `finalizar` after the method check (index.ts:166-207). A ticket that was
      never called has no counter to embed, so building the log text fails
      after the update: the exception handler answers 500 and no log row is
      written. */
  function Finalizacao(b: Banco, corpo: Corpo, agora: Instante, falhas: Falhas): (Resposta, Banco)
  {
    if !Informado(corpo.ticket_id) || !Informado(corpo.usuario_id) then
      (Resposta(400, Erro("Dados incompletos")), b)
    else if corpo.ticket_id.value !in b.tickets || falhas.atualizacao then
      (Resposta(500, Erro("Erro ao finalizar ticket")), b)
    else
      var tid, uid := corpo.ticket_id.value, corpo.usuario_id.value;
      var t := b.tickets[tid].(status := Atendido, atendimento_finalizado_em := Some(agora));
      var b1 := b.(tickets := b.tickets[tid := t]);
      if t.guiche_id.None? then
        (Resposta(500, Erro("Erro interno do servidor")), b1)
      else
        var log := LogAtendimento(|b.logs| + 1, uid, tid, t.guiche_id, "finalização", agora);
        (Resposta(200, TicketJson(t)), b1.(logs := if falhas.log then b.logs else b.logs + [log]))
  }

  /** The whole handler (index.ts:9-221): CORS preflight, route dispatch,
      method check, body parsing. */
  function Tratar(b: Banco, req: Requisicao, agora: Instante, falhas: Falhas): (Resposta, Banco)
  {
    if req.metodo == "OPTIONS" then
      (Resposta(200, Texto("ok")), b)
    else
      var rota := Rota(req.caminho);
      if rota != "emitir" && rota != "chamar" && rota != "finalizar" then
        (Resposta(404, Erro("Rota não encontrada")), b)
      else if req.metodo != "POST" then
        (Resposta(405, Erro("Método não permitido")), b)
      else if req.corpo.None? then
        (Resposta(500, Erro("Erro interno do servidor")), b)
      else if rota == "emitir" then
        Emissao(b, req.corpo.value, agora, falhas)
      else if rota == "chamar" then
        Chamada(b, req.corpo.value, agora, falhas)
      else
        Finalizacao(b, req.corpo.value, agora, falhas)
  }

  // ---------------------------------------------------------------------------
  // The invariant of the tables
  // ---------------------------------------------------------------------------

  /** Rows are stored under their own ids, which are below the next free id;
      every counter row matches its key; every ticket's number lies between 1
      and the counter of its key; no two tickets under one key share a number;
      log ids are 1, 2, 3, ... in order. */
  predicate Valido(b: Banco)
  {
    IdsCoerentes(b) && ControlesCoerentes(b) && NumerosLimitados(b)
    && NumerosDistintos(b) && LogsNumerados(b)
  }

  predicate IdsCoerentes(b: Banco)
  {
    forall id :: id in b.tickets ==> b.tickets[id].id == id && id < b.proximoTicket
  }

  predicate ControlesCoerentes(b: Banco)
  {
    forall k :: k in b.controles ==>
      b.controles[k].fila_id == k.0 && b.controles[k].referencia == k.1
      && b.controles[k].id < b.proximoControle
  }

  predicate NumerosLimitados(b: Banco)
  {
    forall id :: id in b.tickets ==> 1 <= b.tickets[id].numero <= Ultimo(b, ChaveDe(b.tickets[id]))
  }

  predicate NumerosDistintos(b: Banco)
  {
    forall i, j :: i in b.tickets && j in b.tickets && i != j
      && ChaveDe(b.tickets[i]) == ChaveDe(b.tickets[j])
      ==> b.tickets[i].numero != b.tickets[j].numero
  }

  predicate LogsNumerados(b: Banco)
  {
    forall i :: 0 <= i < |b.logs| ==> b.logs[i].id == i + 1
  }

  /** The empty database over a set of queues is valid. */
  lemma BancoVazioValido(filas: map<Id, Fila>)
    ensures Valido(Banco(filas, map[], map[], [], 1, 1))
  {
  }

  // ---------------------------------------------------------------------------
  // Routing and errors
  // ---------------------------------------------------------------------------

  /** A preflight request is answered 'ok' whatever its path, with no write. */
  lemma PreflightOk(b: Banco, req: Requisicao, agora: Instante, falhas: Falhas)
    requires req.metodo == "OPTIONS"
    ensures Tratar(b, req, agora, falhas) == (Resposta(200, Texto("ok")), b)
  {
  }

  /** A path whose last segment is not a route is answered 404 with no write. */
  lemma RotaDesconhecida(b: Banco, req: Requisicao, agora: Instante, falhas: Falhas)
    requires req.metodo != "OPTIONS"
    requires Rota(req.caminho) !in {"emitir", "chamar", "finalizar"}
    ensures Tratar(b, req, agora, falhas) == (Resposta(404, Erro("Rota não encontrada")), b)
  {
  }

  /** Any method other than POST on a route is answered 405 with no write. */
  lemma MetodoNaoPermitido(b: Banco, req: Requisicao, agora: Instante, falhas: Falhas)
    requires req.metodo != "OPTIONS" && req.metodo != "POST"
    requires Rota(req.caminho) in {"emitir", "chamar", "finalizar"}
    ensures Tratar(b, req, agora, falhas) == (Resposta(405, Erro("Método não permitido")), b)
  {
  }

  /** Only the last path segment selects the route. */
  lemma RotaUltimoSegmento(prefixo: string, rota: string)
    requires '/' !in rota
    ensures Rota(prefixo + "/" + rota) == rota
  {
    RotaDepoisDaBarra(prefixo, rota);
  }

  lemma {:induction false} RotaDepoisDaBarra(prefixo: string, rota: string)
    requires '/' !in rota
    ensures var partes := Formatadores.Dividir(prefixo + "/" + rota, '/');
      |partes| >= 2 && partes[|partes| - 1] == rota
  {
    var s := prefixo + "/" + rota;
    if prefixo == [] {
      assert s[0] == '/' && s[1..] == rota;
      Formatadores.DividirPalavra(rota, [], '/');
      assert rota + [] == rota;
    } else {
      assert s[1..] == prefixo[1..] + "/" + rota;
      RotaDepoisDaBarra(prefixo[1..], rota);
    }
  }

  // ---------------------------------------------------------------------------
  // emitir
  // ---------------------------------------------------------------------------

  /** Without a queue id: 400 and nothing written. */
  lemma EmitirSemFila(b: Banco, corpo: Corpo, agora: Instante, falhas: Falhas)
    requires !Informado(corpo.fila_id)
    ensures Emissao(b, corpo, agora, falhas) == (Resposta(400, Erro("Fila não informada")), b)
  {
  }

  /** With an unknown queue id, or when the queue read fails: 404 and nothing
      written. */
  lemma EmitirFilaInexistente(b: Banco, corpo: Corpo, agora: Instante, falhas: Falhas)
    requires Informado(corpo.fila_id) && (corpo.fila_id.value !in b.filas || falhas.fila)
    ensures Emissao(b, corpo, agora, falhas) == (Resposta(404, Erro("Fila não encontrada")), b)
  {
  }

  /** For a known queue the issued number is one more than the last one under
      today's key (so 1 for a new key). When the counter write succeeds, that
      key's counter becomes the number, a new counter row records the queue
      and the day, and no other counter changes; when it fails, no counter
      changes at all and the ticket is issued anyway. No queue or log
      changes. The ticket, when its insert succeeds, is waiting and carries
      the number, the queue and the note. */
  lemma EmitirNumera(b: Banco, corpo: Corpo, agora: Instante, falhas: Falhas)
    requires Informado(corpo.fila_id) && corpo.fila_id.value in b.filas && !falhas.fila
    ensures var (r, b') := Emissao(b, corpo, agora, falhas);
      var k := (corpo.fila_id.value, Referencia(agora));
      var numero := Ultimo(b, k) + 1;
      && (!falhas.contador ==>
            && k in b'.controles
            && b'.controles[k].ultimo_numero == numero
            && (k !in b.controles ==> numero == 1 && b'.controles[k] == ControleTicket(b.proximoControle, k.0, k.1, 1, agora))
            && (forall k' :: k' != k ==> (k' in b'.controles <==> k' in b.controles))
            && (forall k' :: k' != k && k' in b.controles ==> b'.controles[k'] == b.controles[k']))
      && (falhas.contador ==> b'.controles == b.controles && b'.proximoControle == b.proximoControle)
      && b'.filas == b.filas && b'.logs == b.logs
      && (falhas.insercao ==> r == Resposta(500, Erro("Erro ao criar ticket")) && b'.tickets == b.tickets)
      && (!falhas.insercao ==>
            && r.status == 200 && r.corpo.TicketJson?
            && r.corpo.ticket.numero == numero
            && r.corpo.ticket.status == Aguardando
            && r.corpo.ticket.fila_id == corpo.fila_id.value
            && r.corpo.ticket.fila == Some(b.filas[corpo.fila_id.value])
            && r.corpo.ticket.observacao == corpo.observacao
            && ChaveDe(r.corpo.ticket) == k
            && b'.tickets == b.tickets[b.proximoTicket := r.corpo.ticket])
  {
  }

  /** Issuing with a working counter write keeps the tables valid; in
      particular the new ticket's number is not shared by any other ticket of
      the same queue and day. (A failed counter write breaks this:
      `ContadorFalhoRepeteNumero`.) */
  lemma EmitirPreservaValido(b: Banco, corpo: Corpo, agora: Instante, falhas: Falhas)
    requires Valido(b)
    requires !falhas.contador
    ensures Valido(Emissao(b, corpo, agora, falhas).1)
  {
    if Informado(corpo.fila_id) && corpo.fila_id.value in b.filas && !falhas.fila {
      var fid := corpo.fila_id.value;
      var b1 := AvancarContador(b, fid, agora);
      AvancarContadorValido(b, fid, agora);
      if !falhas.insercao {
        var t := NovoTicket(b.proximoTicket, Ultimo(b1, (fid, Referencia(agora))), fid,
                            b.filas[fid], corpo.observacao, agora);
        assert Emissao(b, corpo, agora, falhas).1
            == b1.(tickets := b1.tickets[t.id := t], proximoTicket := b.proximoTicket + 1);
        InserirTicketValido(b1, t);
      }
    }
  }

  /** The counter step keeps the tables valid and leaves the new counter
      strictly above every number already issued under its key. */
  lemma AvancarContadorValido(b: Banco, fid: Id, agora: Instante)
    requires Valido(b)
    ensures var b1 := AvancarContador(b, fid, agora);
      var k := (fid, Referencia(agora));
      && Valido(b1)
      && b1.tickets == b.tickets && b1.proximoTicket == b.proximoTicket && b1.filas == b.filas
      && Ultimo(b1, k) == Ultimo(b, k) + 1
      && (forall id :: id in b1.tickets && ChaveDe(b1.tickets[id]) == k ==> b1.tickets[id].numero < Ultimo(b1, k))
  {
    var b1 := AvancarContador(b, fid, agora);
    var k := (fid, Referencia(agora));
    ControlesAposAvanco(b, fid, agora);
    UltimoAposAvanco(b, fid, agora, k);
    forall id | id in b1.tickets
      ensures 1 <= b1.tickets[id].numero <= Ultimo(b1, ChaveDe(b1.tickets[id]))
      ensures ChaveDe(b1.tickets[id]) == k ==> b1.tickets[id].numero < Ultimo(b1, k)
    {
      UltimoAposAvanco(b, fid, agora, ChaveDe(b.tickets[id]));
    }
  }

  /** The counter step raises its own key's counter by one and no other. */
  lemma UltimoAposAvanco(b: Banco, fid: Id, agora: Instante, k: Chave)
    ensures Ultimo(AvancarContador(b, fid, agora), k)
         == if k == (fid, Referencia(agora)) then Ultimo(b, k) + 1 else Ultimo(b, k)
  {
  }

  /** A counter row the step creates matches its key and takes the next id. */
  lemma ControlesAposAvanco(b: Banco, fid: Id, agora: Instante)
    requires ControlesCoerentes(b)
    ensures ControlesCoerentes(AvancarContador(b, fid, agora))
  {
  }

  /** Inserting a ticket under the next free id, numbered with its key's
      counter, which is above every number issued under that key, keeps the
      tables valid. */
  lemma InserirTicketValido(b: Banco, t: Ticket)
    requires Valido(b)
    requires t.id == b.proximoTicket && t.numero == Ultimo(b, ChaveDe(t)) && t.numero >= 1
    requires forall id :: id in b.tickets && ChaveDe(b.tickets[id]) == ChaveDe(t) ==> b.tickets[id].numero < t.numero
    ensures Valido(b.(tickets := b.tickets[t.id := t], proximoTicket := b.proximoTicket + 1))
  {
  }

  /** A counter write that fails goes unnoticed: the ticket is issued, and
      the next issuance for the same queue on the same day gets the same
      number, so the tables are no longer valid. */
  lemma ContadorFalhoRepeteNumero(b: Banco, fid: Id, agora: Instante)
    requires Valido(b) && fid != 0 && fid in b.filas
    ensures var corpo := Corpo(Some(fid), None, None, None, None);
      var (r1, b1) := Emissao(b, corpo, agora, Falhas(false, true, false, false, false));
      var (r2, b2) := Emissao(b1, corpo, agora, SEM_FALHAS);
      && r1.status == 200 && r1.corpo.TicketJson?
      && r2.status == 200 && r2.corpo.TicketJson?
      && r1.corpo.ticket.id != r2.corpo.ticket.id
      && ChaveDe(r1.corpo.ticket) == ChaveDe(r2.corpo.ticket)
      && r1.corpo.ticket.numero == r2.corpo.ticket.numero
      && !Valido(b2)
  {
    var corpo := Corpo(Some(fid), None, None, None, None);
    var (r1, b1) := Emissao(b, corpo, agora, Falhas(false, true, false, false, false));
    var (r2, b2) := Emissao(b1, corpo, agora, SEM_FALHAS);
    EmitirNumera(b, corpo, agora, Falhas(false, true, false, false, false));
    EmitirNumera(b1, corpo, agora, SEM_FALHAS);
    var i, j := b.proximoTicket, b1.proximoTicket;
    assert b2.tickets[i] == r1.corpo.ticket && b2.tickets[j] == r2.corpo.ticket;
    assert !NumerosDistintos(b2);
  }

  /** Issuances for one queue at instants `agoras`, each answered before the
      next, with every write succeeding. */
  function Emissoes(b: Banco, fid: Id, agoras: seq<Instante>): (Banco, seq<Resposta>)
    decreases |agoras|
  {
    if agoras == [] then (b, [])
    else
      var (r, b1) := Emissao(b, Corpo(Some(fid), None, None, None, None), agoras[0], SEM_FALHAS);
      var (b2, rs) := Emissoes(b1, fid, agoras[1..]);
      (b2, [r] + rs)
  }

  /** Issuances for one queue on one day are numbered u+1, u+2, ... where u is
      the counter before them (so 1, 2, 3, ... on a fresh day), the counter
      ends at the last number issued, and every other key's counter is as it
      was. */
  lemma {:induction false} EmissoesSequenciais(b: Banco, fid: Id, dia: int, agoras: seq<Instante>)
    requires fid != 0 && fid in b.filas
    decreases |agoras|
    requires forall i :: 0 <= i < |agoras| ==> Referencia(agoras[i]) == dia
    ensures var (b', rs) := Emissoes(b, fid, agoras);
      && |rs| == |agoras|
      && (forall i :: 0 <= i < |rs| ==>
            rs[i].status == 200 && rs[i].corpo.TicketJson?
            && rs[i].corpo.ticket.numero == Ultimo(b, (fid, dia)) + i + 1)
      && Ultimo(b', (fid, dia)) == Ultimo(b, (fid, dia)) + |agoras|
      && (forall k :: k != (fid, dia) ==> Ultimo(b', k) == Ultimo(b, k))
      && b'.filas == b.filas
  {
    if agoras != [] {
      var corpo := Corpo(Some(fid), None, None, None, None);
      var (r, b1) := Emissao(b, corpo, agoras[0], SEM_FALHAS);
      EmitirNumera(b, corpo, agoras[0], SEM_FALHAS);
      EmissoesSequenciais(b1, fid, dia, agoras[1..]);
      var (b2, rs) := Emissoes(b1, fid, agoras[1..]);
      assert Emissoes(b, fid, agoras) == (b2, [r] + rs);
      forall k | k != (fid, dia)
        ensures Ultimo(b1, k) == Ultimo(b, k)
      {
      }
    }
  }

  /** Sequential issuances never hand out one number twice on one day. */
  lemma EmissoesDistintas(b: Banco, fid: Id, dia: int, agoras: seq<Instante>, i: nat, j: nat)
    requires fid != 0 && fid in b.filas
    requires forall n :: 0 <= n < |agoras| ==> Referencia(agoras[n]) == dia
    requires i < j < |agoras|
    ensures var rs := Emissoes(b, fid, agoras).1;
      && |rs| == |agoras| && rs[i].corpo.TicketJson? && rs[j].corpo.TicketJson?
      && rs[i].corpo.ticket.numero != rs[j].corpo.ticket.numero
  {
    EmissoesSequenciais(b, fid, dia, agoras);
  }

  // ---------------------------------------------------------------------------
  // chamar
  // ---------------------------------------------------------------------------

  /** Any of ticket, counter or user missing: 400 and nothing written. */
  lemma ChamarDadosIncompletos(b: Banco, corpo: Corpo, agora: Instante, falhas: Falhas)
    requires !Informado(corpo.ticket_id) || !Informado(corpo.guiche_id) || !Informado(corpo.usuario_id)
    ensures Chamada(b, corpo, agora, falhas) == (Resposta(400, Erro("Dados incompletos")), b)
  {
  }

  /** Calling an existing ticket overwrites its status, caller, call time and
      counter whatever its previous status, leaves its other fields and every
      other table alone, and appends exactly one `chamada` log row unless the
      log insert fails, which the answer does not show. */
  lemma ChamarAtualiza(b: Banco, corpo: Corpo, agora: Instante, falhas: Falhas)
    requires Informado(corpo.ticket_id) && Informado(corpo.guiche_id) && Informado(corpo.usuario_id)
    requires corpo.ticket_id.value in b.tickets && !falhas.atualizacao
    ensures var (r, b') := Chamada(b, corpo, agora, falhas);
      var tid := corpo.ticket_id.value;
      var antes := b.tickets[tid];
      && r == Resposta(200, TicketJson(b'.tickets[tid]))
      && b'.tickets[tid].status == EmAtendimento
      && b'.tickets[tid].chamado_por == corpo.usuario_id
      && b'.tickets[tid].chamado_em == Some(agora)
      && b'.tickets[tid].guiche_id == corpo.guiche_id
      && b'.tickets[tid].atendimento_iniciado_em == antes.atendimento_iniciado_em
      && b'.tickets[tid].(status := antes.status, chamado_por := antes.chamado_por,
                          chamado_em := antes.chamado_em, guiche_id := antes.guiche_id) == antes
      && b'.tickets.Keys == b.tickets.Keys
      && (forall id :: id in b.tickets && id != tid ==> b'.tickets[id] == b.tickets[id])
      && b'.controles == b.controles && b'.filas == b.filas
      && (falhas.log ==> b'.logs == b.logs)
      && (!falhas.log ==>
            && |b'.logs| == |b.logs| + 1 && b'.logs[..|b.logs|] == b.logs
            && b'.logs[|b.logs|] == LogAtendimento(|b.logs| + 1, corpo.usuario_id.value, tid,
                                                   corpo.guiche_id, "chamada", agora))
  {
  }

  /** An unknown ticket id, or a failed ticket update: 500 and nothing
      written. */
  lemma ChamarTicketInexistente(b: Banco, corpo: Corpo, agora: Instante, falhas: Falhas)
    requires Informado(corpo.ticket_id) && Informado(corpo.guiche_id) && Informado(corpo.usuario_id)
    requires corpo.ticket_id.value !in b.tickets || falhas.atualizacao
    ensures Chamada(b, corpo, agora, falhas) == (Resposta(500, Erro("Erro ao chamar ticket")), b)
  {
  }

  lemma ChamarPreservaValido(b: Banco, corpo: Corpo, agora: Instante, falhas: Falhas)
    requires Valido(b)
    ensures Valido(Chamada(b, corpo, agora, falhas).1)
  {
    var b' := Chamada(b, corpo, agora, falhas).1;
    if b' != b {
      ChamarAtualiza(b, corpo, agora, falhas);
      MesmaNumeracaoValido(b, b');
    }
  }

  /** A change that keeps every ticket's id, number and key, the counters and
      the next ids, and only appends log rows numbered on, keeps the tables
      valid. */
  lemma MesmaNumeracaoValido(b: Banco, b': Banco)
    requires Valido(b)
    requires b'.tickets.Keys == b.tickets.Keys
    requires forall id :: id in b.tickets ==>
      && b'.tickets[id].id == b.tickets[id].id
      && b'.tickets[id].numero == b.tickets[id].numero
      && ChaveDe(b'.tickets[id]) == ChaveDe(b.tickets[id])
    requires b'.controles == b.controles
    requires b'.proximoControle == b.proximoControle && b'.proximoTicket == b.proximoTicket
    requires b'.logs == b.logs || (|b'.logs| == |b.logs| + 1 && b'.logs[..|b.logs|] == b.logs
                                   && b'.logs[|b.logs|].id == |b.logs| + 1)
    ensures Valido(b')
  {
    forall i | 0 <= i < |b'.logs|
      ensures b'.logs[i].id == i + 1
    {
      if i < |b.logs| {
        assert b'.logs[i] == b.logs[i];
      }
    }
  }

  // ---------------------------------------------------------------------------
  // finalizar
  // ---------------------------------------------------------------------------

  /** Ticket or user missing: 400 and nothing written. */
  lemma FinalizarDadosIncompletos(b: Banco, corpo: Corpo, agora: Instante, falhas: Falhas)
    requires !Informado(corpo.ticket_id) || !Informado(corpo.usuario_id)
    ensures Finalizacao(b, corpo, agora, falhas) == (Resposta(400, Erro("Dados incompletos")), b)
  {
  }

  /** An unknown ticket id, or a failed ticket update: 500 and nothing
      written. */
  lemma FinalizarTicketInexistente(b: Banco, corpo: Corpo, agora: Instante, falhas: Falhas)
    requires Informado(corpo.ticket_id) && Informado(corpo.usuario_id)
    requires corpo.ticket_id.value !in b.tickets || falhas.atualizacao
    ensures Finalizacao(b, corpo, agora, falhas) == (Resposta(500, Erro("Erro ao finalizar ticket")), b)
  {
  }

  /** Finishing an existing ticket sets it `atendido` with the finish time
      whatever its previous status, leaves its other fields and the other
      tickets alone, and, when the ticket has a counter, answers 200 and
      appends exactly one `finalização` log row carrying that counter unless
      the log insert fails; a ticket without a counter is still finished, but
      the answer is 500 and no log row is written. */
  lemma FinalizarAtualiza(b: Banco, corpo: Corpo, agora: Instante, falhas: Falhas)
    requires Informado(corpo.ticket_id) && Informado(corpo.usuario_id)
    requires corpo.ticket_id.value in b.tickets && !falhas.atualizacao
    ensures var (r, b') := Finalizacao(b, corpo, agora, falhas);
      var tid := corpo.ticket_id.value;
      var antes := b.tickets[tid];
      && b'.tickets[tid] == antes.(status := Atendido, atendimento_finalizado_em := Some(agora))
      && b'.tickets.Keys == b.tickets.Keys
      && (forall id :: id in b.tickets && id != tid ==> b'.tickets[id] == b.tickets[id])
      && b'.controles == b.controles && b'.filas == b.filas
      && (antes.guiche_id.Some? ==>
            && r == Resposta(200, TicketJson(b'.tickets[tid]))
            && b'.logs == if falhas.log then b.logs
                          else b.logs + [LogAtendimento(|b.logs| + 1, corpo.usuario_id.value, tid,
                                                        antes.guiche_id, "finalização", agora)])
      && (antes.guiche_id.None? ==>
            r == Resposta(500, Erro("Erro interno do servidor")) && b'.logs == b.logs)
  {
  }

  lemma FinalizarPreservaValido(b: Banco, corpo: Corpo, agora: Instante, falhas: Falhas)
    requires Valido(b)
    ensures Valido(Finalizacao(b, corpo, agora, falhas).1)
  {
    var b' := Finalizacao(b, corpo, agora, falhas).1;
    if b' != b {
      FinalizarAtualiza(b, corpo, agora, falhas);
      MesmaNumeracaoValido(b, b');
    }
  }

  /** Every request, answered or refused, keeps the tables valid as long as
      the counter write does not fail. */
  lemma TratarPreservaValido(b: Banco, req: Requisicao, agora: Instante, falhas: Falhas)
    requires Valido(b)
    requires !falhas.contador
    ensures Valido(Tratar(b, req, agora, falhas).1)
  {
    if req.metodo != "OPTIONS" && req.metodo == "POST" && req.corpo.Some? {
      EmitirPreservaValido(b, req.corpo.value, agora, falhas);
      ChamarPreservaValido(b, req.corpo.value, agora, falhas);
      FinalizarPreservaValido(b, req.corpo.value, agora, falhas);
    }
  }

  // ---------------------------------------------------------------------------
  // The server holding the tables
  // ---------------------------------------------------------------------------

  class ServidorTickets {
    var filas: map<Id, Fila>
    var controles: map<Chave, ControleTicket>
    var tickets: map<Id, Ticket>
    var logs: seq<LogAtendimento>
    var proximoControle: Id
    var proximoTicket: Id

    function Estado(): Banco
      reads this
    {
      Banco(filas, controles, tickets, logs, proximoControle, proximoTicket)
    }

    constructor (filas: map<Id, Fila>)
      ensures Estado() == Banco(filas, map[], map[], [], 1, 1)
      ensures Valido(Estado())
    {
      this.filas := filas;
      controles := map[];
      tickets := map[];
      logs := [];
      proximoControle := 1;
      proximoTicket := 1;
    }

    /** The request handler. */
    method Atender(req: Requisicao, agora: Instante, falhas: Falhas) returns (r: Resposta)
      modifies this
      ensures (r, Estado()) == Tratar(old(Estado()), req, agora, falhas)
    {
      if req.metodo == "OPTIONS" {
        return Resposta(200, Texto("ok"));
      }
      var rota := Rota(req.caminho);
      if rota != "emitir" && rota != "chamar" && rota != "finalizar" {
        return Resposta(404, Erro("Rota não encontrada"));
      }
      if req.metodo != "POST" {
        return Resposta(405, Erro("Método não permitido"));
      }
      if req.corpo.None? {
        return Resposta(500, Erro("Erro interno do servidor"));
      }
      if rota == "emitir" {
        r := Emitir(req.corpo.value, agora, falhas);
      } else if rota == "chamar" {
        r := Chamar(req.corpo.value, agora, falhas);
      } else {
        r := Finalizar(req.corpo.value, agora, falhas);
      }
    }

    /** `emitir`: read the day's counter, bump or create it, insert the ticket. */
    method Emitir(corpo: Corpo, agora: Instante, falhas: Falhas) returns (r: Resposta)
      modifies this
      ensures (r, Estado()) == Emissao(old(Estado()), corpo, agora, falhas)
    {
      if !Informado(corpo.fila_id) {
        return Resposta(400, Erro("Fila não informada"));
      }
      var fid := corpo.fila_id.value;
      if fid !in filas || falhas.fila {
        return Resposta(404, Erro("Fila não encontrada"));
      }
      var hoje := Referencia(agora);
      var k := (fid, hoje);
      var numero := 1;
      if k in controles {
        numero := controles[k].ultimo_numero + 1;
        if !falhas.contador {
          controles := controles[k := controles[k].(ultimo_numero := numero)];
        }
      } else if !falhas.contador {
        controles := controles[k := ControleTicket(proximoControle, fid, hoje, numero, agora)];
        proximoControle := proximoControle + 1;
      }
      if falhas.insercao {
        return Resposta(500, Erro("Erro ao criar ticket"));
      }
      var t := NovoTicket(proximoTicket, numero, fid, filas[fid], corpo.observacao, agora);
      tickets := tickets[t.id := t];
      proximoTicket := proximoTicket + 1;
      r := Resposta(200, TicketJson(t));
    }

    /** `chamar`: overwrite the ticket's call fields, then append the log row. */
    method Chamar(corpo: Corpo, agora: Instante, falhas: Falhas) returns (r: Resposta)
      modifies this
      ensures (r, Estado()) == Chamada(old(Estado()), corpo, agora, falhas)
    {
      if !Informado(corpo.ticket_id) || !Informado(corpo.guiche_id) || !Informado(corpo.usuario_id) {
        return Resposta(400, Erro("Dados incompletos"));
      }
      var tid := corpo.ticket_id.value;
      if tid !in tickets || falhas.atualizacao {
        return Resposta(500, Erro("Erro ao chamar ticket"));
      }
      var t := tickets[tid].(status := EmAtendimento, chamado_por := corpo.usuario_id,
                             chamado_em := Some(agora), guiche_id := corpo.guiche_id);
      tickets := tickets[tid := t];
      if !falhas.log {
        logs := logs + [LogAtendimento(|logs| + 1, corpo.usuario_id.value, tid, corpo.guiche_id, "chamada", agora)];
      }
      r := Resposta(200, TicketJson(t));
    }

    /** `finalizar`: mark the ticket served, then append the log row. */
    method Finalizar(corpo: Corpo, agora: Instante, falhas: Falhas) returns (r: Resposta)
      modifies this
      ensures (r, Estado()) == Finalizacao(old(Estado()), corpo, agora, falhas)
    {
      if !Informado(corpo.ticket_id) || !Informado(corpo.usuario_id) {
        return Resposta(400, Erro("Dados incompletos"));
      }
      var tid := corpo.ticket_id.value;
      if tid !in tickets || falhas.atualizacao {
        return Resposta(500, Erro("Erro ao finalizar ticket"));
      }
      var t := tickets[tid].(status := Atendido, atendimento_finalizado_em := Some(agora));
      tickets := tickets[tid := t];
      if t.guiche_id.None? {
        return Resposta(500, Erro("Erro interno do servidor"));
      }
      if !falhas.log {
        logs := logs + [LogAtendimento(|logs| + 1, corpo.usuario_id.value, tid, t.guiche_id, "finalização", agora)];
      }
      r := Resposta(200, TicketJson(t));
    }
  }

  /** Two issuances for one queue on one day, then one on the next day: the
      counters give 1, 2 and then 1 again. */
  method CenarioNumeracao(fila: Fila) returns (n1: nat, n2: nat, n3: nat)
    requires fila.id != 0
    ensures n1 == 1 && n2 == 2 && n3 == 1
  {
    var s := new ServidorTickets(map[fila.id := fila]);
    var corpo := Corpo(Some(fila.id), None, None, None, None);
    ghost var b0 := s.Estado();
    var r1 := s.Emitir(corpo, 0, SEM_FALHAS);
    EmitirNumera(b0, corpo, 0, SEM_FALHAS);
    ghost var b1 := s.Estado();
    var r2 := s.Emitir(corpo, 1000, SEM_FALHAS);
    EmitirNumera(b1, corpo, 1000, SEM_FALHAS);
    ghost var b2 := s.Estado();
    var r3 := s.Emitir(corpo, MS_POR_DIA, SEM_FALHAS);
    EmitirNumera(b2, corpo, MS_POR_DIA, SEM_FALHAS);
    assert (fila.id, 1) !in b2.controles;
    n1 := r1.corpo.ticket.numero;
    n2 := r2.corpo.ticket.numero;
    n3 := r3.corpo.ticket.numero;
  }
}
