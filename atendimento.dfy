/**
 * The agent's attendance screen (src/pages/atendimento/Atendimento.tsx): a
 * waiting list, at most one ticket in service, the history of finished
 * tickets, a pause flag and the day's counters.
 *
 * The handlers are specified as functions from one `Sessao` (the screen's
 * state) to the next, together with the outcome the agent sees (`Ok`, or the
 * alert that refuses the action). The class `TelaAtendimento` holds the same
 * state in fields that its methods replace, each proved to follow the
 * specification. The clock is the parameter `agora`.
 */
module Atendimento {
  import opened Tipos
  import opened Colecoes
  import Formatadores

  /** Why a handler refused: the alert it shows. */
  datatype Motivo = Pausado | AtendimentoEmCurso | FilaVazia | SemTicketAtual

  datatype Resultado = Ok | Rejeitado(motivo: Motivo)

  /** The screen state the handlers replace. */
  datatype Sessao = Sessao(
    filaTickets: seq<Ticket>,
    ticketAtual: Option<Ticket>,
    historicoTickets: seq<Ticket>,
    pausado: bool,
    atendidos: nat,
    cancelados: nat,
    tempoAtendimento: int)

  /** A ticket of the queue named 'Prioritário'. */
  predicate EhPrioritario(t: Ticket)
  {
    t.fila.Some? && t.fila.value.nome == "Prioritário"
  }

  /** The guard shared by both call handlers: a ticket is being served. */
  predicate EmServico(s: Sessao)
  {
    s.ticketAtual.Some? && s.ticketAtual.value.status == EmAtendimento
  }

  /** The ticket `chamarProximo` picks: the first priority ticket, if any,
      otherwise the head of the list. */
  function Proximo(fila: seq<Ticket>): Ticket
    requires |fila| > 0
  {
    var prioritarios := Filtrar(fila, EhPrioritario);
    if |prioritarios| > 0 then prioritarios[0] else fila[0]
  }

  /** The called copy of a ticket: in service, called and started now, by this
      user at this counter. */
  function Chamado(t: Ticket, usuario: Option<Id>, guiche: Option<Id>, agora: Instante): Ticket
  {
    t.(status := EmAtendimento, chamado_por := usuario, chamado_em := Some(agora),
       atendimento_iniciado_em := Some(agora), guiche_id := guiche)
  }

  /** `filaTickets.filter(t => t.id !== id)`. */
  function Remover(fila: seq<Ticket>, id: Id): seq<Ticket>
  {
    Filtrar(fila, (t: Ticket) => t.id != id)
  }

  // ---------------------------------------------------------------------------
  // The handlers (Atendimento.tsx:211-339)
  // ---------------------------------------------------------------------------

  /** Calling a given ticket, once the guards pass. */
  function Chamar(s: Sessao, t: Ticket, usuario: Option<Id>, guiche: Option<Id>, agora: Instante): Sessao
  {
    s.(ticketAtual := Some(Chamado(t, usuario, guiche, agora)), filaTickets := Remover(s.filaTickets, t.id))
  }

  /** `chamarProximo` (Atendimento.tsx:211-247). */
  function ProximaChamada(s: Sessao, usuario: Option<Id>, guiche: Option<Id>, agora: Instante): (Resultado, Sessao)
  {
    if s.pausado then (Rejeitado(Pausado), s)
    else if EmServico(s) then (Rejeitado(AtendimentoEmCurso), s)
    else if |s.filaTickets| == 0 then (Rejeitado(FilaVazia), s)
    else (Ok, Chamar(s, Proximo(s.filaTickets), usuario, guiche, agora))
  }

  /** `chamarTicketEspecifico` (Atendimento.tsx:250-272): the ticket need not
      be in the list. */
  function ChamadaEspecifica(s: Sessao, t: Ticket, usuario: Option<Id>, guiche: Option<Id>, agora: Instante): (Resultado, Sessao)
  {
    if s.pausado then (Rejeitado(Pausado), s)
    else if EmServico(s) then (Rejeitado(AtendimentoEmCurso), s)
    else (Ok, Chamar(s, t, usuario, guiche, agora))
  }

  /** `finalizarAtendimento` (status Atendido) and `cancelarAtendimento`
      (status Cancelado), Atendimento.tsx:275-320. */
  function Encerramento(s: Sessao, final: StatusTicket, agora: Instante): (Resultado, Sessao)
    requires final == Atendido || final == Cancelado
  {
    if s.ticketAtual.None? then (Rejeitado(SemTicketAtual), s)
    else
      var t := s.ticketAtual.value.(status := final, atendimento_finalizado_em := Some(agora));
      (Ok, s.(historicoTickets := [t] + s.historicoTickets, ticketAtual := None, tempoAtendimento := 0,
              atendidos := if final == Atendido then s.atendidos + 1 else s.atendidos,
              cancelados := if final == Cancelado then s.cancelados + 1 else s.cancelados))
  }

  /** `rechamarTicket` (Atendimento.tsx:323-334): only an announcement. */
  function Rechamada(s: Sessao): Resultado
  {
    if s.ticketAtual.None? then Rejeitado(SemTicketAtual) else Ok
  }

  /** `alternarPausa` (Atendimento.tsx:337-339). */
  function Pausa(s: Sessao): Sessao
  {
    s.(pausado := !s.pausado)
  }

  // ---------------------------------------------------------------------------
  // Properties
  // ---------------------------------------------------------------------------

  /** The selection rule: when the list holds a priority ticket, the pick is
      the first one in list order; otherwise it is the head. */
  lemma ProximoSelecao(fila: seq<Ticket>)
    requires |fila| > 0
    ensures Proximo(fila) in fila
    ensures (exists i :: 0 <= i < |fila| && EhPrioritario(fila[i])) ==>
      exists i :: 0 <= i < |fila| && fila[i] == Proximo(fila) && EhPrioritario(fila[i])
                  && forall j :: 0 <= j < i ==> !EhPrioritario(fila[j])
    ensures (forall i :: 0 <= i < |fila| ==> !EhPrioritario(fila[i])) ==> Proximo(fila) == fila[0]
  {
    FiltrarVazio(fila, EhPrioritario);
    if exists i :: 0 <= i < |fila| && EhPrioritario(fila[i]) {
      var i := PrimeiroPrioritario(fila);
      FiltrarPrimeiro(fila, EhPrioritario, i);
    }
  }

  /** The index of the first priority ticket. */
  lemma PrimeiroPrioritario(fila: seq<Ticket>) returns (i: nat)
    requires exists k :: 0 <= k < |fila| && EhPrioritario(fila[k])
    ensures i < |fila| && EhPrioritario(fila[i])
    ensures forall j :: 0 <= j < i ==> !EhPrioritario(fila[j])
  {
    var k :| 0 <= k < |fila| && EhPrioritario(fila[k]);
    i := 0;
    while !EhPrioritario(fila[i])
      invariant i <= k
      invariant forall j :: 0 <= j < i ==> !EhPrioritario(fila[j])
      decreases k - i
    {
      i := i + 1;
    }
  }

  /** The called copy differs from the ticket only in the five call fields. */
  lemma ChamadoCopia(t: Ticket, usuario: Option<Id>, guiche: Option<Id>, agora: Instante)
    ensures var c := Chamado(t, usuario, guiche, agora);
      && c.status == EmAtendimento && c.chamado_por == usuario && c.guiche_id == guiche
      && c.chamado_em == Some(agora) && c.atendimento_iniciado_em == Some(agora)
      && c.(status := t.status, chamado_por := t.chamado_por, chamado_em := t.chamado_em,
            atendimento_iniciado_em := t.atendimento_iniciado_em, guiche_id := t.guiche_id) == t
  {
  }

  /** Removing an id drops every ticket with that id, keeps every other one as
      many times as before, and keeps their relative order. */
  lemma RemoverExato(fila: seq<Ticket>, id: Id, x: Ticket)
    ensures multiset(Remover(fila, id))[x] == if x.id == id then 0 else multiset(fila)[x]
    ensures forall a, b :: Remover(a + b, id) == Remover(a, id) + Remover(b, id)
  {
    FiltrarMultiset(fila, (t: Ticket) => t.id != id, x);
    forall a, b ensures Remover(a + b, id) == Remover(a, id) + Remover(b, id) {
      FiltrarConcat(a, b, (t: Ticket) => t.id != id);
    }
  }

  /** While paused, both call handlers refuse and change nothing. */
  lemma PausadoRecusaChamadas(s: Sessao, t: Ticket, usuario: Option<Id>, guiche: Option<Id>, agora: Instante)
    requires s.pausado
    ensures ProximaChamada(s, usuario, guiche, agora) == (Rejeitado(Pausado), s)
    ensures ChamadaEspecifica(s, t, usuario, guiche, agora) == (Rejeitado(Pausado), s)
  {
  }

  /** While a ticket is in service, both call handlers refuse and change
      nothing, so a second ticket is never taken into service. */
  lemma EmServicoRecusaChamadas(s: Sessao, t: Ticket, usuario: Option<Id>, guiche: Option<Id>, agora: Instante)
    requires !s.pausado && EmServico(s)
    ensures ProximaChamada(s, usuario, guiche, agora) == (Rejeitado(AtendimentoEmCurso), s)
    ensures ChamadaEspecifica(s, t, usuario, guiche, agora) == (Rejeitado(AtendimentoEmCurso), s)
  {
  }

  /** An empty list refuses `chamarProximo` and changes nothing. */
  lemma FilaVaziaRecusa(s: Sessao, usuario: Option<Id>, guiche: Option<Id>, agora: Instante)
    requires !s.pausado && !EmServico(s) && s.filaTickets == []
    ensures ProximaChamada(s, usuario, guiche, agora) == (Rejeitado(FilaVazia), s)
  {
  }

  /** A successful `chamarProximo` puts the selected ticket into service and
      takes its id out of the list; history, counters, pause and timer are
      kept. */
  lemma ProximaChamadaEfeito(s: Sessao, usuario: Option<Id>, guiche: Option<Id>, agora: Instante)
    requires !s.pausado && !EmServico(s) && |s.filaTickets| > 0
    ensures var (r, s') := ProximaChamada(s, usuario, guiche, agora);
      var p := Proximo(s.filaTickets);
      && r == Ok
      && p in s.filaTickets
      && s'.ticketAtual == Some(Chamado(p, usuario, guiche, agora))
      && s'.filaTickets == Remover(s.filaTickets, p.id)
      && (forall t :: t in s'.filaTickets <==> t in s.filaTickets && t.id != p.id)
      && |s'.filaTickets| < |s.filaTickets|
      && s'.historicoTickets == s.historicoTickets && s'.pausado == s.pausado
      && s'.atendidos == s.atendidos && s'.cancelados == s.cancelados
      && s'.tempoAtendimento == s.tempoAtendimento
  {
    var p := Proximo(s.filaTickets);
    ProximoSelecao(s.filaTickets);
    RemoverEncurta(s.filaTickets, p);
  }

  /** A successful `chamarTicketEspecifico` puts the given ticket, called,
      into service and takes its id out of the list (which gets shorter when
      the ticket was listed); history, counters, pause and timer are kept. */
  lemma ChamadaEspecificaEfeito(s: Sessao, t: Ticket, usuario: Option<Id>, guiche: Option<Id>, agora: Instante)
    requires !s.pausado && !EmServico(s)
    ensures var (r, s') := ChamadaEspecifica(s, t, usuario, guiche, agora);
      && r == Ok
      && s'.ticketAtual == Some(Chamado(t, usuario, guiche, agora))
      && s'.filaTickets == Remover(s.filaTickets, t.id)
      && (forall x :: x in s'.filaTickets <==> x in s.filaTickets && x.id != t.id)
      && (t in s.filaTickets ==> |s'.filaTickets| < |s.filaTickets|)
      && s'.historicoTickets == s.historicoTickets && s'.pausado == s.pausado
      && s'.atendidos == s.atendidos && s'.cancelados == s.cancelados
      && s'.tempoAtendimento == s.tempoAtendimento
  {
    if t in s.filaTickets {
      RemoverEncurta(s.filaTickets, t);
    }
  }

  /** Removing the id of a listed ticket shortens the list. */
  lemma {:induction false} RemoverEncurta(fila: seq<Ticket>, x: Ticket)
    requires x in fila
    ensures |Remover(fila, x.id)| < |fila|
  {
    if fila[0] != x {
      RemoverEncurta(fila[1..], x);
    }
  }

  /** Finishing or cancelling without a current ticket refuses and changes
      nothing; otherwise the ticket, with its final status and finish time,
      goes to the head of the history, the current ticket and timer are
      cleared, and exactly one of the two counters goes up by one. */
  lemma EncerramentoEfeito(s: Sessao, final: StatusTicket, agora: Instante)
    requires final == Atendido || final == Cancelado
    ensures var (r, s') := Encerramento(s, final, agora);
      && (s.ticketAtual.None? ==> r == Rejeitado(SemTicketAtual) && s' == s)
      && (s.ticketAtual.Some? ==>
            && r == Ok
            && s'.historicoTickets[0].status == final
            && s'.historicoTickets == [s.ticketAtual.value.(status := final, atendimento_finalizado_em := Some(agora))]
                                      + s.historicoTickets
            && s'.ticketAtual.None? && s'.tempoAtendimento == 0
            && s'.atendidos + s'.cancelados == s.atendidos + s.cancelados + 1
            && (final == Atendido ==> s'.atendidos == s.atendidos + 1 && s'.cancelados == s.cancelados)
            && (final == Cancelado ==> s'.cancelados == s.cancelados + 1 && s'.atendidos == s.atendidos)
            && s'.filaTickets == s.filaTickets && s'.pausado == s.pausado)
  {
  }

  /** Toggling the pause changes only the flag, and twice restores it. */
  lemma PausaSoAlternaFlag(s: Sessao)
    ensures Pausa(s).pausado != s.pausado
    ensures Pausa(s).(pausado := s.pausado) == s
    ensures Pausa(Pausa(s)) == s
  {
  }

  /** The screen's invariant: the current ticket, if any, is in service and its
      id is no longer in the waiting list; the history holds only finished or
      cancelled tickets. */
  predicate Valida(s: Sessao)
  {
    && (s.ticketAtual.Some? ==> s.ticketAtual.value.status == EmAtendimento)
    && (s.ticketAtual.Some? ==> forall t :: t in s.filaTickets ==> t.id != s.ticketAtual.value.id)
    && (forall t :: t in s.historicoTickets ==> t.status == Atendido || t.status == Cancelado)
  }

  /** Every handler keeps the invariant. */
  lemma HandlersPreservamValida(s: Sessao, t: Ticket, final: StatusTicket,
                                usuario: Option<Id>, guiche: Option<Id>, agora: Instante)
    requires Valida(s)
    requires final == Atendido || final == Cancelado
    ensures Valida(ProximaChamada(s, usuario, guiche, agora).1)
    ensures Valida(ChamadaEspecifica(s, t, usuario, guiche, agora).1)
    ensures Valida(Encerramento(s, final, agora).1)
    ensures Valida(Pausa(s))
  {
    var e := Encerramento(s, final, agora).1;
    if s.ticketAtual.Some? {
      forall x | x in e.historicoTickets
        ensures x.status == Atendido || x.status == Cancelado
      {
        if x != e.historicoTickets[0] {
          assert x in s.historicoTickets;
        }
      }
    }
  }

  /** Under the invariant the in-service guard is just "there is a current
      ticket": once it is finished or cancelled, calling is possible again
      (unless paused or the list is empty). */
  lemma EncerrarLiberaChamada(s: Sessao, final: StatusTicket, usuario: Option<Id>, guiche: Option<Id>, agora: Instante)
    requires Valida(s) && s.ticketAtual.Some? && !s.pausado && |s.filaTickets| > 0
    requires final == Atendido || final == Cancelado
    ensures EmServico(s)
    ensures ProximaChamada(Encerramento(s, final, agora).1, usuario, guiche, agora).0 == Ok
  {
  }

  // ---------------------------------------------------------------------------
  // The list filter and the timer text
  // ---------------------------------------------------------------------------

  /** `id.toString()` for an integer id. */
  function TextoId(id: Id): string
  {
    if id < 0 then "-" + Formatadores.Decimal(-id) else Formatadores.Decimal(id)
  }

  /** `ticketsParaExibir` (Atendimento.tsx:206-208): every ticket for the
      filter 'todos', otherwise those whose queue id prints as the filter. */
  function TicketsParaExibir(fila: seq<Ticket>, filtro: string): seq<Ticket>
  {
    if filtro == "todos" then fila
    else Filtrar(fila, (t: Ticket) => t.fila.Some? && TextoId(t.fila.value.id) == filtro)
  }

  /** Different ids print differently. */
  lemma TextoIdInjetivo(a: Id, b: Id)
    requires TextoId(a) == TextoId(b)
    ensures a == b
  {
    var da := Formatadores.Decimal(if a < 0 then -a else a);
    var db := Formatadores.Decimal(if b < 0 then -b else b);
    assert Formatadores.EhDigito(da[0]) && Formatadores.EhDigito(db[0]);
    if a < 0 && b < 0 {
      assert da == TextoId(a)[1..] == TextoId(b)[1..] == db;
    }
  }

  /** Filtering by a queue id's text keeps exactly the tickets of that queue,
      in list order. */
  lemma TicketsDaFila(fila: seq<Ticket>, id: Id)
    requires TextoId(id) != "todos"
    ensures forall t :: t in TicketsParaExibir(fila, TextoId(id)) <==>
      t in fila && t.fila.Some? && t.fila.value.id == id
  {
    forall t | t in fila && t.fila.Some? && TextoId(t.fila.value.id) == TextoId(id)
      ensures t.fila.value.id == id
    {
      TextoIdInjetivo(t.fila.value.id, id);
    }
  }

  /** The local `formatarTempo`: seconds as MM:SS. */
  function FormatarMinSeg(segundos: nat): string
  {
    Formatadores.Juntar([Formatadores.DoisDigitos(segundos / 60), Formatadores.DoisDigitos(segundos % 60)], ':')
  }

  /** The MM:SS text splits into two fields of at least two digits, the second
      below 60, worth m*60 + x == segundos; minutes are not capped at 60. */
  lemma FormatarMinSegDecompoe(segundos: nat)
    ensures var partes := Formatadores.Dividir(FormatarMinSeg(segundos), ':');
      && |partes| == 2
      && Formatadores.CampoDeRelogio(partes[0]) && Formatadores.CampoDeRelogio(partes[1])
      && Formatadores.ValorDecimal(partes[1]) < 60
      && Formatadores.ValorDecimal(partes[0]) * 60 + Formatadores.ValorDecimal(partes[1]) == segundos
  {
    var m, x := segundos / 60, segundos % 60;
    Formatadores.DoisDigitosCampo(m);
    Formatadores.DoisDigitosCampo(x);
    Formatadores.DividirJuntar([Formatadores.DoisDigitos(m), Formatadores.DoisDigitos(x)], ':');
  }

  // ---------------------------------------------------------------------------
  // The screen
  // ---------------------------------------------------------------------------

  class TelaAtendimento {
    /** The logged-in user's id and the counter's id (`usuario?.id`,
        `guicheAtual?.id`). */
    const usuario: Option<Id>
    const guiche: Option<Id>

    var filaTickets: seq<Ticket>
    var ticketAtual: Option<Ticket>
    var historicoTickets: seq<Ticket>
    var pausado: bool
    var atendidos: nat
    var cancelados: nat
    var tempoAtendimento: int

    function Estado(): Sessao
      reads this
    {
      Sessao(filaTickets, ticketAtual, historicoTickets, pausado, atendidos, cancelados, tempoAtendimento)
    }

    /** The screen as loaded: the given waiting list, history and day
        counters, nothing in service, not paused, the timer at 0. The screen
        is valid whenever the loaded history holds only finished tickets, as
        the loaded one does. */
    constructor (usuario: Option<Id>, guiche: Option<Id>, fila: seq<Ticket>,
                 historico: seq<Ticket>, atendidos: nat, cancelados: nat)
      ensures this.usuario == usuario && this.guiche == guiche
      ensures Estado() == Sessao(fila, None, historico, false, atendidos, cancelados, 0)
      ensures (forall t :: t in historico ==> t.status == Atendido || t.status == Cancelado)
              ==> Valida(Estado())
    {
      this.usuario := usuario;
      this.guiche := guiche;
      filaTickets := fila;
      ticketAtual := None;
      historicoTickets := historico;
      pausado := false;
      this.atendidos := atendidos;
      this.cancelados := cancelados;
      tempoAtendimento := 0;
    }

    method ChamarProximo(agora: Instante) returns (r: Resultado)
      modifies this
      ensures (r, Estado()) == ProximaChamada(old(Estado()), usuario, guiche, agora)
    {
      if pausado {
        return Rejeitado(Pausado);
      }
      if ticketAtual.Some? && ticketAtual.value.status == EmAtendimento {
        return Rejeitado(AtendimentoEmCurso);
      }
      if |filaTickets| > 0 {
        var prioritarios := Filtrar(filaTickets, EhPrioritario);
        var proximo := if |prioritarios| > 0 then prioritarios[0] else filaTickets[0];
        ticketAtual := Some(Chamado(proximo, usuario, guiche, agora));
        filaTickets := Remover(filaTickets, proximo.id);
        r := Ok;
      } else {
        r := Rejeitado(FilaVazia);
      }
    }

    method ChamarTicketEspecifico(t: Ticket, agora: Instante) returns (r: Resultado)
      modifies this
      ensures (r, Estado()) == ChamadaEspecifica(old(Estado()), t, usuario, guiche, agora)
    {
      if pausado {
        return Rejeitado(Pausado);
      }
      if ticketAtual.Some? && ticketAtual.value.status == EmAtendimento {
        return Rejeitado(AtendimentoEmCurso);
      }
      ticketAtual := Some(Chamado(t, usuario, guiche, agora));
      filaTickets := Remover(filaTickets, t.id);
      r := Ok;
    }

    method FinalizarAtendimento(agora: Instante) returns (r: Resultado)
      modifies this
      ensures (r, Estado()) == Encerramento(old(Estado()), Atendido, agora)
    {
      if ticketAtual.None? {
        return Rejeitado(SemTicketAtual);
      }
      var finalizado := ticketAtual.value.(status := Atendido, atendimento_finalizado_em := Some(agora));
      historicoTickets := [finalizado] + historicoTickets;
      ticketAtual := None;
      tempoAtendimento := 0;
      atendidos := atendidos + 1;
      r := Ok;
    }

    method CancelarAtendimento(agora: Instante) returns (r: Resultado)
      modifies this
      ensures (r, Estado()) == Encerramento(old(Estado()), Cancelado, agora)
    {
      if ticketAtual.None? {
        return Rejeitado(SemTicketAtual);
      }
      var cancelado := ticketAtual.value.(status := Cancelado, atendimento_finalizado_em := Some(agora));
      historicoTickets := [cancelado] + historicoTickets;
      ticketAtual := None;
      tempoAtendimento := 0;
      cancelados := cancelados + 1;
      r := Ok;
    }

    /** Announces the current ticket again; the state is left as it is. */
    method RechamarTicket() returns (r: Resultado)
      ensures r == Rechamada(Estado())
      ensures r == Ok <==> ticketAtual.Some?
    {
      if ticketAtual.None? {
        return Rejeitado(SemTicketAtual);
      }
      r := Ok;
    }

    method AlternarPausa()
      modifies this
      ensures Estado() == Pausa(old(Estado()))
    {
      pausado := !pausado;
    }
  }

  /** Calling while a ticket is in service is refused; after finishing it the
      next call goes through and serves the priority ticket first. */
  method CenarioAtendimento(comum: Ticket, prioritario: Ticket, agora: Instante)
    returns (r1: Resultado, r2: Resultado, r3: Resultado, r4: Resultado, servido: Option<Ticket>)
    requires EhPrioritario(prioritario) && !EhPrioritario(comum)
    requires comum.id != prioritario.id
    ensures r1 == Ok && r2 == Rejeitado(AtendimentoEmCurso) && r3 == Ok && r4 == Ok
    ensures servido.Some? && servido.value.id == comum.id && servido.value.status == EmAtendimento
  {
    var tela := new TelaAtendimento(Some(7), Some(1), [comum, prioritario], [], 0, 0);
    assert Filtrar(tela.filaTickets, EhPrioritario) == [prioritario];
    r1 := tela.ChamarProximo(agora);
    assert tela.ticketAtual == Some(Chamado(prioritario, Some(7), Some(1), agora));
    assert [comum, prioritario][1..] == [prioritario];
    assert Remover([prioritario], prioritario.id) == [];
    assert tela.filaTickets == [comum];
    r2 := tela.ChamarProximo(agora + 1);
    r3 := tela.FinalizarAtendimento(agora + 2);
    assert Filtrar(tela.filaTickets, EhPrioritario) == [];
    r4 := tela.ChamarProximo(agora + 3);
    servido := tela.ticketAtual;
  }
}
