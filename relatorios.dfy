/**
 * The `relatorios` edge function (supabase/functions/relatorios/index.ts):
 * the `atendimentos` route validates the period, and over the tickets the
 * database returns for it counts tickets by status and averages the waiting
 * and service times of the finished ones, in whole minutes.
 *
 * The query itself is not modelled: its result (or its failure) is a
 * parameter. Instants are integer milliseconds.
 */
module Relatorios {
  import opened Tipos
  import opened Colecoes
  import ServicoTickets
  import opened Aritmetica

  const MS_POR_MINUTO: int := 60000

  datatype Estatisticas = Estatisticas(
    total: nat,
    atendidos: nat,
    cancelados: nat,
    aguardando: nat,
    em_atendimento: nat,
    tempo_medio_espera: int,
    tempo_medio_atendimento: int)

  /** The JSON body fields the route reads. */
  datatype Periodo = Periodo(data_inicio: Option<string>, data_fim: Option<string>, local_id: Option<Id>)

  datatype Requisicao = Requisicao(metodo: string, caminho: string, corpo: Option<Periodo>)

  datatype CorpoResposta =
    | Texto(texto: string)
    | Relatorio(tickets: seq<Ticket>, estatisticas: Estatisticas)
    | Erro(mensagem: string)

  datatype Resposta = Resposta(status: int, corpo: CorpoResposta)

  /** JavaScript truthiness of a date string: absent and "" are falsy. */
  predicate Informada(data: Option<string>)
  {
    data.Some? && data.value != ""
  }

  /** `tickets.filter(t => t.status === st).length`. */
  function Contar(ts: seq<Ticket>, st: StatusTicket): nat
  {
    |Filtrar(ts, (t: Ticket) => t.status == st)|
  }

  /** The tickets whose times enter the averages: served, with both the call
      and the finish time recorded. */
  predicate Finalizado(t: Ticket)
  {
    t.status == Atendido && t.chamado_em.Some? && t.atendimento_finalizado_em.Some?
  }

  function Finalizados(ts: seq<Ticket>): (fs: seq<Ticket>)
    ensures TodosFinalizados(fs)
  {
    var fs := Filtrar(ts, Finalizado);
    assert forall i :: 0 <= i < |fs| ==> fs[i] in fs;
    fs
  }

  /** The waiting time of a finished ticket: call minus creation. */
  function Espera(t: Ticket): int
    requires Finalizado(t)
  {
    t.chamado_em.value - t.criado_em
  }

  /** The service time of a finished ticket: finish minus call. */
  function Servico(t: Ticket): int
    requires Finalizado(t)
  {
    t.atendimento_finalizado_em.value - t.chamado_em.value
  }

  predicate TodosFinalizados(fs: seq<Ticket>)
  {
    forall i :: 0 <= i < |fs| ==> Finalizado(fs[i])
  }

  /** The `reduce` of index.ts:87-90. */
  function SomaEspera(fs: seq<Ticket>): int
    requires TodosFinalizados(fs)
  {
    if fs == [] then 0 else SomaEspera(fs[..|fs| - 1]) + Espera(fs[|fs| - 1])
  }

  /** The `reduce` of index.ts:92-95. */
  function SomaAtendimento(fs: seq<Ticket>): int
    requires TodosFinalizados(fs)
  {
    if fs == [] then 0 else SomaAtendimento(fs[..|fs| - 1]) + Servico(fs[|fs| - 1])
  }

  /** `Math.round(total / n / 60000)`: round half up of a quotient, on exact
      integers (floor of the quotient plus one half). */
  function Arredondar(total: int, n: nat): int
    requires n > 0
  {
    (2 * total + n * MS_POR_MINUTO) / (2 * n * MS_POR_MINUTO)
  }

  /** The two averages in minutes over the finished tickets, 0 and 0 when
      there is none (index.ts:80-81, 86-99). */
  function Medias(fs: seq<Ticket>): (int, int)
    requires TodosFinalizados(fs)
  {
    if |fs| > 0 then (Arredondar(SomaEspera(fs), |fs|), Arredondar(SomaAtendimento(fs), |fs|))
    else (0, 0)
  }

  /** The statistics of index.ts:74-99. */
  function Calcular(ts: seq<Ticket>): Estatisticas
  {
    var medias := Medias(Finalizados(ts));
    Estatisticas(|ts|, Contar(ts, Atendido), Contar(ts, Cancelado),
                 Contar(ts, Aguardando), Contar(ts, EmAtendimento), medias.0, medias.1)
  }

  /** The handler (index.ts:9-120): `tickets` is what the period query
      returns, `falhaConsulta` whether it fails. */
  function Atender(req: Requisicao, tickets: seq<Ticket>, falhaConsulta: bool): Resposta
  {
    if req.metodo == "OPTIONS" then Resposta(200, Texto("ok"))
    else if ServicoTickets.Rota(req.caminho) != "atendimentos" then Resposta(404, Erro("Rota não encontrada"))
    else if req.corpo.None? then Resposta(500, Erro("Erro interno do servidor"))
    else if !Informada(req.corpo.value.data_inicio) || !Informada(req.corpo.value.data_fim) then
      Resposta(400, Erro("Período não informado"))
    else if falhaConsulta then Resposta(500, Erro("Erro ao buscar atendimentos"))
    else Resposta(200, Relatorio(tickets, Calcular(tickets)))
  }

  // ---------------------------------------------------------------------------
  // Properties
  // ---------------------------------------------------------------------------

  /** A period bound missing or empty: 400, whatever the query would give. */
  lemma PeriodoObrigatorio(req: Requisicao, tickets: seq<Ticket>, falha: bool)
    requires req.metodo != "OPTIONS" && ServicoTickets.Rota(req.caminho) == "atendimentos"
    requires req.corpo.Some?
    requires !Informada(req.corpo.value.data_inicio) || !Informada(req.corpo.value.data_fim)
    ensures Atender(req, tickets, falha) == Resposta(400, Erro("Período não informado"))
  {
  }

  /** Any other route: 404. */
  lemma RotaDesconhecida(req: Requisicao, tickets: seq<Ticket>, falha: bool)
    requires req.metodo != "OPTIONS" && ServicoTickets.Rota(req.caminho) != "atendimentos"
    ensures Atender(req, tickets, falha) == Resposta(404, Erro("Rota não encontrada"))
  {
  }

  /** A valid period answers with the tickets and their statistics. */
  lemma RelatorioDoPeriodo(req: Requisicao, tickets: seq<Ticket>)
    requires req.metodo != "OPTIONS" && ServicoTickets.Rota(req.caminho) == "atendimentos"
    requires req.corpo.Some?
    requires Informada(req.corpo.value.data_inicio) && Informada(req.corpo.value.data_fim)
    ensures Atender(req, tickets, false) == Resposta(200, Relatorio(tickets, Calcular(tickets)))
    ensures Atender(req, tickets, true) == Resposta(500, Erro("Erro ao buscar atendimentos"))
  {
  }

  /** The statuses of a ticket list, in order. */
  function Situacoes(ts: seq<Ticket>): (r: seq<StatusTicket>)
    ensures |r| == |ts|
  {
    if ts == [] then [] else [ts[0].status] + Situacoes(ts[1..])
  }

  /** Each status count is the multiplicity of that status among the tickets. */
  lemma {:induction false} ContarMultiplicidade(ts: seq<Ticket>, st: StatusTicket)
    ensures Contar(ts, st) == multiset(Situacoes(ts))[st]
  {
    if ts != [] {
      ContarMultiplicidade(ts[1..], st);
      assert Situacoes(ts) == [ts[0].status] + Situacoes(ts[1..]);
    }
  }

  /** `total` is the number of tickets and the four status counts add up to
      it: every ticket has exactly one of the four statuses. */
  lemma {:induction false} StatusSomamTotal(ts: seq<Ticket>)
    ensures var e := Calcular(ts);
      && e.total == |ts|
      && e.atendidos + e.cancelados + e.aguardando + e.em_atendimento == e.total
  {
    ContarMultiplicidade(ts, Atendido);
    ContarMultiplicidade(ts, Cancelado);
    ContarMultiplicidade(ts, Aguardando);
    ContarMultiplicidade(ts, EmAtendimento);
    SituacoesQuatro(Situacoes(ts));
  }

  lemma {:induction false} SituacoesQuatro(ss: seq<StatusTicket>)
    ensures var m := multiset(ss);
      m[Atendido] + m[Cancelado] + m[Aguardando] + m[EmAtendimento] == |ss|
  {
    if ss != [] {
      SituacoesQuatro(ss[1..]);
      var m, m2 := multiset(ss), multiset(ss[1..]);
      assert ss == [ss[0]] + ss[1..];
      assert m == m2 + multiset{ss[0]};
      assert m[Atendido] == m2[Atendido] + (if ss[0] == Atendido then 1 else 0);
      assert m[Cancelado] == m2[Cancelado] + (if ss[0] == Cancelado then 1 else 0);
      assert m[Aguardando] == m2[Aguardando] + (if ss[0] == Aguardando then 1 else 0);
      assert m[EmAtendimento] == m2[EmAtendimento] + (if ss[0] == EmAtendimento then 1 else 0);
    }
  }

  /** With no finished ticket both averages stay 0. */
  lemma MediasSemFinalizados(ts: seq<Ticket>)
    requires forall t :: t in ts ==> !Finalizado(t)
    ensures Calcular(ts).tempo_medio_espera == 0 && Calcular(ts).tempo_medio_atendimento == 0
  {
    FiltrarVazio(ts, Finalizado);
  }

  /** Tickets that are not finished (cancelled, waiting, in service, or
      served without both times) do not move the averages, wherever they sit
      in the list. */
  lemma {:induction false} SoFinalizadosNasMedias(a: seq<Ticket>, t: Ticket, b: seq<Ticket>)
    requires !Finalizado(t)
    ensures Calcular(a + [t] + b).tempo_medio_espera == Calcular(a + b).tempo_medio_espera
    ensures Calcular(a + [t] + b).tempo_medio_atendimento == Calcular(a + b).tempo_medio_atendimento
  {
    FinalizadosSemNaoFinalizado(a, t, b);
  }

  lemma FinalizadosSemNaoFinalizado(a: seq<Ticket>, t: Ticket, b: seq<Ticket>)
    requires !Finalizado(t)
    ensures Finalizados(a + [t] + b) == Finalizados(a + b)
  {
    FiltrarSemRejeitado(a, t, b, Finalizado);
  }

  /** The rounding is half up: the result r is the one integer with
      r − ½ ≤ total / (n·60000) < r + ½. */
  lemma ArredondarMeioParaCima(total: int, n: nat)
    requires n > 0
    ensures var r := Arredondar(total, n);
      && 2 * n * MS_POR_MINUTO * r - n * MS_POR_MINUTO <= 2 * total
      && 2 * total < 2 * n * MS_POR_MINUTO * r + n * MS_POR_MINUTO
  {
    var d := 2 * n * MS_POR_MINUTO;
    var x := 2 * total + n * MS_POR_MINUTO;
    var r := x / d;
    assert d * r <= x < d * r + d;
  }

  /** When every finished ticket waited and was served for whole multiples
      of a minute, the same for all, the averages are exactly those minutes. */
  lemma {:induction false} MediasConstantes(fs: seq<Ticket>, espera: int, atendimento: int)
    requires |fs| > 0
    requires TodosFinalizados(fs)
    requires forall i :: 0 <= i < |fs| ==> Espera(fs[i]) == espera * MS_POR_MINUTO
    requires forall i :: 0 <= i < |fs| ==> Servico(fs[i]) == atendimento * MS_POR_MINUTO
    ensures Arredondar(SomaEspera(fs), |fs|) == espera
    ensures Arredondar(SomaAtendimento(fs), |fs|) == atendimento
  {
    SomasConstantes(fs, espera, atendimento);
    var n := |fs|;
    assert 2 * SomaEspera(fs) + n * MS_POR_MINUTO == espera * (2 * n * MS_POR_MINUTO) + n * MS_POR_MINUTO;
    DivisaoComResto(espera, 2 * n * MS_POR_MINUTO, n * MS_POR_MINUTO);
    assert 2 * SomaAtendimento(fs) + n * MS_POR_MINUTO == atendimento * (2 * n * MS_POR_MINUTO) + n * MS_POR_MINUTO;
    DivisaoComResto(atendimento, 2 * n * MS_POR_MINUTO, n * MS_POR_MINUTO);
  }

  lemma {:induction false} SomasConstantes(fs: seq<Ticket>, espera: int, atendimento: int)
    requires TodosFinalizados(fs)
    requires forall i :: 0 <= i < |fs| ==> Espera(fs[i]) == espera * MS_POR_MINUTO
    requires forall i :: 0 <= i < |fs| ==> Servico(fs[i]) == atendimento * MS_POR_MINUTO
    ensures SomaEspera(fs) == |fs| * espera * MS_POR_MINUTO
    ensures SomaAtendimento(fs) == |fs| * atendimento * MS_POR_MINUTO
  {
    if fs != [] {
      var init := fs[..|fs| - 1];
      SomasConstantes(init, espera, atendimento);
      assert SomaEspera(fs) == (|fs| - 1) * espera * MS_POR_MINUTO + espera * MS_POR_MINUTO;
      assert SomaAtendimento(fs) == (|fs| - 1) * atendimento * MS_POR_MINUTO + atendimento * MS_POR_MINUTO;
    }
  }
}
