/**
 * The public call board (src/pages/publico/PainelChamada.tsx): the rotating
 * advertisement, the list of recent calls and the last ticket called.
 *
 * The timer ticks become method calls: `AvancarPublicidade` is one tick of
 * the rotation timer, `NovaChamada` one call arriving. The ticket a call
 * brings is a parameter (the screen makes it up at random).
 */
module Painel {
  import opened Tipos
  import opened Aritmetica

  /** How many previous calls a new call keeps (`prev.slice(0, 9)`). */
  const ANTERIORES_MANTIDOS: nat := 9
  /** How many rows the board renders (`ticketsChamados.slice(0, 12)`). */
  const LINHAS_NO_PAINEL: nat := 12

  datatype Publicidade = Publicidade(id: Id, titulo: string, duracao: nat)

  /** One rendered row: the ticket and whether it is highlighted. */
  datatype Linha = Linha(ticket: Ticket, destaque: bool)

  /** `s.slice(0, n)`. */
  function Primeiros<T>(s: seq<T>, n: nat): (r: seq<T>)
    ensures |r| == if |s| <= n then |s| else n
    ensures r == s[..|r|]
  {
    if |s| <= n then s else s[..n]
  }

  /** One rotation step: `(prev + 1) % publicidades.length`. */
  function ProximaPublicidade(atual: nat, n: nat): nat
    requires n > 0
  {
    (atual + 1) % n
  }

  /** `[novo, ...prev.slice(0, 9)]`. */
  function Empilhar(anteriores: seq<Ticket>, novo: Ticket): seq<Ticket>
  {
    [novo] + Primeiros(anteriores, ANTERIORES_MANTIDOS)
  }

  /** The rendered rows: at most twelve, the first one highlighted. */
  function LinhasExibidas(chamados: seq<Ticket>): seq<Linha>
  {
    var visiveis := Primeiros(chamados, LINHAS_NO_PAINEL);
    seq(|visiveis|, i requires 0 <= i < |visiveis| => Linha(visiveis[i], i == 0))
  }

  // ---------------------------------------------------------------------------
  // Properties
  // ---------------------------------------------------------------------------

  /** The rotation index stays in range and moves to the next advertisement,
      wrapping from the last to the first. */
  lemma ProximaPublicidadeNoIntervalo(atual: nat, n: nat)
    requires n > 0 && atual < n
    ensures ProximaPublicidade(atual, n) < n
    ensures ProximaPublicidade(atual, n) == if atual == n - 1 then 0 else atual + 1
  {
  }

  /** `k` rotation steps. */
  function Girar(atual: nat, n: nat, k: nat): nat
    requires n > 0
  {
    if k == 0 then atual else ProximaPublicidade(Girar(atual, n, k - 1), n)
  }

  /** k steps from index i land on (i + k) mod n. */
  lemma {:induction false} GirarSoma(atual: nat, n: nat, k: nat)
    requires n > 0 && atual < n
    ensures Girar(atual, n, k) == (atual + k) % n
  {
    if k > 0 {
      GirarSoma(atual, n, k - 1);
      GirarPasso(atual, n, k);
    }
  }

  lemma GirarPasso(atual: nat, n: nat, k: nat)
    requires n > 0 && k > 0
    requires Girar(atual, n, k - 1) == (atual + k - 1) % n
    ensures Girar(atual, n, k) == (atual + k) % n
  {
    var x := atual + k - 1;
    assert Girar(atual, n, k) == (x % n + 1) % n;
    SomaUmModulo(x, n);
  }

  lemma SomaUmModulo(x: nat, n: nat)
    requires n > 0
    ensures (x % n + 1) % n == (x + 1) % n
  {
    var q, m := x / n, x % n;
    assert x + 1 == q * n + (m + 1);
    if m + 1 == n {
      assert x + 1 == (q + 1) * n + 0;
      DivisaoComResto(q + 1, n, 0);
      DivisaoComResto(1, n, 0);
    } else {
      DivisaoComResto(q, n, m + 1);
      DivisaoComResto(0, n, m + 1);
    }
  }

  /** The indices shown during the first n steps from `atual`. */
  function Exibidas(atual: nat, n: nat): set<nat>
    requires n > 0
  {
    set k | 0 <= k < n :: Girar(atual, n, k)
  }

  /** After one full round of n steps every advertisement has been shown and
      the rotation is back where it started. */
  lemma VoltaCompleta(atual: nat, n: nat)
    requires n > 0 && atual < n
    ensures Girar(atual, n, n) == atual
    ensures forall j :: 0 <= j < n ==> j in Exibidas(atual, n)
    ensures forall j :: j in Exibidas(atual, n) ==> 0 <= j < n
  {
    GirarSoma(atual, n, n);
    DivisaoComResto(1, n, atual);
    forall k | 0 <= k < n
      ensures Girar(atual, n, k) < n
    {
      GirarSoma(atual, n, k);
    }
    forall j | 0 <= j < n
      ensures j in Exibidas(atual, n)
    {
      var k := if j >= atual then j - atual else j + n - atual;
      GirarSoma(atual, n, k);
      if j >= atual {
        DivisaoComResto(0, n, j);
      } else {
        DivisaoComResto(1, n, j);
      }
    }
  }

  /** A new call heads the list, which keeps at most ten entries and the
      previous calls in their order, dropping only from the tail. */
  lemma EmpilharLimitado(anteriores: seq<Ticket>, novo: Ticket)
    ensures var r := Empilhar(anteriores, novo);
      && |r| <= ANTERIORES_MANTIDOS + 1
      && r[0] == novo
      && r[1..] == anteriores[..|r| - 1]
      && (|anteriores| <= ANTERIORES_MANTIDOS ==> r[1..] == anteriores)
  {
  }

  /** `k` calls in order. */
  function EmpilharTodos(anteriores: seq<Ticket>, novos: seq<Ticket>): seq<Ticket>
  {
    if novos == [] then anteriores
    else Empilhar(EmpilharTodos(anteriores, novos[..|novos| - 1]), novos[|novos| - 1])
  }

  /** Newest first. */
  function Invertida(s: seq<Ticket>): (r: seq<Ticket>)
    ensures |r| == |s|
  {
    if s == [] then [] else [s[|s| - 1]] + Invertida(s[..|s| - 1])
  }

  /** After one or more calls the list is the ten most recent tickets
      (the calls newest first, then the earlier list) — whatever its length
      was before. */
  lemma {:induction false} EmpilharTodosRecentes(anteriores: seq<Ticket>, novos: seq<Ticket>)
    requires |novos| >= 1
    ensures EmpilharTodos(anteriores, novos)
         == Primeiros(Invertida(novos) + anteriores, ANTERIORES_MANTIDOS + 1)
  {
    var init, ultimo := novos[..|novos| - 1], novos[|novos| - 1];
    var inv := Invertida(novos);
    assert inv == [ultimo] + Invertida(init);
    if |init| == 0 {
      assert EmpilharTodos(anteriores, init) == anteriores;
      assert inv + anteriores == [ultimo] + anteriores;
      PrimeirosCabeca(ultimo, anteriores, ANTERIORES_MANTIDOS);
    } else {
      EmpilharTodosRecentes(anteriores, init);
      var l := Invertida(init) + anteriores;
      assert EmpilharTodos(anteriores, init) == Primeiros(l, ANTERIORES_MANTIDOS + 1);
      assert Primeiros(Primeiros(l, ANTERIORES_MANTIDOS + 1), ANTERIORES_MANTIDOS)
          == Primeiros(l, ANTERIORES_MANTIDOS);
      assert inv + anteriores == [ultimo] + l;
      PrimeirosCabeca(ultimo, l, ANTERIORES_MANTIDOS);
    }
  }

  lemma PrimeirosCabeca(x: Ticket, s: seq<Ticket>, n: nat)
    ensures [x] + Primeiros(s, n) == Primeiros([x] + s, n + 1)
  {
  }

  /** The board renders at most twelve rows, in list order, and highlights
      exactly the first, the most recent call. */
  lemma LinhasDoPainel(chamados: seq<Ticket>)
    ensures var linhas := LinhasExibidas(chamados);
      && |linhas| <= LINHAS_NO_PAINEL
      && |linhas| == (if |chamados| < LINHAS_NO_PAINEL then |chamados| else LINHAS_NO_PAINEL)
      && (forall i :: 0 <= i < |linhas| ==> linhas[i].ticket == chamados[i])
      && (forall i :: 0 <= i < |linhas| ==> (linhas[i].destaque <==> i == 0))
  {
  }

  // ---------------------------------------------------------------------------
  // The screen
  // ---------------------------------------------------------------------------

  class PainelChamada {
    var publicidades: seq<Publicidade>
    var publicidadeAtual: nat
    var ticketsChamados: seq<Ticket>
    var ultimoTicket: Option<Ticket>

    /** The index points at an advertisement whenever there is one. */
    predicate Valido()
      reads this
    {
      |publicidades| == 0 || publicidadeAtual < |publicidades|
    }

    /** The advertisement on screen, if the list is not empty. */
    function PublicidadeExibida(): Option<Publicidade>
      reads this
      requires Valido()
    {
      if |publicidades| > 0 then Some(publicidades[publicidadeAtual]) else None
    }

    /** The board before loading: nothing to show. */
    constructor ()
      ensures Valido()
      ensures publicidades == [] && publicidadeAtual == 0
      ensures ticketsChamados == [] && ultimoTicket.None?
    {
      publicidades := [];
      publicidadeAtual := 0;
      ticketsChamados := [];
      ultimoTicket := None;
    }

    /** The initial load: the advertisements and the calls so far, the first
        of which becomes the last ticket (`tickets[0]`, undefined when there is
        none). The rotation index is not reset. */
    method Carregar(pubs: seq<Publicidade>, chamados: seq<Ticket>)
      modifies this
      ensures publicidades == pubs && ticketsChamados == chamados
      ensures publicidadeAtual == old(publicidadeAtual)
      ensures ultimoTicket == if |chamados| > 0 then Some(chamados[0]) else None
      ensures old(publicidadeAtual) == 0 ==> Valido()
    {
      publicidades := pubs;
      ticketsChamados := chamados;
      ultimoTicket := if |chamados| > 0 then Some(chamados[0]) else None;
    }

    /** One tick of the rotation timer, which only runs when there is an
        advertisement; the answer says whether the tick happened. */
    method AvancarPublicidade() returns (girou: bool)
      modifies this`publicidadeAtual
      ensures Valido()
      ensures girou == (|publicidades| > 0)
      ensures girou ==> publicidadeAtual == ProximaPublicidade(old(publicidadeAtual), |publicidades|)
      ensures !girou ==> publicidadeAtual == old(publicidadeAtual)
    {
      girou := |publicidades| > 0;
      if girou {
        publicidadeAtual := (publicidadeAtual + 1) % |publicidades|;
      }
    }

    /** A call arriving: it becomes the last ticket and heads the list. */
    method NovaChamada(novo: Ticket)
      modifies this`ticketsChamados, this`ultimoTicket
      ensures ultimoTicket == Some(novo)
      ensures ticketsChamados == Empilhar(old(ticketsChamados), novo)
    {
      ultimoTicket := Some(novo);
      ticketsChamados := [novo] + Primeiros(ticketsChamados, ANTERIORES_MANTIDOS);
    }
  }

  /** Three advertisements shown in turn: after three ticks the board is
      back on the first. */
  method CenarioRotacao(a: Publicidade, b: Publicidade, c: Publicidade) returns (vistas: seq<Publicidade>)
    ensures vistas == [a, b, c, a]
  {
    var painel := new PainelChamada();
    painel.Carregar([a, b, c], []);
    vistas := [painel.PublicidadeExibida().value];
    var i := 0;
    while i < 3
      invariant 0 <= i <= 3
      invariant painel.Valido() && painel.publicidades == [a, b, c]
      invariant painel.publicidadeAtual == (i % 3)
      invariant vistas == [a, b, c, a][..i + 1]
    {
      var _ := painel.AvancarPublicidade();
      vistas := vistas + [painel.PublicidadeExibida().value];
      i := i + 1;
    }
  }
}
