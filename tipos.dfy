/**
 * Records and enums of the queue system (src/types/index.ts).
 *
 * Instants are integer milliseconds since the epoch (what `Date.getTime()`
 * gives); ids are integers as in the TypeScript interfaces.
 */
module Tipos {

  datatype Option<+T> = None | Some(value: T)

  type Id = int
  type Instante = int

  /** StatusTicket: the lifecycle of a ticket. */
  datatype StatusTicket = Aguardando | EmAtendimento | Atendido | Cancelado
  {
    /** The string value the enum carries in the database and the UI. */
    function Valor(): string {
      match this
      case Aguardando => "aguardando"
      case EmAtendimento => "em_atendimento"
      case Atendido => "atendido"
      case Cancelado => "cancelado"
    }
  }

  /** ResetTicket: the numbering-reset policy a queue is configured with. */
  datatype ResetTicket = Nunca | Diario | Semanal | Mensal | Anual | Manual

  /** Fila: a queue, with the fields the core reads. */
  datatype Fila = Fila(
    id: Id,
    nome: string,
    prefixo: string,
    tamanho_ticket: int,
    reset_ticket: ResetTicket)

  /** ControleTicket: one numbering counter per (queue, reference date). */
  datatype ControleTicket = ControleTicket(
    id: Id,
    fila_id: Id,
    referencia: int,
    ultimo_numero: nat,
    criado_em: Instante)

  /** Ticket: a customer's place in a queue; `fila` is the embedded queue row. */
  datatype Ticket = Ticket(
    id: Id,
    numero: nat,
    fila_id: Id,
    fila: Option<Fila>,
    status: StatusTicket,
    observacao: Option<string>,
    chamado_por: Option<Id>,
    chamado_em: Option<Instante>,
    atendimento_iniciado_em: Option<Instante>,
    atendimento_finalizado_em: Option<Instante>,
    guiche_id: Option<Id>,
    criado_em: Instante,
    ticket_completo: Option<string>)

  /** LogAtendimento: one append-only audit row. */
  datatype LogAtendimento = LogAtendimento(
    id: Id,
    usuario_id: Id,
    ticket_id: Id,
    guiche_id: Option<Id>,
    acao: string,
    timestamp: Instante)
}

/** `Array.prototype.filter`, the one list operation the core is built from. */
module Colecoes {

  function Filtrar<T(!new)>(s: seq<T>, p: T -> bool): (r: seq<T>)
    ensures |r| <= |s|
    ensures forall x :: x in r <==> x in s && p(x)
  {
    if s == [] then [] else (if p(s[0]) then [s[0]] else []) + Filtrar(s[1..], p)
  }

  /** Filtering distributes over concatenation, so it keeps the relative order. */
  lemma {:induction false} FiltrarConcat<T(!new)>(a: seq<T>, b: seq<T>, p: T -> bool)
    ensures Filtrar(a + b, p) == Filtrar(a, p) + Filtrar(b, p)
  {
    if a == [] {
      assert a + b == b;
    } else {
      assert (a + b)[1..] == a[1..] + b;
      FiltrarConcat(a[1..], b, p);
    }
  }

  /** Filtering keeps exactly as many copies of each kept element. */
  lemma {:induction false} FiltrarMultiset<T(!new)>(s: seq<T>, p: T -> bool, x: T)
    ensures multiset(Filtrar(s, p))[x] == if p(x) then multiset(s)[x] else 0
  {
    if s != [] {
      FiltrarMultiset(s[1..], p, x);
      assert s == [s[0]] + s[1..];
    }
  }

  /** The head of a filter is the first element that passes it. */
  lemma {:induction false} FiltrarPrimeiro<T(!new)>(s: seq<T>, p: T -> bool, i: nat)
    requires i < |s| && p(s[i])
    requires forall j :: 0 <= j < i ==> !p(s[j])
    ensures |Filtrar(s, p)| > 0 && Filtrar(s, p)[0] == s[i]
  {
    if i > 0 {
      FiltrarPrimeiro(s[1..], p, i - 1);
    }
  }

  /** Nothing passes the filter exactly when its result is empty. */
  lemma FiltrarVazio<T(!new)>(s: seq<T>, p: T -> bool)
    ensures |Filtrar(s, p)| == 0 <==> forall j :: 0 <= j < |s| ==> !p(s[j])
  {
    if |Filtrar(s, p)| > 0 {
      assert Filtrar(s, p)[0] in Filtrar(s, p);
    }
    if exists j :: 0 <= j < |s| && p(s[j]) {
      var j :| 0 <= j < |s| && p(s[j]);
      assert s[j] in Filtrar(s, p);
    }
  }

  /** An element the filter rejects can be dropped before filtering. */
  lemma FiltrarSemRejeitado<T(!new)>(a: seq<T>, x: T, b: seq<T>, p: T -> bool)
    requires !p(x)
    ensures Filtrar(a + [x] + b, p) == Filtrar(a + b, p)
  {
    FiltrarConcat(a + [x], b, p);
    FiltrarConcat(a, [x], p);
    FiltrarConcat(a, b, p);
    FiltrarRejeitado(x, p);
    assert Filtrar(a + [x], p) == Filtrar(a, p);
  }

  lemma FiltrarRejeitado<T(!new)>(x: T, p: T -> bool)
    requires !p(x)
    ensures Filtrar([x], p) == []
  {
    assert [x][1..] == [];
  }
}

/** Integer division facts the models share. */
module Aritmetica {

  /** Euclidean division recovers quotient and remainder. */
  lemma DivisaoComResto(q: int, d: int, r: int)
    requires 0 <= r < d
    ensures (q * d + r) / d == q
    ensures (q * d + r) % d == r
  {
    var k, m := (q * d + r) / d, (q * d + r) % d;
    assert k * d + m == q * d + r;
    var e := k - q;
    assert e * d == r - m by {
      assert k * d == q * d + e * d;
    }
  }
}
