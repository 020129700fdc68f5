/**
 * String and arithmetic helpers of src/utils/formatadores.ts: ticket codes,
 * clock and duration texts, word capitalisation and enum labels.
 *
 * The JavaScript building blocks they use are modelled once here:
 * `Number.toString()` (Decimal), `padStart` (Preencher), `split` (Dividir),
 * `join` (Juntar) and ASCII `toUpperCase`/`toLowerCase` (Maiuscula/Minuscula).
 */
module Formatadores {
  import opened Tipos
  import opened Aritmetica

  // ---------------------------------------------------------------------------
  // Decimal digits: Number.prototype.toString on non-negative integers
  // ---------------------------------------------------------------------------

  predicate EhDigito(c: char) { '0' <= c <= '9' }

  predicate SoDigitos(s: string) { forall i :: 0 <= i < |s| ==> EhDigito(s[i]) }

  function ValorDigito(c: char): nat
    requires EhDigito(c)
  {
    (c as int) - ('0' as int)
  }

  function Digito(d: nat): (c: char)
    requires d < 10
    ensures EhDigito(c) && ValorDigito(c) == d
  {
    (('0' as int) + d) as char
  }

  /** The number a string of decimal digits denotes (leading zeros allowed). */
  function ValorDecimal(s: string): nat
    requires SoDigitos(s)
  {
    if s == [] then 0 else ValorDecimal(s[..|s| - 1]) * 10 + ValorDigito(s[|s| - 1])
  }

  /** `n.toString()`: the canonical decimal text of n, read back by ValorDecimal. */
  function Decimal(n: nat): (s: string)
    ensures |s| >= 1 && SoDigitos(s)
    ensures ValorDecimal(s) == n
    ensures s[0] == '0' ==> n == 0 && |s| == 1
    decreases n
  {
    if n < 10 then [Digito(n)]
    else
      var s := Decimal(n / 10) + [Digito(n % 10)];
      assert s[..|s| - 1] == Decimal(n / 10);
      s
  }

  function Potencia10(k: nat): (p: nat)
    ensures p >= 1
  {
    if k == 0 then 1 else 10 * Potencia10(k - 1)
  }

  /** n has at most k digits exactly when n < 10^k. */
  lemma {:induction false} TamanhoDecimal(n: nat, k: nat)
    requires k >= 1
    ensures |Decimal(n)| <= k <==> n < Potencia10(k)
    decreases n, k
  {
    if n < 10 {
      if k > 1 {
        TamanhoDecimal(n, k - 1);
      }
    } else if k == 1 {
      assert |Decimal(n)| == |Decimal(n / 10)| + 1;
    } else {
      TamanhoDecimal(n / 10, k - 1);
      assert |Decimal(n)| == |Decimal(n / 10)| + 1;
    }
  }

  // ---------------------------------------------------------------------------
  // padStart(w, '0')
  // ---------------------------------------------------------------------------

  function Zeros(k: nat): (z: string)
    ensures |z| == k && SoDigitos(z)
  {
    seq(k, _ => '0')
  }

  function Max(a: int, b: int): int { if a >= b then a else b }

  /** `s.padStart(largura, '0')`: left-fills with '0' up to `largura`; never cuts. */
  function Preencher(s: string, largura: int): (r: string)
  {
    if |s| >= largura then s else Zeros(largura - |s|) + s
  }

  /** Leading zeros do not change the value a digit string denotes. */
  lemma {:induction false} ValorComZeros(k: nat, s: string)
    requires SoDigitos(s)
    ensures SoDigitos(Zeros(k) + s) && ValorDecimal(Zeros(k) + s) == ValorDecimal(s)
    decreases |s|, k
  {
    var z := Zeros(k) + s;
    if s == [] {
      assert z == Zeros(k);
      if k > 0 {
        assert z[..|z| - 1] == Zeros(k - 1);
        ValorComZeros(k - 1, []);
        assert Zeros(k - 1) + [] == Zeros(k - 1);
      }
    } else {
      assert z[..|z| - 1] == Zeros(k) + s[..|s| - 1];
      ValorComZeros(k, s[..|s| - 1]);
    }
  }

  /** A zero-filled number: its length and the value it reads back as. */
  lemma PreencherDecimal(n: nat, largura: int)
    ensures var r := Preencher(Decimal(n), largura);
      && |r| == Max(largura, |Decimal(n)|)
      && SoDigitos(r)
      && ValorDecimal(r) == n
      && r[|r| - |Decimal(n)|..] == Decimal(n)
      && r[..|r| - |Decimal(n)|] == Zeros(|r| - |Decimal(n)|)
  {
    var d := Decimal(n);
    var r := Preencher(d, largura);
    if |d| < largura {
      var k := largura - |d|;
      ValorComZeros(k, d);
      assert r == Zeros(k) + d;
      assert |r| == k + |d|;
      assert r[k..] == d;
      assert r[..k] == Zeros(k);
    } else {
      assert r == d;
      assert r[..0] == [] == Zeros(0);
    }
  }

  // ---------------------------------------------------------------------------
  // formatarNumeroTicket (formatadores.ts:32-34)
  // ---------------------------------------------------------------------------

  function FormatarNumeroTicket(prefixo: string, numero: nat, tamanho: int): string
  {
    prefixo + Preencher(Decimal(numero), tamanho)
  }

  /** The code is the prefix, then as many '0' as the width asks for beyond
      the digits of `numero`, then those digits: it is never cut. */
  lemma NumeroTicketEstrutura(prefixo: string, numero: nat, tamanho: int)
    ensures var d := Decimal(numero);
      var r := FormatarNumeroTicket(prefixo, numero, tamanho);
      && r == prefixo + Zeros(Max(tamanho, |d|) - |d|) + d
      && |r| == |prefixo| + Max(tamanho, |d|)
  {
    PreencherComZeros(Decimal(numero), tamanho);
  }

  /** `padStart` puts exactly the missing zeros in front. */
  lemma PreencherComZeros(s: string, largura: int)
    ensures Preencher(s, largura) == Zeros(Max(largura, |s|) - |s|) + s
  {
    if |s| >= largura {
      assert Zeros(0) + s == s;
    }
  }

  /** Reading the part of the code after the prefix as a decimal gives
      `numero` back. */
  lemma NumeroTicketValor(prefixo: string, numero: nat, tamanho: int)
    ensures var r := FormatarNumeroTicket(prefixo, numero, tamanho);
      SoDigitos(r[|prefixo|..]) && ValorDecimal(r[|prefixo|..]) == numero
  {
    var p := Preencher(Decimal(numero), tamanho);
    PreencherDecimal(numero, tamanho);
    assert (prefixo + p)[|prefixo|..] == p;
  }

  /** Within one prefix and width, distinct numbers give distinct codes. */
  lemma NumeroTicketInjetivo(prefixo: string, n1: nat, n2: nat, tamanho: int)
    requires FormatarNumeroTicket(prefixo, n1, tamanho) == FormatarNumeroTicket(prefixo, n2, tamanho)
    ensures n1 == n2
  {
    NumeroTicketValor(prefixo, n1, tamanho);
    NumeroTicketValor(prefixo, n2, tamanho);
  }

  /** A queue as the admin form accepts it (Filas.tsx): prefix of at most
      three characters, ticket width from 1 to 6. */
  predicate FilaValida(f: Fila)
  {
    |f.prefixo| <= 3 && 1 <= f.tamanho_ticket <= 6
  }

  /** For a well-configured queue, numbers below 10^width give codes of exactly
      prefix + width characters (at most 9); larger numbers overflow the width
      instead of being cut. */
  lemma CodigoDeFilaValida(f: Fila, numero: nat)
    requires FilaValida(f)
    ensures var r := FormatarNumeroTicket(f.prefixo, numero, f.tamanho_ticket);
      && (numero < Potencia10(f.tamanho_ticket) ==> |r| == |f.prefixo| + f.tamanho_ticket <= 9)
      && (numero >= Potencia10(f.tamanho_ticket) ==> |r| > |f.prefixo| + f.tamanho_ticket)
  {
    NumeroTicketEstrutura(f.prefixo, numero, f.tamanho_ticket);
    TamanhoDecimal(numero, f.tamanho_ticket);
  }

  /** The first two tickets of queue P (width 3) are P001 and P002. */
  lemma CodigosP001P002()
    ensures FormatarNumeroTicket("P", 1, 3) == "P001"
    ensures FormatarNumeroTicket("P", 2, 3) == "P002"
  {
    assert Decimal(1) == "1";
    assert Decimal(2) == "2";
    assert Zeros(2) == "00";
  }

  // ---------------------------------------------------------------------------
  // split / join
  // ---------------------------------------------------------------------------

  /** `s.split(sep)` for a one-character separator. */
  function Dividir(s: string, sep: char): (partes: seq<string>)
    ensures |partes| >= 1
    ensures forall i :: 0 <= i < |partes| ==> sep !in partes[i]
  {
    if s == [] then [[]]
    else
      var resto := Dividir(s[1..], sep);
      if s[0] == sep then [[]] + resto else [[s[0]] + resto[0]] + resto[1..]
  }

  /** `partes.join(sep)`. */
  function Juntar(partes: seq<string>, sep: char): string
  {
    if partes == [] then []
    else if |partes| == 1 then partes[0]
    else partes[0] + [sep] + Juntar(partes[1..], sep)
  }

  lemma {:induction false} JuntarCabeca(c: char, w: string, ps: seq<string>, sep: char)
    ensures Juntar([[c] + w] + ps, sep) == [c] + Juntar([w] + ps, sep)
  {
    assert ([[c] + w] + ps)[1..] == ps;
    assert ([w] + ps)[1..] == ps;
  }

  /** Joining the pieces of a split gives the string back. */
  lemma {:induction false} JuntarDividir(s: string, sep: char)
    ensures Juntar(Dividir(s, sep), sep) == s
  {
    if s != [] {
      var resto := Dividir(s[1..], sep);
      JuntarDividir(s[1..], sep);
      if s[0] == sep {
        assert ([[]] + resto)[1..] == resto;
        assert s == [s[0]] + s[1..];
      } else {
        assert resto == [resto[0]] + resto[1..];
        JuntarCabeca(s[0], resto[0], resto[1..], sep);
        assert s == [s[0]] + s[1..];
      }
    }
  }

  /** Splitting a word without separator followed by more text. */
  lemma {:induction false} DividirPalavra(w: string, t: string, sep: char)
    requires sep !in w
    ensures Dividir(w + t, sep) == [w + Dividir(t, sep)[0]] + Dividir(t, sep)[1..]
  {
    if w != [] {
      var d := Dividir(t, sep);
      var resto := Dividir(w[1..] + t, sep);
      DividirPalavra(w[1..], t, sep);
      assert w[0] in w;
      assert (w + t)[0] == w[0] && (w + t)[1..] == w[1..] + t;
      assert Dividir(w + t, sep) == [[w[0]] + resto[0]] + resto[1..];
      assert resto[0] == w[1..] + d[0] && resto[1..] == d[1..];
      assert [w[0]] + (w[1..] + d[0]) == w + d[0];
    } else {
      var d := Dividir(t, sep);
      assert w + t == t && w + d[0] == d[0];
      assert d == [d[0]] + d[1..];
    }
  }

  /** Splitting a join of separator-free pieces gives the pieces back. */
  lemma {:induction false} DividirJuntar(partes: seq<string>, sep: char)
    requires |partes| >= 1
    requires forall i :: 0 <= i < |partes| ==> sep !in partes[i]
    ensures Dividir(Juntar(partes, sep), sep) == partes
  {
    if |partes| == 1 {
      DividirPalavra(partes[0], [], sep);
      assert partes[0] + [] == partes[0];
    } else {
      var t := [sep] + Juntar(partes[1..], sep);
      DividirJuntar(partes[1..], sep);
      assert partes[0] + [sep] + Juntar(partes[1..], sep) == partes[0] + t;
      DividirPalavra(partes[0], t, sep);
      assert t[1..] == Juntar(partes[1..], sep);
      assert Dividir(t, sep) == [[]] + partes[1..];
      assert partes[0] + [] == partes[0];
    }
  }

  // ---------------------------------------------------------------------------
  // formatarTempo (formatadores.ts:37-47): seconds as HH:MM:SS
  // ---------------------------------------------------------------------------

  /** `n.toString().padStart(2, '0')`. */
  function DoisDigitos(n: nat): string
  {
    Preencher(Decimal(n), 2)
  }

  function FormatarTempo(segundos: nat): string
  {
    var horas := segundos / 3600;
    var minutos := (segundos % 3600) / 60;
    var segs := segundos % 60;
    Juntar([DoisDigitos(horas), DoisDigitos(minutos), DoisDigitos(segs)], ':')
  }

  /** A field of a clock text: at least two digits. */
  predicate CampoDeRelogio(s: string)
  {
    |s| >= 2 && SoDigitos(s)
  }

  lemma DoisDigitosCampo(n: nat)
    ensures CampoDeRelogio(DoisDigitos(n)) && ValorDecimal(DoisDigitos(n)) == n
    ensures ':' !in DoisDigitos(n)
  {
    PreencherDecimal(n, 2);
  }

  /** Splitting the HH:MM:SS text on ':' gives three fields of at least two
      digits whose values h, m, x satisfy m < 60, x < 60 and
      h*3600 + m*60 + x == segundos. */
  lemma FormatarTempoDecompoe(segundos: nat)
    ensures var partes := Dividir(FormatarTempo(segundos), ':');
      && |partes| == 3
      && CampoDeRelogio(partes[0]) && CampoDeRelogio(partes[1]) && CampoDeRelogio(partes[2])
      && ValorDecimal(partes[1]) < 60 && ValorDecimal(partes[2]) < 60
      && ValorDecimal(partes[0]) * 3600 + ValorDecimal(partes[1]) * 60 + ValorDecimal(partes[2]) == segundos
  {
    var h, m, x := segundos / 3600, (segundos % 3600) / 60, segundos % 60;
    DoisDigitosCampo(h);
    DoisDigitosCampo(m);
    DoisDigitosCampo(x);
    DividirJuntar([DoisDigitos(h), DoisDigitos(m), DoisDigitos(x)], ':');
    HorasMinutosSegundos(segundos);
  }

  lemma HorasMinutosSegundos(segundos: nat)
    ensures (segundos % 3600) / 60 < 60 && segundos % 60 < 60
    ensures (segundos / 3600) * 3600 + ((segundos % 3600) / 60) * 60 + segundos % 60 == segundos
  {
    var h, r := segundos / 3600, segundos % 3600;
    var m, x := r / 60, r % 60;
    assert segundos == h * 3600 + r;
    assert r == m * 60 + x;
    assert segundos == (h * 60 + m) * 60 + x;
    assert segundos % 60 == x;
  }

  // ---------------------------------------------------------------------------
  // formatarTempoEmMinutos (formatadores.ts:50-58): minutes as "Xh Ymin"
  // ---------------------------------------------------------------------------

  function FormatarTempoEmMinutos(minutos: nat): string
  {
    var horas := minutos / 60;
    var mins := minutos % 60;
    if horas > 0 then Decimal(horas) + "h " + Decimal(mins) + "min"
    else Decimal(mins) + " min"
  }

  /** Reads a non-empty digit string. */
  function LerNumero(s: string): Option<nat>
  {
    if |s| >= 1 && SoDigitos(s) then Some(ValorDecimal(s)) else None
  }

  /** Reads a digit string followed by the suffix `sufixo`. */
  function LerComSufixo(s: string, sufixo: string): Option<nat>
  {
    if |s| > |sufixo| && s[|s| - |sufixo|..] == sufixo then LerNumero(s[..|s| - |sufixo|]) else None
  }

  /** Reads "Y min" or "Xh Ymin" back into a number of minutes. */
  function LerTempoEmMinutos(s: string): Option<nat>
  {
    LerPartes(Dividir(s, ' '))
  }

  /** Reads the space-separated parts: ["Y", "min"] or ["Xh", "Ymin"]. */
  function LerPartes(partes: seq<string>): Option<nat>
  {
    if |partes| != 2 then None
    else if partes[1] == "min" then LerNumero(partes[0])
    else
      var h, m := LerComSufixo(partes[0], "h"), LerComSufixo(partes[1], "min");
      if h.Some? && m.Some? then Some(h.value * 60 + m.value) else None
  }

  /** A digit string followed by the suffix reads as its value. */
  lemma LerDecimalComSufixo(a: string, sufixo: string)
    requires |a| >= 1 && SoDigitos(a) && |sufixo| >= 1
    ensures LerComSufixo(a + sufixo, sufixo) == Some(ValorDecimal(a))
  {
    var s := a + sufixo;
    assert s[..|s| - |sufixo|] == a;
    assert s[|s| - |sufixo|..] == sufixo;
  }

  lemma SemEspacoEmDecimal(n: nat)
    ensures ' ' !in Decimal(n) && 'h' !in Decimal(n)
  {
  }

  /** Two words without spaces, joined by one, split back into the two. */
  lemma DividirDuasPalavras(a: string, b: string)
    requires ' ' !in a && ' ' !in b
    ensures Dividir(a + " " + b, ' ') == [a, b]
  {
    assert a + " " + b == Juntar([a, b], ' ') by {
      assert Juntar([a, b], ' ') == a + [' '] + Juntar([b], ' ');
    }
    DividirJuntar([a, b], ' ');
  }

  /** "Xh Ymin" splits into "Xh" and "Ymin". */
  lemma DividirHorasEMinutos(horas: nat, mins: nat)
    ensures Dividir(Decimal(horas) + "h " + Decimal(mins) + "min", ' ')
         == [Decimal(horas) + "h", Decimal(mins) + "min"]
  {
    SemEspacoEmDecimal(horas);
    SemEspacoEmDecimal(mins);
    DividirHorasEMinutosTexto(Decimal(horas), Decimal(mins));
  }

  lemma DividirHorasEMinutosTexto(x: string, y: string)
    requires ' ' !in x && ' ' !in y
    ensures Dividir(x + "h " + y + "min", ' ') == [x + "h", y + "min"]
  {
    var a, b := x + "h", y + "min";
    assert ' ' !in "h" && ' ' !in "min";
    assert ' ' !in a && ' ' !in b;
    assert x + "h " + y + "min" == a + " " + b;
    DividirDuasPalavras(a, b);
  }

  /** The parts "Xh" and "Ymin" read as X·60 + Y. */
  lemma LerHorasEMinutos(a: string, b: string, x: nat, y: nat)
    requires LerComSufixo(a, "h") == Some(x)
    requires LerComSufixo(b, "min") == Some(y) && b != "min"
    ensures LerPartes([a, b]) == Some(x * 60 + y)
  {
    assert [a, b][0] == a && [a, b][1] == b;
  }

  /** "Y min" reads as Y and has no 'h'. */
  lemma LerSoMinutos(mins: nat)
    ensures var s := Decimal(mins) + " min";
      LerTempoEmMinutos(s) == Some(mins) && 'h' !in s
  {
    SemEspacoEmDecimal(mins);
    LerSoMinutosTexto(Decimal(mins));
    assert 'h' !in " min";
  }

  /** "Y min" reads as Y does, for Y without a space. */
  lemma LerSoMinutosTexto(a: string)
    requires ' ' !in a
    ensures LerTempoEmMinutos(a + " min") == LerNumero(a)
  {
    assert a + " min" == a + " " + "min";
    DividirDuasPalavras(a, "min");
    assert [a, "min"][0] == a && [a, "min"][1] == "min";
  }

  /** "Xh Ymin" reads as X·60 + Y and has an 'h'. */
  lemma LerComHoras(horas: nat, mins: nat)
    ensures var s := Decimal(horas) + "h " + Decimal(mins) + "min";
      LerTempoEmMinutos(s) == Some(horas * 60 + mins) && 'h' in s
  {
    var dh, dm := Decimal(horas), Decimal(mins);
    var a, b := dh + "h", dm + "min";
    DividirHorasEMinutos(horas, mins);
    LerDecimalComSufixo(dh, "h");
    LerDecimalComSufixo(dm, "min");
    assert |b| > 3;
    LerHorasEMinutos(a, b, horas, mins);
    assert 'h' in a;
  }

  /** The duration text reads back as the same number of minutes, and it has
      an hours part exactly when there are at least 60 minutes. */
  lemma TempoEmMinutosIdaEVolta(minutos: nat)
    ensures LerTempoEmMinutos(FormatarTempoEmMinutos(minutos)) == Some(minutos)
    ensures 'h' in FormatarTempoEmMinutos(minutos) <==> minutos >= 60
  {
    var horas, mins := minutos / 60, minutos % 60;
    assert horas * 60 + mins == minutos;
    if horas > 0 {
      LerComHoras(horas, mins);
    } else {
      LerSoMinutos(mins);
    }
  }

  /** The text is built from the split of the minutes that leaves fewer than
      60 over: any hours and minutes with that property give it. */
  lemma TempoEmMinutosNormalizado(minutos: nat, horas: nat, mins: nat)
    requires mins < 60 && horas * 60 + mins == minutos
    ensures FormatarTempoEmMinutos(minutos)
         == if horas > 0 then Decimal(horas) + "h " + Decimal(mins) + "min" else Decimal(mins) + " min"
  {
    DivisaoComResto(horas, 60, mins);
    assert minutos / 60 == horas && minutos % 60 == mins;
  }

  /** Whatever hours and minutes a "Xh Ymin" text shows, there is at least
      one hour, fewer than 60 minutes, and together they are the input: the
      text is never "1h 90min". */
  lemma TempoEmMinutosCampos(minutos: nat, horas: nat, mins: nat)
    requires FormatarTempoEmMinutos(minutos) == Decimal(horas) + "h " + Decimal(mins) + "min"
    ensures horas >= 1 && mins < 60 && horas * 60 + mins == minutos
  {
    var x, y := minutos / 60, minutos % 60;
    var dh := Decimal(horas);
    assert (dh + "h " + Decimal(mins) + "min")[|dh|] == 'h';
    TempoEmMinutosIdaEVolta(minutos);
    assert x >= 1;
    DividirHorasEMinutos(horas, mins);
    DividirHorasEMinutos(x, y);
    DecimalComSufixo(dh, Decimal(x), "h");
    DecimalComSufixo(Decimal(mins), Decimal(y), "min");
  }

  /** Equal texts that end in the same suffix agree before it. */
  lemma DecimalComSufixo(a: string, b: string, sufixo: string)
    requires a + sufixo == b + sufixo
    ensures a == b
  {
    assert a == (a + sufixo)[..|a|];
    assert b == (b + sufixo)[..|b|];
  }

  // ---------------------------------------------------------------------------
  // ASCII case mapping and word-by-word transforms
  // ---------------------------------------------------------------------------

  /** `toLowerCase` on one character (ASCII letters only). */
  function Minuscula(c: char): char
  {
    if 'A' <= c <= 'Z' then ((c as int) + 32) as char else c
  }

  /** `toUpperCase` on one character (ASCII letters only). */
  function Maiuscula(c: char): char
  {
    if 'a' <= c <= 'z' then ((c as int) - 32) as char else c
  }

  function Identidade(c: char): char { c }

  function MapChars(s: string, f: char -> char): (r: string)
    ensures |r| == |s| && forall i :: 0 <= i < |s| ==> r[i] == f(s[i])
  {
    seq(|s|, i requires 0 <= i < |s| => f(s[i]))
  }

  /** `w.charAt(0)` through `primeira`, then `w.slice(1)` through `demais`. */
  function Palavra(w: string, primeira: char -> char, demais: char -> char): string
  {
    if w == [] then [] else [primeira(w[0])] + MapChars(w[1..], demais)
  }

  /** `ws.map(Palavra)`. */
  function MapPalavras(ws: seq<string>, primeira: char -> char, demais: char -> char): (r: seq<string>)
    ensures |r| == |ws| && forall i :: 0 <= i < |ws| ==> r[i] == Palavra(ws[i], primeira, demais)
  {
    seq(|ws|, i requires 0 <= i < |ws| => Palavra(ws[i], primeira, demais))
  }

  /** The same transform described character by character: separators become
      `sepSaida`, the first character of each word goes through `primeira` and
      every other character through `demais`. */
  function PorCaractere(s: string, sepEntrada: char, sepSaida: char,
                        primeira: char -> char, demais: char -> char, inicio: bool): (r: string)
    ensures |r| == |s|
  {
    if s == [] then []
    else
      [if s[0] == sepEntrada then sepSaida else if inicio then primeira(s[0]) else demais(s[0])]
      + PorCaractere(s[1..], sepEntrada, sepSaida, primeira, demais, s[0] == sepEntrada)
  }

  /** Position i of PorCaractere. */
  lemma {:induction false} PorCaractereEm(s: string, a: char, b: char,
                                          primeira: char -> char, demais: char -> char,
                                          inicio: bool, i: nat)
    requires i < |s|
    ensures PorCaractere(s, a, b, primeira, demais, inicio)[i] ==
      if s[i] == a then b
      else if (if i == 0 then inicio else s[i - 1] == a) then primeira(s[i])
      else demais(s[i])
  {
    if i > 0 {
      PorCaractereEm(s[1..], a, b, primeira, demais, s[0] == a, i - 1);
    }
  }

  /** split, map over words, join gives the character-by-character transform,
      both at the start of a word and in the middle of one. */
  predicate PalavrasComoCaracteres(s: string, a: char, b: char,
                                   primeira: char -> char, demais: char -> char)
  {
    var d := Dividir(s, a);
    && PorCaractere(s, a, b, primeira, demais, true) == Juntar(MapPalavras(d, primeira, demais), b)
    && PorCaractere(s, a, b, primeira, demais, false)
       == Juntar([MapChars(d[0], demais)] + MapPalavras(d[1..], primeira, demais), b)
  }

  lemma {:induction false} PalavrasPorCaractere(s: string, a: char, b: char,
                                                primeira: char -> char, demais: char -> char)
    ensures PalavrasComoCaracteres(s, a, b, primeira, demais)
  {
    if s == [] {
      var d := Dividir(s, a);
      assert MapPalavras(d, primeira, demais) == [[]];
      assert MapChars([], demais) == [];
    } else {
      PalavrasPorCaractere(s[1..], a, b, primeira, demais);
      if s[0] == a {
        PalavrasSeparador(s, a, b, primeira, demais);
      } else {
        PalavrasLetra(s, a, b, primeira, demais);
      }
    }
  }

  lemma PalavrasSeparador(s: string, a: char, b: char, primeira: char -> char, demais: char -> char)
    requires s != [] && s[0] == a
    requires PalavrasComoCaracteres(s[1..], a, b, primeira, demais)
    ensures PalavrasComoCaracteres(s, a, b, primeira, demais)
  {
    var d, d' := Dividir(s, a), Dividir(s[1..], a);
    var m' := MapPalavras(d', primeira, demais);
    assert d == [[]] + d';
    assert MapPalavras(d, primeira, demais) == [[]] + m';
    assert d[1..] == d';
    assert MapChars(d[0], demais) == [];
    assert ([[]] + m')[1..] == m';
  }

  lemma PalavrasLetra(s: string, a: char, b: char, primeira: char -> char, demais: char -> char)
    requires s != [] && s[0] != a
    requires PalavrasComoCaracteres(s[1..], a, b, primeira, demais)
    ensures PalavrasComoCaracteres(s, a, b, primeira, demais)
  {
    var d, d' := Dividir(s, a), Dividir(s[1..], a);
    var w := MapChars(d'[0], demais);
    var resto := MapPalavras(d'[1..], primeira, demais);
    var x := [s[0]] + d'[0];
    assert d == [x] + d'[1..];
    assert x[1..] == d'[0];
    MapPalavrasCabeca(x, d'[1..], primeira, demais);
    MapCharsCabeca(s[0], d'[0], demais);
    LetraInicio(s, a, b, primeira, demais, w, resto);
    LetraMeio(s, a, b, primeira, demais, w, resto);
  }

  lemma MapPalavrasCabeca(x: string, ws: seq<string>, primeira: char -> char, demais: char -> char)
    requires x != []
    ensures MapPalavras([x] + ws, primeira, demais)
         == [[primeira(x[0])] + MapChars(x[1..], demais)] + MapPalavras(ws, primeira, demais)
  {
  }

  lemma MapCharsCabeca(c: char, w: string, f: char -> char)
    ensures MapChars([c] + w, f) == [f(c)] + MapChars(w, f)
  {
  }

  lemma LetraInicio(s: string, a: char, b: char, primeira: char -> char, demais: char -> char,
                    w: string, resto: seq<string>)
    requires s != [] && s[0] != a
    requires PorCaractere(s[1..], a, b, primeira, demais, false) == Juntar([w] + resto, b)
    requires MapPalavras(Dividir(s, a), primeira, demais) == [[primeira(s[0])] + w] + resto
    ensures PorCaractere(s, a, b, primeira, demais, true) == Juntar(MapPalavras(Dividir(s, a), primeira, demais), b)
  {
    JuntarCabeca(primeira(s[0]), w, resto, b);
  }

  lemma LetraMeio(s: string, a: char, b: char, primeira: char -> char, demais: char -> char,
                  w: string, resto: seq<string>)
    requires s != [] && s[0] != a
    requires PorCaractere(s[1..], a, b, primeira, demais, false) == Juntar([w] + resto, b)
    requires MapChars(Dividir(s, a)[0], demais) == [demais(s[0])] + w
    requires MapPalavras(Dividir(s, a)[1..], primeira, demais) == resto
    ensures PorCaractere(s, a, b, primeira, demais, false)
         == Juntar([MapChars(Dividir(s, a)[0], demais)] + MapPalavras(Dividir(s, a)[1..], primeira, demais), b)
  {
    JuntarCabeca(demais(s[0]), w, resto, b);
  }

  // ---------------------------------------------------------------------------
  // capitalizarPalavras (formatadores.ts:69-75)
  // ---------------------------------------------------------------------------

  /** `texto.toLowerCase()`. */
  function Minusculas(texto: string): string
  {
    MapChars(texto, Minuscula)
  }

  function CapitalizarPalavras(texto: string): string
  {
    Juntar(MapPalavras(Dividir(Minusculas(texto), ' '), Maiuscula, Identidade), ' ')
  }

  predicate InicioDePalavra(s: string, i: nat)
    requires i < |s|
  {
    i == 0 || s[i - 1] == ' '
  }

  /** Capitalising is the character-by-character transform of the lower-cased
      text: separators stay spaces and word starts are upper-cased. */
  lemma CapitalizarPorCaractere(texto: string)
    ensures CapitalizarPalavras(texto)
         == PorCaractere(Minusculas(texto), ' ', ' ', Maiuscula, Identidade, true)
    ensures |CapitalizarPalavras(texto)| == |texto|
  {
    PalavrasPorCaractere(Minusculas(texto), ' ', ' ', Maiuscula, Identidade);
  }

  /** Character i of the capitalised text: the lower-cased character, upper-cased
      again where a word starts. */
  lemma CapitalizarEm(texto: string, i: nat)
    requires i < |texto|
    ensures |CapitalizarPalavras(texto)| == |texto|
    ensures CapitalizarPalavras(texto)[i] ==
      if InicioDePalavra(texto, i) then Maiuscula(Minuscula(texto[i])) else Minuscula(texto[i])
  {
    var l := Minusculas(texto);
    CapitalizarPorCaractere(texto);
    PorCaractereEm(l, ' ', ' ', Maiuscula, Identidade, true, i);
    if i > 0 {
      assert (l[i - 1] == ' ') == (texto[i - 1] == ' ');
    }
  }

  /** Splitting two texts with spaces at the same positions gives as many words. */
  lemma {:induction false} MesmosEspacos(s: string, t: string, sep: char)
    requires |s| == |t|
    requires forall i :: 0 <= i < |s| ==> (s[i] == sep <==> t[i] == sep)
    ensures |Dividir(s, sep)| == |Dividir(t, sep)|
  {
    if s != [] {
      MesmosEspacos(s[1..], t[1..], sep);
    }
  }

  /** Capitalising keeps the length, the spaces and so the number of words;
      every word starts with a character that is not a lower-case letter and
      has no upper-case letter after its first character. */
  lemma CapitalizarPreservaPalavras(texto: string)
    ensures var r := CapitalizarPalavras(texto);
      && |r| == |texto|
      && (forall i :: 0 <= i < |r| ==> (r[i] == ' ' <==> texto[i] == ' '))
      && |Dividir(r, ' ')| == |Dividir(texto, ' ')|
      && (forall i :: 0 <= i < |r| && InicioDePalavra(texto, i) ==> !('a' <= r[i] <= 'z'))
      && (forall i :: 0 <= i < |r| && !InicioDePalavra(texto, i) ==> !('A' <= r[i] <= 'Z'))
  {
    var r := CapitalizarPalavras(texto);
    CapitalizarPorCaractere(texto);
    forall i | 0 <= i < |r|
      ensures r[i] == ' ' <==> texto[i] == ' '
      ensures InicioDePalavra(texto, i) ==> !('a' <= r[i] <= 'z')
      ensures !InicioDePalavra(texto, i) ==> !('A' <= r[i] <= 'Z')
    {
      CapitalizarEm(texto, i);
    }
    MesmosEspacos(r, texto, ' ');
  }

  /** Capitalising twice is capitalising once. */
  lemma CapitalizarIdempotente(texto: string)
    ensures CapitalizarPalavras(CapitalizarPalavras(texto)) == CapitalizarPalavras(texto)
  {
    var r := CapitalizarPalavras(texto);
    var rr := CapitalizarPalavras(r);
    CapitalizarPorCaractere(texto);
    CapitalizarPorCaractere(r);
    forall i | 0 <= i < |r|
      ensures rr[i] == r[i]
    {
      CapitalizarDuasVezesEm(texto, i);
    }
  }

  lemma CapitalizarDuasVezesEm(texto: string, i: nat)
    requires i < |texto|
    ensures var r := CapitalizarPalavras(texto);
      |r| == |texto| && |CapitalizarPalavras(r)| == |r| && CapitalizarPalavras(r)[i] == r[i]
  {
    var r := CapitalizarPalavras(texto);
    CapitalizarEm(texto, i);
    CapitalizarEm(r, i);
    CaixaEstavel(texto[i]);
    if i > 0 {
      CapitalizarEm(texto, i - 1);
      CaixaEstavel(texto[i - 1]);
    }
  }

  /** Lower-casing is idempotent, upper-casing after it too, and neither
      makes or removes a space. */
  lemma CaixaEstavel(c: char)
    ensures Minuscula(Minuscula(c)) == Minuscula(c)
    ensures Maiuscula(Minuscula(Maiuscula(Minuscula(c)))) == Maiuscula(Minuscula(c))
    ensures Minuscula(c) == ' ' <==> c == ' '
    ensures Maiuscula(Minuscula(c)) == ' ' <==> c == ' '
  {
  }

  // ---------------------------------------------------------------------------
  // formatarEnum (formatadores.ts:78-83)
  // ---------------------------------------------------------------------------

  function FormatarEnum(valor: string): string
  {
    Juntar(MapPalavras(Dividir(valor, '_'), Maiuscula, Minuscula), ' ')
  }

  /** Each '_' becomes a space, the first character of each segment is
      upper-cased and the rest lower-cased. */
  lemma FormatarEnumEm(valor: string)
    ensures var r := FormatarEnum(valor);
      && |r| == |valor|
      && (forall i :: 0 <= i < |r| ==>
            r[i] == (if valor[i] == '_' then ' '
                     else if i == 0 || valor[i - 1] == '_' then Maiuscula(valor[i])
                     else Minuscula(valor[i])))
  {
    var r := FormatarEnum(valor);
    PalavrasPorCaractere(valor, '_', ' ', Maiuscula, Minuscula);
    forall i | 0 <= i < |r|
      ensures r[i] == if valor[i] == '_' then ' '
                      else if i == 0 || valor[i - 1] == '_' then Maiuscula(valor[i])
                      else Minuscula(valor[i])
    {
      PorCaractereEm(valor, '_', ' ', Maiuscula, Minuscula, true, i);
    }
  }

  /** For a value without spaces, the words of the label are exactly the
      title-cased '_'-segments of the value. */
  lemma FormatarEnumPalavras(valor: string)
    requires ' ' !in valor
    ensures Dividir(FormatarEnum(valor), ' ')
         == MapPalavras(Dividir(valor, '_'), Maiuscula, Minuscula)
  {
    var ws := MapPalavras(Dividir(valor, '_'), Maiuscula, Minuscula);
    forall k | 0 <= k < |ws|
      ensures ' ' !in ws[k]
    {
      var w := Dividir(valor, '_')[k];
      assert w in Dividir(valor, '_');
      PalavraSemEspaco(valor, w);
    }
    DividirJuntar(ws, ' ');
  }

  lemma PalavraSemEspaco(valor: string, w: string)
    requires ' ' !in valor
    requires w in Dividir(valor, '_')
    ensures ' ' !in Palavra(w, Maiuscula, Minuscula)
  {
    PecasDeDividir(valor, '_', w);
  }

  /** Every piece of a split is made of characters of the string. */
  lemma {:induction false} PecasDeDividir(s: string, sep: char, w: string)
    requires w in Dividir(s, sep)
    ensures forall c :: c in w ==> c in s
  {
    if s != [] {
      var resto := Dividir(s[1..], sep);
      if w in resto {
        PecasDeDividir(s[1..], sep, w);
      }
      if s[0] != sep && w == [s[0]] + resto[0] {
        PecasDeDividir(s[1..], sep, resto[0]);
      }
      if s[0] != sep && w != [s[0]] + resto[0] {
        assert w in resto[1..];
        PecasDeDividir(s[1..], sep, w);
      }
    }
  }
}
