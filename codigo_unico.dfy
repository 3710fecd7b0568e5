/** The unique transaction code of `TransaccionService.generarCodigoUnico`:
    `String.format("TRX%06d-%d-%02d-%02d-%02d-%02d-%02d-%012d", random,
    year, month, day, hour, minute, second, 1L)`, and a reader that recovers
    the random part and the timestamp from a code. */
module CodigoUnico {
  import opened Resultados
  import opened Cadenas

  /** A wall-clock reading to second resolution, as `LocalDateTime` reports it. */
  datatype FechaHora = FechaHora(anio: nat, mes: nat, dia: nat, hora: nat, minuto: nat, segundo: nat)

  /** The ranges `LocalDateTime` guarantees for each field. */
  predicate FechaValida(f: FechaHora) {
    1 <= f.mes <= 12 && 1 <= f.dia <= 31 && f.hora < 24 && f.minuto < 60 && f.segundo < 60
  }

  /** Exclusive bound of `new Random().nextInt(1000000)`. */
  const LIMITE_ALEATORIO: nat := 1000000

  /** The fixed 12-digit sequence placeholder, `%012d` of `1L`. */
  const SECUENCIA := "000000000001"

  predicate EsCifra(ch: char) {
    '0' <= ch <= '9'
  }

  predicate SoloCifras(s: string) {
    forall i :: 0 <= i < |s| ==> EsCifra(s[i])
  }

  function Cifra(d: nat): (ch: char)
    requires d < 10
    ensures EsCifra(ch)
  {
    (48 + d) as char
  }

  function ValorCifra(ch: char): nat
    requires EsCifra(ch)
  {
    (ch as int) - 48
  }

  function Pow10(n: nat): (p: nat)
    ensures p >= 1
  {
    if n == 0 then 1 else 10 * Pow10(n - 1)
  }

  /** Java's `%d` of a non-negative number: its decimal digits, no leading zero. */
  function Decimal(n: nat): (s: string)
    ensures |s| >= 1 && SoloCifras(s)
    decreases n
  {
    if n < 10 then [Cifra(n)] else Decimal(n / 10) + [Cifra(n % 10)]
  }

  function Ceros(k: nat): (s: string)
    ensures |s| == k && SoloCifras(s)
  {
    seq(k, _ => '0')
  }

  /** Java's `%0<ancho>d` of a non-negative number: left-padded with zeros to
      at least `ancho` characters. */
  function Rellenar(n: nat, ancho: nat): (s: string)
    ensures SoloCifras(s)
  {
    var d := Decimal(n);
    if |d| >= ancho then d else Ceros(ancho - |d|) + d
  }

  /** The number a digit string denotes. */
  function Valor(s: string): nat
    requires SoloCifras(s)
  {
    if s == [] then 0 else Valor(s[..|s| - 1]) * 10 + ValorCifra(s[|s| - 1])
  }

  lemma {:induction false} ValorDecimal(n: nat)
    ensures Valor(Decimal(n)) == n
    decreases n
  {
    if n >= 10 {
      var d := Decimal(n / 10);
      ValorDecimal(n / 10);
      assert (d + [Cifra(n % 10)])[..|d|] == d;
    }
  }

  /** Leading zeros do not change the value. */
  lemma {:induction false} ValorCeros(k: nat, s: string)
    requires SoloCifras(s)
    ensures Valor(Ceros(k) + s) == Valor(s)
    decreases |s|, k
  {
    if s == [] {
      assert Ceros(k) + s == Ceros(k);
      if k > 0 {
        assert Ceros(k)[..k - 1] == Ceros(k - 1) + [];
        ValorCeros(k - 1, []);
      }
    } else {
      var z := Ceros(k) + s;
      assert z[..|z| - 1] == Ceros(k) + s[..|s| - 1];
      ValorCeros(k, s[..|s| - 1]);
    }
  }

  lemma {:induction false} LongitudDecimal(n: nat, w: nat)
    requires 1 <= w && n < Pow10(w)
    ensures |Decimal(n)| <= w
    decreases n
  {
    if n >= 10 {
      assert w >= 2;
      assert n / 10 < Pow10(w - 1);
      LongitudDecimal(n / 10, w - 1);
    }
  }

  lemma {:induction false} LongitudDecimalExacta(n: nat, w: nat)
    requires 1 <= w && Pow10(w - 1) <= n < Pow10(w)
    ensures |Decimal(n)| == w
    decreases n
  {
    if n >= 10 {
      assert w >= 2;
      assert Pow10(w - 2) <= n / 10 < Pow10(w - 1);
      LongitudDecimalExacta(n / 10, w - 1);
    } else {
      assert w == 1;
    }
  }

  /** A zero-padded field that fits its width has exactly that width and
      reads back as the number written. */
  lemma CampoRellenado(n: nat, w: nat)
    requires 1 <= w && n < Pow10(w)
    ensures |Rellenar(n, w)| == w && Valor(Rellenar(n, w)) == n
  {
    LongitudDecimal(n, w);
    ValorDecimal(n);
    if |Decimal(n)| < w {
      ValorCeros(w - |Decimal(n)|, Decimal(n));
    }
  }

  /** The eight dash-separated fields of a code. */
  function Campos(aleatorio: nat, f: FechaHora): seq<string> {
    ["TRX" + Rellenar(aleatorio, 6), Decimal(f.anio), Rellenar(f.mes, 2), Rellenar(f.dia, 2),
     Rellenar(f.hora, 2), Rellenar(f.minuto, 2), Rellenar(f.segundo, 2), Rellenar(1, 12)]
  }

  /** `generarCodigoUnico` with its random number and clock reading as parameters. */
  function Generar(aleatorio: nat, f: FechaHora): string {
    Unir(Campos(aleatorio, f), "-")
  }

  /** The shape `Leer` accepts, field by field. */
  predicate BienFormado(ps: seq<string>) {
    |ps| == 8 && |ps[0]| == 9 && ps[0][..3] == "TRX" && SoloCifras(ps[0][3..])
    && |ps[1]| >= 1 && SoloCifras(ps[1])
    && (forall k :: 2 <= k < 7 ==> |ps[k]| == 2 && SoloCifras(ps[k]))
    && ps[7] == SECUENCIA
  }

  /** Reads a code back: `Some` exactly for strings of the shape
      `TRX` + 6 digits, then a dash and a year, five dashes each followed by
      2 digits, and `-000000000001`. */
  function Leer(c: string): Option<(nat, FechaHora)> {
    var ps := Separar(c, '-');
    if BienFormado(ps) then
      Some((Valor(ps[0][3..]),
            FechaHora(Valor(ps[1]), Valor(ps[2]), Valor(ps[3]), Valor(ps[4]), Valor(ps[5]), Valor(ps[6]))))
    else
      None
  }

  lemma SinGuion(s: string)
    requires SoloCifras(s)
    ensures '-' !in s
  {
  }

  lemma SecuenciaFija()
    ensures Rellenar(1, 12) == SECUENCIA
  {
  }

  /** Every field of a code has the width `Leer` expects. */
  lemma CamposAnchos(aleatorio: nat, f: FechaHora)
    requires aleatorio < LIMITE_ALEATORIO && FechaValida(f)
    ensures BienFormado(Campos(aleatorio, f))
  {
    var ps := Campos(aleatorio, f);
    assert Pow10(2) == 100 && Pow10(6) == LIMITE_ALEATORIO;
    CampoRellenado(aleatorio, 6);
    assert ps[0][3..] == Rellenar(aleatorio, 6);
    CampoRellenado(f.mes, 2);
    CampoRellenado(f.dia, 2);
    CampoRellenado(f.hora, 2);
    CampoRellenado(f.minuto, 2);
    CampoRellenado(f.segundo, 2);
    SecuenciaFija();
  }

  /** The fields of a code read back as the numbers written into them. */
  lemma CamposValores(aleatorio: nat, f: FechaHora)
    requires aleatorio < LIMITE_ALEATORIO && FechaValida(f)
    ensures BienFormado(Campos(aleatorio, f))
    ensures Valor(Campos(aleatorio, f)[0][3..]) == aleatorio && Valor(Campos(aleatorio, f)[1]) == f.anio
    ensures Valor(Campos(aleatorio, f)[2]) == f.mes && Valor(Campos(aleatorio, f)[3]) == f.dia
    ensures Valor(Campos(aleatorio, f)[4]) == f.hora && Valor(Campos(aleatorio, f)[5]) == f.minuto
    ensures Valor(Campos(aleatorio, f)[6]) == f.segundo
  {
    CamposAnchos(aleatorio, f);
    var ps := Campos(aleatorio, f);
    assert Pow10(2) == 100 && Pow10(6) == LIMITE_ALEATORIO;
    CampoRellenado(aleatorio, 6);
    assert ps[0][3..] == Rellenar(aleatorio, 6);
    ValorDecimal(f.anio);
    CampoRellenado(f.mes, 2);
    CampoRellenado(f.dia, 2);
    CampoRellenado(f.hora, 2);
    CampoRellenado(f.minuto, 2);
    CampoRellenado(f.segundo, 2);
  }

  /** No field of a code holds a dash, so splitting a code at dashes gives its fields. */
  lemma SepararGenerar(aleatorio: nat, f: FechaHora)
    ensures Separar(Generar(aleatorio, f), '-') == Campos(aleatorio, f)
  {
    var ps := Campos(aleatorio, f);
    forall k | 0 <= k < |ps| ensures '-' !in ps[k] {
      if k == 0 {
        SinGuion(Rellenar(aleatorio, 6));
        assert ps[0] == "TRX" + Rellenar(aleatorio, 6);
      } else {
        SinGuion(ps[k]);
      }
    }
    SepararUnir(ps, '-');
  }

  /** Round trip: the code carries its random part and its timestamp, each in
      a field of fixed width, and `Leer` recovers both. */
  lemma LeerGenerar(aleatorio: nat, f: FechaHora)
    requires aleatorio < LIMITE_ALEATORIO && FechaValida(f)
    ensures Leer(Generar(aleatorio, f)) == Some((aleatorio, f))
  {
    SepararGenerar(aleatorio, f);
    CamposValores(aleatorio, f);
  }

  /** Two codes are equal only when their random parts and timestamps are:
      a collision needs the same second and the same random number. */
  lemma GenerarInyectiva(a1: nat, f1: FechaHora, a2: nat, f2: FechaHora)
    requires a1 < LIMITE_ALEATORIO && FechaValida(f1)
    requires a2 < LIMITE_ALEATORIO && FechaValida(f2)
    requires Generar(a1, f1) == Generar(a2, f2)
    ensures a1 == a2 && f1 == f2
  {
    LeerGenerar(a1, f1);
    LeerGenerar(a2, f2);
  }

  /** The code starts with `TRX` and ends with the sequence placeholder; with a
      four-digit year it is 42 characters long. */
  lemma FormaGenerar(aleatorio: nat, f: FechaHora)
    requires aleatorio < LIMITE_ALEATORIO && FechaValida(f)
    ensures Generar(aleatorio, f)[..3] == "TRX"
    ensures |Generar(aleatorio, f)| >= 13 && Generar(aleatorio, f)[|Generar(aleatorio, f)| - 13..] == "-" + SECUENCIA
    ensures 1000 <= f.anio <= 9999 ==> |Generar(aleatorio, f)| == 42
  {
    var ps := Campos(aleatorio, f);
    CamposAnchos(aleatorio, f);
    UnirCabeza(ps, "-");
    UnirUltimo(ps, "-");
    if 1000 <= f.anio <= 9999 {
      LongitudUnir(ps, "-");
      assert Pow10(3) == 1000 && Pow10(4) == 10000;
      LongitudDecimalExacta(f.anio, 4);
      assert Longitud(ps[7..]) == 12;
      assert Longitud(ps[6..]) == 14;
      assert Longitud(ps[5..]) == 16;
      assert Longitud(ps[4..]) == 18;
      assert Longitud(ps[3..]) == 20;
      assert Longitud(ps[2..]) == 22;
      assert Longitud(ps[1..]) == 26;
      assert Longitud(ps) == 35;
    }
  }
}
