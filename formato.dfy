/**
 * The two presentation helpers of the calculator: rounding a quantity to the
 * nearest integer, and rendering an amount of soles as "S/ " followed by the
 * rounded integer with '.' between groups of three digits.
 *
 * Values are reals; the rounding is the round-half-to-even rule that Python's
 * built-in round applies to a value without a digits argument.
 */
module Formato {

  // ---------------------------------------------------------------------------
  // Rounding (redondear_cantidad)
  // ---------------------------------------------------------------------------

  /** True when v lies exactly halfway between two integers. */
  predicate EsEmpate(v: real) {
    v - v.Floor as real == 0.5
  }

  /**
   * Rounds to the nearest integer; a value exactly halfway between two
   * integers goes to the even one.
   */
  function RedondearCantidad(v: real): (r: int)
    ensures v - 0.5 <= r as real <= v + 0.5
    ensures EsEmpate(v) ==> r % 2 == 0
    ensures !EsEmpate(v) ==> v - 0.5 < r as real < v + 0.5
  {
    var f := v.Floor;
    var d := v - f as real;
    if d < 0.5 then f
    else if d > 0.5 then f + 1
    else if f % 2 == 0 then f
    else f + 1
  }

  /**
   * The two properties in RedondearCantidad's contract determine its result:
   * any integer within 1/2 of v that is even when v is a tie is that result.
   */
  lemma RedondearCantidadUnica(v: real, k: int)
    requires v - 0.5 <= k as real <= v + 0.5
    requires EsEmpate(v) ==> k % 2 == 0
    ensures k == RedondearCantidad(v)
  {
  }

  /** Rounding an integer gives that integer back. */
  lemma RedondearEntero(n: int)
    ensures RedondearCantidad(n as real) == n
  {
    RedondearCantidadUnica(n as real, n);
  }

  // ---------------------------------------------------------------------------
  // Decimal digits
  // ---------------------------------------------------------------------------

  predicate EsDigito(c: char) {
    '0' <= c <= '9'
  }

  predicate SoloDigitos(s: string) {
    forall i :: 0 <= i < |s| ==> EsDigito(s[i])
  }

  function CaracterDigito(d: int): (c: char)
    requires 0 <= d < 10
    ensures EsDigito(c) && ValorDigito(c) == d
  {
    (48 + d) as char
  }

  function ValorDigito(c: char): (d: int)
    requires EsDigito(c)
    ensures 0 <= d < 10
  {
    c as int - 48
  }

  /** The value of a string of decimal digits, most significant first. */
  function LeerDigitos(s: string): nat
    requires SoloDigitos(s)
  {
    if s == [] then 0 else 10 * LeerDigitos(s[..|s| - 1]) + ValorDigito(s[|s| - 1])
  }

  /** The decimal form of n, as Python's str of a non-negative int. */
  function Digitos(n: nat): (s: string)
    ensures |s| > 0 && SoloDigitos(s)
  {
    if n < 10 then [CaracterDigito(n)] else Digitos(n / 10) + [CaracterDigito(n % 10)]
  }

  /**
   * Digitos is the decimal form: reading it back gives n, and it has no
   * leading zero except for 0 itself, which is "0".
   */
  lemma {:induction false} DigitosCorrectos(n: nat)
    ensures LeerDigitos(Digitos(n)) == n
    ensures Digitos(n)[0] == '0' <==> n == 0
    ensures n == 0 ==> Digitos(n) == "0"
  {
    if n >= 10 {
      DigitosCorrectos(n / 10);
      var s := Digitos(n);
      assert s[..|s| - 1] == Digitos(n / 10);
    }
  }

  /** A digit string without a leading zero is the decimal form of its value. */
  lemma {:induction false} DigitosDeLectura(s: string)
    requires |s| > 0 && SoloDigitos(s) && (s[0] != '0' || s == "0")
    ensures Digitos(LeerDigitos(s)) == s
  {
    if |s| > 1 {
      var p := s[..|s| - 1];
      DigitosDeLectura(p);
      DigitosCorrectos(LeerDigitos(p));
      assert p[0] == s[0];
      assert s == p + [s[|s| - 1]];
    }
  }

  // ---------------------------------------------------------------------------
  // Thousands grouping
  // ---------------------------------------------------------------------------

  /**
   * Digit groups separated by '.': a first group of one to three digits,
   * followed by any number of '.'-and-three-digit groups.
   */
  predicate Agrupado(t: string)
    decreases |t|
  {
    if |t| <= 3 then |t| > 0 && SoloDigitos(t)
    else |t| > 4 && t[|t| - 4] == '.' && SoloDigitos(t[|t| - 3..]) && Agrupado(t[..|t| - 4])
  }

  /** The string with every '.' removed. */
  function QuitarPuntos(t: string): (r: string)
    ensures |r| <= |t|
  {
    if t == [] then []
    else if t[|t| - 1] == '.' then QuitarPuntos(t[..|t| - 1])
    else QuitarPuntos(t[..|t| - 1]) + [t[|t| - 1]]
  }

  lemma {:induction false} QuitarPuntosConcat(a: string, b: string)
    ensures QuitarPuntos(a + b) == QuitarPuntos(a) + QuitarPuntos(b)
    decreases |b|
  {
    if b == [] {
      assert a + b == a;
    } else {
      assert (a + b)[..|a + b| - 1] == a + b[..|b| - 1];
      QuitarPuntosConcat(a, b[..|b| - 1]);
    }
  }

  lemma {:induction false} QuitarPuntosDeDigitos(s: string)
    requires SoloDigitos(s)
    ensures QuitarPuntos(s) == s
  {
    if s != [] {
      QuitarPuntosDeDigitos(s[..|s| - 1]);
    }
  }

  /** Removing the dots from g, a '.', and a digit group q leaves g's digits followed by q. */
  lemma QuitarPuntosGrupo(g: string, q: string)
    requires SoloDigitos(q)
    ensures QuitarPuntos(g + "." + q) == QuitarPuntos(g) + q
  {
    QuitarPuntosConcat(g + ".", q);
    QuitarPuntosConcat(g, ".");
    QuitarPuntosDeDigitos(q);
    assert QuitarPuntos(".") == [];
  }

  /**
   * The digits of a grouped string, with its first character kept in front:
   * removing the dots leaves a non-empty digit string.
   */
  lemma {:induction false} DigitosDeAgrupado(t: string)
    requires Agrupado(t)
    ensures |QuitarPuntos(t)| > 0 && SoloDigitos(QuitarPuntos(t))
    ensures QuitarPuntos(t)[0] == t[0]
    decreases |t|
  {
    if |t| <= 3 {
      QuitarPuntosDeDigitos(t);
    } else {
      var g := t[..|t| - 4];
      var q := t[|t| - 3..];
      DigitosDeAgrupado(g);
      assert t == g + "." + q;
      QuitarPuntosGrupo(g, q);
    }
  }

  /**
   * Inserts '.' between groups of three digits counted from the right, as the
   * ',' format option followed by replacing ',' with '.' does to a digit string.
   */
  function AgruparMiles(s: string): (t: string)
    requires |s| > 0 && SoloDigitos(s)
    ensures |t| >= |s| && t[0] == s[0]
    decreases |s|
  {
    if |s| <= 3 then s else AgruparMiles(s[..|s| - 3]) + "." + s[|s| - 3..]
  }

  /**
   * The grouping is well formed, loses no digit and keeps the leading one:
   * removing its dots gives the digit string back.
   */
  lemma {:induction false} AgruparMilesCorrecto(s: string)
    requires |s| > 0 && SoloDigitos(s)
    ensures Agrupado(AgruparMiles(s))
    ensures QuitarPuntos(AgruparMiles(s)) == s
    ensures AgruparMiles(s)[0] == s[0]
    decreases |s|
  {
    if |s| <= 3 {
      QuitarPuntosDeDigitos(s);
    } else {
      var p := s[..|s| - 3];
      var q := s[|s| - 3..];
      AgruparMilesCorrecto(p);
      var g := AgruparMiles(p);
      AgrupadoConcat(g, q);
      QuitarPuntosGrupo(g, q);
      assert s == p + q;
    }
  }

  /** Appending '.' and a group of three digits to a grouped string keeps it grouped. */
  lemma AgrupadoConcat(g: string, q: string)
    requires Agrupado(g) && |q| == 3 && SoloDigitos(q)
    ensures Agrupado(g + "." + q)
  {
    var t := g + "." + q;
    assert t[..|t| - 4] == g && t[|t| - 3..] == q && t[|t| - 4] == '.';
  }

  /** Every grouped string is the grouping of its own digits. */
  lemma {:induction false} AgruparMilesDeQuitarPuntos(t: string)
    requires Agrupado(t)
    ensures |QuitarPuntos(t)| > 0 && SoloDigitos(QuitarPuntos(t))
    ensures AgruparMiles(QuitarPuntos(t)) == t
    decreases |t|
  {
    DigitosDeAgrupado(t);
    if |t| <= 3 {
      QuitarPuntosDeDigitos(t);
    } else {
      var g := t[..|t| - 4];
      var q := t[|t| - 3..];
      AgruparMilesDeQuitarPuntos(g);
      assert t == g + "." + q;
      QuitarPuntosGrupo(g, q);
      var s := QuitarPuntos(t);
      assert s[..|s| - 3] == QuitarPuntos(g);
      assert s[|s| - 3..] == q;
    }
  }

  // ---------------------------------------------------------------------------
  // Signed integers and the currency format (formatear_numero)
  // ---------------------------------------------------------------------------

  /**
   * The rendering of an integer with the ',' option and ',' replaced by '.':
   * an optional '-' followed by the grouped digits of the magnitude.
   */
  function FormatearEntero(n: int): (t: string)
    ensures |t| > 0 && (n < 0 <==> t[0] == '-')
  {
    var g := AgruparMiles(Digitos(if n < 0 then -n else n));
    if n < 0 then "-" + g else g
  }

  /** The part of a rendered integer after its sign. */
  function Magnitud(t: string): (u: string)
    ensures |u| <= |t|
  {
    if |t| > 0 && t[0] == '-' then t[1..] else t
  }

  /**
   * An optional '-', then digit groups as in Agrupado, with no leading zero
   * unless the whole number is "0", and no "-0".
   */
  predicate AgrupadoConSigno(t: string) {
    |t| > 0 &&
    if t[0] == '-' then Agrupado(t[1..]) && t[1] != '0'
    else Agrupado(t) && (t[0] != '0' || t == "0")
  }

  /** Reads back a string of the shape AgrupadoConSigno describes. */
  function LeerEntero(t: string): int
    requires AgrupadoConSigno(t)
  {
    DigitosDeAgrupado(Magnitud(t));
    var m: int := LeerDigitos(QuitarPuntos(Magnitud(t)));
    if t[0] == '-' then -m else m
  }

  /**
   * FormatearEntero's output is an optional '-' and grouped digits, and removing the
   * dots from the digits gives the decimal form of the magnitude.
   */
  lemma FormatearEnteroForma(n: int)
    ensures AgrupadoConSigno(FormatearEntero(n))
    ensures QuitarPuntos(Magnitud(FormatearEntero(n))) == Digitos(if n < 0 then -n else n)
  {
    var m := if n < 0 then -n else n;
    DigitosCorrectos(m);
    AgruparMilesCorrecto(Digitos(m));
    var t := FormatearEntero(n);
    assert Magnitud(t) == AgruparMiles(Digitos(m));
  }

  /** FormatearEntero loses nothing: reading its output back gives the integer. */
  lemma FormatearEnteroIdaVuelta(n: int)
    ensures AgrupadoConSigno(FormatearEntero(n)) && LeerEntero(FormatearEntero(n)) == n
  {
    FormatearEnteroForma(n);
    DigitosCorrectos(if n < 0 then -n else n);
  }

  /**
   * FormatearEntero reaches every AgrupadoConSigno string: rendering what LeerEntero reads
   * gives the string back, so the two are inverse bijections.
   */
  lemma FormatearEnteroDeLectura(t: string)
    requires AgrupadoConSigno(t)
    ensures FormatearEntero(LeerEntero(t)) == t
  {
    var u := Magnitud(t);
    AgruparMilesDeQuitarPuntos(u);
    DigitosDeAgrupado(u);
    var s := QuitarPuntos(u);
    if t[0] != '-' && t == "0" {
      QuitarPuntosDeDigitos(t);
    }
    DigitosDeLectura(s);
    DigitosCorrectos(LeerDigitos(s));
    if t[0] == '-' {
      assert t == "-" + u;
    }
  }

  /** formatear_numero: "S/ " followed by the rendering of the rounded value. */
  function FormatearNumero(valor: real): (r: string)
    ensures |r| > 3 && r[..3] == "S/ "
  {
    "S/ " + FormatearEntero(RedondearCantidad(valor))
  }

  /**
   * After "S/ " comes an optional '-' and digit groups separated by '.', the
   * first of one to three digits and the rest of three; without the dots the
   * digits are the decimal form of the rounded value's magnitude, and reading
   * the text back gives the rounded value.
   */
  lemma FormatearNumeroForma(valor: real)
    ensures var n := RedondearCantidad(valor); var t := FormatearNumero(valor)[3..];
      AgrupadoConSigno(t) && (t[0] == '-' <==> n < 0) &&
      QuitarPuntos(Magnitud(t)) == Digitos(if n < 0 then -n else n) &&
      LeerEntero(t) == n
  {
    var n := RedondearCantidad(valor);
    assert FormatearNumero(valor)[3..] == FormatearEntero(n);
    FormatearEnteroForma(n);
    FormatearEnteroIdaVuelta(n);
  }

  /** Two amounts render the same exactly when they round to the same integer. */
  lemma FormatearNumeroIgualSii(a: real, b: real)
    ensures FormatearNumero(a) == FormatearNumero(b) <==> RedondearCantidad(a) == RedondearCantidad(b)
  {
    FormatearNumeroForma(a);
    FormatearNumeroForma(b);
  }

  // ---------------------------------------------------------------------------
  // Worked values
  // ---------------------------------------------------------------------------

  /** Ties go to the even neighbour, on both sides of zero. */
  lemma RedondearEjemplos()
    ensures RedondearCantidad(2.5) == 2 && RedondearCantidad(3.5) == 4
    ensures RedondearCantidad(-2.5) == -2 && RedondearCantidad(0.4) == 0
    ensures RedondearCantidad(-1234567.5) == -1234568
  {
  }

  lemma DigitosEjemplo()
    ensures Digitos(1234) == "1234"
  {
  }

  lemma AgruparMilesEjemplo()
    ensures AgruparMiles("1234") == "1.234"
  {
  }

  /** The renderings of the feed cost and the revenue of the Tilapia scenario. */
  lemma FormatearEnteroEscenario()
    ensures FormatearEntero(3735) == "3.735" && FormatearEntero(9641) == "9.641"
  {
    assert Digitos(3735) == "3735";
    assert AgruparMiles("3735") == "3.735";
    assert Digitos(9641) == "9641";
    assert AgruparMiles("9641") == "9.641";
  }

  /** A negative amount of two groups: the sign, then "1.234". */
  lemma FormatearEnteroEjemplo()
    ensures FormatearEntero(-1234) == "-1.234"
  {
    DigitosEjemplo();
    AgruparMilesEjemplo();
  }
}
