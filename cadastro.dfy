/** The body fields of a registration request: Python truthiness (`all([...])`) and `str()`. */
module Cadastro {
  import opened Tipos

  /** A JSON value as `data.get(...)` returns it for latitude or longitude (floats are not modelled). */
  datatype Campo = Ausente | Nulo | Logico(b: bool) | Inteiro(n: int) | Texto(s: string)

  /** Python truthiness: `None`, `False`, `0` and `""` are falsy. */
  predicate Presente(c: Campo)
    ensures Presente(c) <==> c !in {Ausente, Nulo, Logico(false), Inteiro(0), Texto("")}
  {
    match c
    case Ausente => false
    case Nulo => false
    case Logico(b) => b
    case Inteiro(n) => n != 0
    case Texto(s) => s != ""
  }

  /** The email is a JSON string or missing. */
  predicate EmailPresente(email: Option<string>)
    ensures EmailPresente(email) <==> email !in {None, Some("")}
  {
    email.Some? && email.value != ""
  }

  /** `all([email, lat, lon])`. */
  predicate CamposCompletos(email: Option<string>, lat: Campo, lon: Campo)
    ensures CamposCompletos(email, lat, lon) ==> email.Some? && email.value != "" && Str(lat) != "" && Str(lon) != ""
  {
    EmailPresente(email) && Presente(lat) && Presente(lon)
  }

  function Digito(d: nat): (c: char)
    requires d < 10
    ensures '0' <= c <= '9'
  {
    (('0' as int) + d) as char
  }

  /** Decimal digits of a natural number, most significant first, no leading zeros. */
  function Digitos(n: nat): (r: string)
    ensures |r| > 0
    ensures forall i :: 0 <= i < |r| ==> '0' <= r[i] <= '9'
    ensures |r| > 1 ==> r[0] != '0'
  {
    if n < 10 then [Digito(n)] else Digitos(n / 10) + [Digito(n % 10)]
  }

  /** Python's `str()` of an int. */
  function Decimal(n: int): (r: string)
    ensures |r| > 0
  {
    if n < 0 then "-" + Digitos(-n) else Digitos(n)
  }

  /** Python's `str()` of the field, as `Inscrito(latitude=str(lat), ...)` stores it. */
  function Str(c: Campo): (r: string)
    ensures r == "" <==> c == Texto("")
  {
    match c
    case Ausente => "None"
    case Nulo => "None"
    case Logico(b) => if b then "True" else "False"
    case Inteiro(n) => Decimal(n)
    case Texto(s) => s
  }

  /** A field that passes validation is stored as a non-empty string. */
  lemma PresenteNaoVazio(c: Campo)
    requires Presente(c)
    ensures Str(c) != ""
  {
  }

  ghost predicate SoDigitos(s: string)
  {
    forall i :: 0 <= i < |s| ==> '0' <= s[i] <= '9'
  }

  /** Reads a string of decimal digits back to its value (the inverse of `Digitos`). */
  function LerDigitos(s: string): nat
    requires SoDigitos(s)
  {
    if s == [] then 0 else LerDigitos(s[..|s| - 1]) * 10 + ((s[|s| - 1] as int) - ('0' as int))
  }

  function LerDecimal(s: string): int
    requires |s| > 0
    requires s[0] == '-' ==> SoDigitos(s[1..])
    requires s[0] != '-' ==> SoDigitos(s)
  {
    if s[0] == '-' then -(LerDigitos(s[1..]) as int) else LerDigitos(s)
  }

  lemma {:induction false} LerDigitosDeDigitos(n: nat)
    ensures LerDigitos(Digitos(n)) == n
    decreases n
  {
    if n >= 10 {
      var p := Digitos(n / 10);
      assert Digitos(n) == p + [Digito(n % 10)];
      assert Digitos(n)[..|Digitos(n)| - 1] == p;
      LerDigitosDeDigitos(n / 10);
    }
  }

  /** `str()` of an int loses nothing: two coordinates given as distinct ints are stored as distinct strings. */
  lemma DecimalIdaVolta(n: int)
    ensures var s := Decimal(n); (s[0] == '-' ==> SoDigitos(s[1..])) && (s[0] != '-' ==> SoDigitos(s))
    ensures LerDecimal(Decimal(n)) == n
  {
    if n < 0 {
      assert Decimal(n)[1..] == Digitos(-n);
      LerDigitosDeDigitos(-n);
    } else {
      LerDigitosDeDigitos(n);
    }
  }

  lemma DecimalInjetivo(a: int, b: int)
    requires a != b
    ensures Decimal(a) != Decimal(b)
  {
    DecimalIdaVolta(a);
    DecimalIdaVolta(b);
  }
}
