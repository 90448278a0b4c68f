/**
 * Parsed JSON values, as `json.load` hands them to the loader, and the few
 * Python built-ins the loader applies to them: `dict.get`, truthiness,
 * `int(...)` and `Decimal(...)`.
 */
module ParsedJson {
  import opened Wrappers

  /**
   * A JSON value; integers and floats stay apart, as `json.load` keeps them. A
   * float is the value of its decimal text as `str(x)` writes it back.
   */
  datatype Json =
    | JNull
    | JBool(b: bool)
    | JInt(i: int)
    | JFloat(f: real)
    | JStr(s: string)
    | JArr(items: seq<Json>)
    | JObj(fields: map<string, Json>)

  /** `d.get(key)`: an absent key reads as `None`. */
  function Get(fields: map<string, Json>, key: string): Json {
    if key in fields then fields[key] else JNull
  }

  /** `d.get(key, default)`: the default stands in only for an absent key, not for a stored null. */
  function GetOr(fields: map<string, Json>, key: string, default: Json): Json {
    if key in fields then fields[key] else default
  }

  /** Python truthiness: `None`, `False`, zero and empty containers are false. */
  predicate Truthy(j: Json) {
    match j
    case JNull => false
    case JBool(b) => b
    case JInt(i) => i != 0
    case JFloat(f) => f != 0.0
    case JStr(s) => s != ""
    case JArr(items) => items != []
    case JObj(fields) => fields != map[]
  }

  predicate AllDigits(s: string) {
    forall i :: 0 <= i < |s| ==> '0' <= s[i] <= '9'
  }

  /** The value of a string of decimal digits (0 for the empty string). */
  function DigitsValue(s: string): (n: nat)
    requires AllDigits(s)
  {
    if s == [] then 0 else 10 * DigitsValue(s[..|s| - 1]) + (s[|s| - 1] as int - '0' as int)
  }

  function Pow10(n: nat): (p: nat)
    ensures p >= 1
  {
    if n == 0 then 1 else 10 * Pow10(n - 1)
  }

  /** The index of the first `c` in `s`, or `|s|` when there is none. */
  function IndexOf(s: string, c: char): (k: nat)
    ensures k <= |s|
    ensures k < |s| ==> s[k] == c
    ensures forall j :: 0 <= j < k ==> s[j] != c
  {
    if s == [] then 0
    else if s[0] == c then 0
    else 1 + IndexOf(s[1..], c)
  }

  /** Splits off an optional leading sign: the factor it stands for and the rest. */
  function Sign(s: string): (int, string) {
    if |s| > 0 && s[0] == '-' then (-1, s[1..])
    else if |s| > 0 && s[0] == '+' then (1, s[1..])
    else (1, s)
  }

  /** `int(s)`: an optional sign followed by at least one decimal digit. */
  function ParseInt(s: string): (r: Result<int>)
    ensures r.Ok? ==> s != [] && (s[0] == '-' || s[0] == '+' || '0' <= s[0] <= '9')
    ensures r.Ok? ==> forall i :: 1 <= i < |s| ==> '0' <= s[i] <= '9'
    ensures r.Ok? && r.value < 0 ==> s[0] == '-'
    ensures r.Ok? <==> Sign(s).1 != [] && AllDigits(Sign(s).1)
    ensures s != [] && AllDigits(s) ==> r == Ok(DigitsValue(s))
  {
    var (sign, digits) := Sign(s);
    if digits != [] && AllDigits(digits) then Ok(if sign < 0 then -(DigitsValue(digits) as int) else DigitsValue(digits)) else Err
  }

  /** A character that may appear in the text `Decimal` reads. */
  predicate NumberChar(c: char) {
    '0' <= c <= '9' || c == '.' || c == '+' || c == '-'
  }

  /**
   * The unsigned text `Decimal` reads: digits with at most one point, neither
   * empty nor a point alone.
   */
  predicate DecimalText(b: string) {
    && b != [] && b != "."
    && (forall i :: 0 <= i < |b| ==> b[i] == '.' || '0' <= b[i] <= '9')
    && forall i, j :: 0 <= i < j < |b| ==> b[i] != '.' || b[j] != '.'
  }

  /** `Decimal(s)`: an optional sign, then the unsigned text. */
  function ParseDecimal(s: string): (r: Result<real>)
    ensures r.Ok? <==> DecimalText(Sign(s).1)
    ensures r.Ok? ==> forall i :: 0 <= i < |s| ==> NumberChar(s[i])
    ensures ParseInt(s).Ok? ==> r == Ok(ParseInt(s).value as real)
  {
    var (sign, body) := Sign(s);
    match UnsignedDecimal(body)
    case Err => Err
    case Ok(v) =>
      SignedNumberChars(s);
      assert ParseInt(s).Ok? ==> v == DigitsValue(body) as real by {
        if ParseInt(s).Ok? {
          UnsignedDigits(body);
        }
      }
      Ok(if sign < 0 then -v else v)
  }

  /** `Decimal` of the text after the sign: the digits before the first point, and those after it. */
  function UnsignedDecimal(body: string): (r: Result<real>)
    ensures r.Ok? <==> DecimalText(body)
  {
    var k := IndexOf(body, '.');
    var whole, fraction := body[..k], if k < |body| then body[k + 1..] else "";
    PointShape(body);
    if AllDigits(whole) && AllDigits(fraction) && |whole| + |fraction| > 0 then
      Ok(PointValue(whole, fraction))
    else Err
  }

  /** The value of the digits `whole`, a point, and the digits `fraction`. */
  function PointValue(whole: string, fraction: string): real
    requires AllDigits(whole) && AllDigits(fraction)
  {
    DigitsValue(whole) as real + DigitsValue(fraction) as real / Pow10(|fraction|) as real
  }

  /** Splitting at the first point leaves two digit strings, not both empty, exactly for `DecimalText`. */
  lemma PointShape(body: string)
    ensures var k := IndexOf(body, '.');
            var whole, fraction := body[..k], if k < |body| then body[k + 1..] else "";
            AllDigits(whole) && AllDigits(fraction) && |whole| + |fraction| > 0 <==> DecimalText(body)
  {
    var k := IndexOf(body, '.');
    var whole, fraction := body[..k], if k < |body| then body[k + 1..] else "";
    if AllDigits(whole) && AllDigits(fraction) && |whole| + |fraction| > 0 {
      forall i | 0 <= i < |body| && i != k
        ensures '0' <= body[i] <= '9'
      {
        if i < k {
          assert body[i] == whole[i];
        } else {
          assert body[i] == fraction[i - k - 1];
        }
      }
    }
    if DecimalText(body) {
      assert AllDigits(whole);
      forall i | 0 <= i < |fraction|
        ensures '0' <= fraction[i] <= '9'
      {
        assert fraction[i] == body[k + 1 + i];
      }
    }
  }

  /** A plain digit string has no point: all of it is the whole part. */
  lemma UnsignedDigits(body: string)
    requires body != [] && AllDigits(body)
    ensures UnsignedDecimal(body) == Ok(DigitsValue(body) as real)
  {
    NoPoint(body);
    assert body[..|body|] == body;
    assert PointValue(body, "") == DigitsValue(body) as real;
  }

  /** A string of digits has no decimal point. */
  lemma NoPoint(body: string)
    requires AllDigits(body)
    ensures IndexOf(body, '.') == |body|
  {
  }

  /** A text `Decimal` accepts is made of number characters. */
  lemma SignedNumberChars(s: string)
    requires DecimalText(Sign(s).1)
    ensures forall i :: 0 <= i < |s| ==> NumberChar(s[i])
  {
    var body := Sign(s).1;
    if s != body {
      assert s == [s[0]] + body;
      forall i | 1 <= i < |s|
        ensures NumberChar(s[i])
      {
        assert s[i] == body[i - 1];
      }
    }
  }

  /** The decimal digit character of `d`. */
  function DigitChar(d: int): char
    requires 0 <= d < 10
  {
    ('0' as int + d) as char
  }

  /** The decimal digits of `n`, most significant first, without leading zeros. */
  function DigitsText(n: nat): string {
    if n < 10 then [DigitChar(n)] else DigitsText(n / 10) + [DigitChar(n % 10)]
  }

  /** `str(n)` of a Python integer. */
  function IntText(n: int): string {
    if n < 0 then "-" + DigitsText(-n) else DigitsText(n)
  }

  /** Reading the digits of `n` back gives `n`. */
  lemma {:induction false} DigitsTextValue(n: nat)
    ensures DigitsText(n) != [] && AllDigits(DigitsText(n))
    ensures DigitsValue(DigitsText(n)) == n
  {
    var s := DigitsText(n);
    if n >= 10 {
      DigitsTextValue(n / 10);
      assert s[..|s| - 1] == DigitsText(n / 10);
    }
  }

  /** `int(str(n)) == n`: the integer parser reads back every integer's text. */
  lemma ParseIntText(n: int)
    ensures ParseInt(IntText(n)) == Ok(n)
  {
    var digits := DigitsText(if n < 0 then -n else n);
    DigitsTextValue(if n < 0 then -n else n);
    if n < 0 {
      assert IntText(n)[1..] == digits;
      assert Sign(IntText(n)) == (-1, digits);
    } else {
      assert '0' <= digits[0] <= '9';
      assert Sign(IntText(n)) == (1, digits);
    }
  }

  /** An explicit sign in front of digits: `+` changes nothing, `-` negates. */
  lemma ParseIntSigned(d: string)
    requires d != [] && AllDigits(d)
    ensures ParseInt("+" + d) == ParseInt(d) == Ok(DigitsValue(d))
    ensures ParseInt("-" + d) == Ok(-(DigitsValue(d) as int))
  {
    assert ("+" + d)[1..] == d && ("-" + d)[1..] == d;
    assert '0' <= d[0] <= '9';
  }

  /** A leading zero adds nothing to the value of a digit string. */
  lemma {:induction false} DigitsValueLeadingZero(d: string)
    requires AllDigits(d)
    ensures AllDigits("0" + d) && DigitsValue("0" + d) == DigitsValue(d)
  {
    if d != [] {
      var init := d[..|d| - 1];
      DigitsValueLeadingZero(init);
      assert ("0" + d)[..|d|] == "0" + init;
    }
  }

  /** `int("0" + d) == int(d)`: leading zeros are accepted and ignored. */
  lemma ParseIntLeadingZero(d: string)
    requires d != [] && AllDigits(d)
    ensures ParseInt("0" + d) == ParseInt(d)
  {
    DigitsValueLeadingZero(d);
  }

  lemma AllDigitsAppend(w: string, f: string)
    requires AllDigits(w) && AllDigits(f)
    ensures AllDigits(w + f)
  {
    forall i | 0 <= i < |w + f|
      ensures '0' <= (w + f)[i] <= '9'
    {
      if i >= |w| { assert (w + f)[i] == f[i - |w|]; }
    }
  }

  /** The value of two digit strings written one after the other. */
  lemma {:induction false} DigitsValueAppend(w: string, f: string)
    requires AllDigits(w) && AllDigits(f)
    ensures AllDigits(w + f) && DigitsValue(w + f) == DigitsValue(w) * Pow10(|f|) + DigitsValue(f)
  {
    AllDigitsAppend(w, f);
    if f == [] {
      assert w + f == w;
    } else {
      var init := f[..|f| - 1];
      var d := f[|f| - 1] as int - '0' as int;
      assert AllDigits(init);
      DigitsValueAppend(w, init);
      var wf := w + f;
      assert wf[..|wf| - 1] == w + init;
      AppendDigit(DigitsValue(w), Pow10(|init|), DigitsValue(init), d);
    }
  }

  /** One more digit `d` behind `x` shifted by `q` and a tail worth `v`. */
  lemma AppendDigit(x: int, q: int, v: int, d: int)
    ensures 10 * (x * q + v) + d == x * (10 * q) + (10 * v + d)
  {
  }

  /** The first point of `w + "." + f` is the one between them when `w` is digits. */
  lemma PointAfterDigits(w: string, f: string)
    requires AllDigits(w)
    ensures IndexOf(w + "." + f, '.') == |w|
  {
    assert (w + "." + f)[|w|] == '.';
  }

  /**
   * `Decimal(w + "." + f)` for digit strings: the integer the digits spell
   * together, divided by ten for every fraction digit.
   */
  lemma ParseDecimalPoint(w: string, f: string)
    requires AllDigits(w) && AllDigits(f) && |w| + |f| > 0
    ensures ParseInt(w + f).Ok?
    ensures ParseDecimal(w + "." + f) == Ok(ParseInt(w + f).value as real / Pow10(|f|) as real)
  {
    PointSplit(w, f);
    assert ParseInt(w + f) == Ok(DigitsValue(w + f)) by {
      AllDigitsAppend(w, f);
    }
    PointValueShift(w, f);
  }

  /** The two sides of the point, read as one digit string shifted back by the fraction's length. */
  lemma PointValueShift(w: string, f: string)
    requires AllDigits(w) && AllDigits(f)
    ensures AllDigits(w + f)
    ensures PointValue(w, f) == DigitsValue(w + f) as real / Pow10(|f|) as real
  {
    AllDigitsAppend(w, f);
    DigitsValueAppend(w, f);
    ShiftBack(DigitsValue(w + f), DigitsValue(w), DigitsValue(f), Pow10(|f|));
  }

  /** `w + "." + f` splits at its point into `w` and `f`, with no sign. */
  lemma PointSplit(w: string, f: string)
    requires AllDigits(w) && AllDigits(f) && |w| + |f| > 0
    ensures ParseDecimal(w + "." + f) == Ok(PointValue(w, f))
  {
    var s := w + "." + f;
    assert Sign(s) == (1, s) by {
      if w != [] { assert s[0] == w[0]; } else { assert s[0] == '.'; }
    }
    PointAfterDigits(w, f);
    assert s[..|w|] == w && s[|w| + 1..] == f;
    UnsignedPoint(s, w, f);
  }

  /** An unsigned text with its first point after `whole`: its value is `PointValue` of the two sides. */
  lemma UnsignedPoint(s: string, whole: string, fraction: string)
    requires IndexOf(s, '.') == |whole| < |s|
    requires s[..|whole|] == whole && s[|whole| + 1..] == fraction
    requires AllDigits(whole) && AllDigits(fraction) && |whole| + |fraction| > 0
    ensures UnsignedDecimal(s) == Ok(PointValue(whole, fraction))
  {
  }

  /**
   * A sign in front of an unsigned text: `+` changes nothing, `-` negates the
   * value, and either way the text is accepted or rejected as without it.
   */
  lemma ParseDecimalSigned(t: string)
    requires Sign(t) == (1, t)
    ensures ParseDecimal("+" + t) == ParseDecimal(t)
    ensures ParseDecimal("-" + t) == (if ParseDecimal(t).Ok? then Ok(-ParseDecimal(t).value) else Err)
  {
    SignThenUnsigned(t);
    PlusSign(t);
    SignThenUnsigned("+" + t);
    MinusSign(t);
    Negated("-" + t, t);
  }

  /** A text whose sign is `-` is worth minus the unsigned text after it. */
  lemma Negated(s: string, t: string)
    requires Sign(s) == (-1, t) && Sign(t) == (1, t)
    ensures ParseDecimal(s) == if ParseDecimal(t).Ok? then Ok(-ParseDecimal(t).value) else Err
  {
    SignThenUnsigned(s);
    SignThenUnsigned(t);
  }

  /** `Decimal` reads the sign, then the unsigned text. */
  lemma SignThenUnsigned(s: string)
    ensures var (sign, body) := Sign(s);
            ParseDecimal(s) == match UnsignedDecimal(body)
                               case Ok(v) => Ok(if sign < 0 then -v else v)
                               case Err => Err
  {
  }

  /** A leading `+` is split off as the factor 1. */
  lemma PlusSign(t: string)
    ensures Sign("+" + t) == (1, t)
  {
    assert ("+" + t)[1..] == t;
  }

  /** A leading `-` is split off as the factor -1. */
  lemma MinusSign(t: string)
    ensures Sign("-" + t) == (-1, t)
  {
    assert ("-" + t)[1..] == t;
  }

  /** Dividing `x * q + y` by `q` gives back `x`, plus the fraction `y / q`. */
  lemma ShiftBack(n: int, x: int, y: int, q: int)
    requires q > 0 && n == x * q + y
    ensures n as real / q as real == x as real + y as real / q as real
  {
    assert n as real == x as real * q as real + y as real;
  }

  /** `Decimal(str(n)) == n`: the decimal parser reads back every integer's text. */
  lemma ParseDecimalText(n: int)
    ensures ParseDecimal(IntText(n)) == Ok(n as real)
  {
    ParseIntText(n);
  }

  /** `int(x)` of a float: truncation toward zero. */
  function Truncate(f: real): (n: int)
    ensures f >= 0.0 ==> n as real <= f < n as real + 1.0
    ensures f < 0.0 ==> n as real - 1.0 < f <= n as real
  {
    if f >= 0.0 then f.Floor else -((-f).Floor)
  }

  /** `int(x)`: raises for `None`, lists, objects and malformed strings. */
  function IntOf(j: Json): (r: Result<int>)
    ensures j.JNull? || j.JArr? || j.JObj? ==> r.Err?
    ensures j.JInt? ==> r == Ok(j.i)
    ensures j.JBool? ==> r == Ok(if j.b then 1 else 0)
    ensures j.JFloat? ==> r == Ok(Truncate(j.f))
    ensures j.JStr? ==> r == ParseInt(j.s)
  {
    match j
    case JBool(b) => Ok(if b then 1 else 0)
    case JInt(i) => Ok(i)
    case JFloat(f) => Ok(Truncate(f))
    case JStr(s) => ParseInt(s)
    case _ => Err
  }

  /**
   * `Decimal(x)`: a bool counts as the integer it stands for. A float is taken
   * at the value of its decimal text (see `JFloat`).
   */
  function DecimalOf(j: Json): (r: Result<real>)
    ensures j.JNull? || j.JArr? || j.JObj? ==> r.Err?
    ensures j.JFloat? ==> r == Ok(j.f)
    ensures !j.JFloat? && IntOf(j).Ok? ==> r == Ok(IntOf(j).value as real)
    ensures j.JStr? ==> r == ParseDecimal(j.s)
  {
    match j
    case JBool(b) => Ok(if b then 1.0 else 0.0)
    case JInt(i) => Ok(i as real)
    case JFloat(f) => Ok(f)
    case JStr(s) => ParseDecimal(s)
    case _ => Err
  }

  /**
   * `Decimal(str(x))`: an integer goes through its text; the text of `None`, a
   * bool (`True`/`False`), a list or an object is not a number.
   */
  function DecimalOfText(j: Json): (r: Result<real>)
    ensures j.JInt? ==> r == Ok(j.i as real)
    ensures j.JFloat? ==> r == Ok(j.f)
    ensures j.JStr? ==> r == ParseDecimal(j.s)
    ensures j.JNull? || j.JBool? || j.JArr? || j.JObj? ==> r.Err?
  {
    match j
    case JInt(i) => ParseDecimalText(i); ParseDecimal(IntText(i))
    case JFloat(f) => Ok(f)
    case JStr(s) => ParseDecimal(s)
    case _ => Err
  }
}
