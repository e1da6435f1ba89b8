/** The Python operations the exporter applies to decoded JSON values —
    `x[key]`, `x[0]`, `x.get(key, default)`, `for e in x`, `str(x)` and the
    receiver check of `x.replace(...)` — with the exception each raises on a
    value of the wrong shape. */
module Access {
  import opened Errors
  import opened JsonValues

  /** `x[key]` with a string key: a dict gives the stored value or KeyError;
      every other value raises TypeError. */
  function Subscript(x: Json, key: string): (r: Result<Json>)
    ensures r.Ok? <==> x.JObj? && key in Keys(x.fields)
    ensures r.Ok? ==> (key, r.value) in x.fields
    ensures x.JObj? && r.Err? ==> r.error == KeyError(key)
    ensures !x.JObj? ==> r == Err(TypeError)
  {
    match x
    case JObj(fields) =>
      (match Lookup(fields, key)
       case Some(v) => Ok(v)
       case None => Err(KeyError(key)))
    case _ => Err(TypeError)
  }

  /** `x[0]`: the first element of a list, the first character of a string,
      IndexError when either is empty, KeyError on a dict (JSON keys are
      strings, never 0), TypeError otherwise. */
  function First(x: Json): (r: Result<Json>)
    ensures r.Ok? <==> (x.JArr? && x.items != []) || (x.JStr? && x.s != [])
    ensures x.JArr? && r.Ok? ==> r.value == x.items[0]
    ensures x.JStr? && r.Ok? ==> r.value == JStr([x.s[0]])
    ensures (x.JArr? && x.items == []) || (x.JStr? && x.s == []) ==> r == Err(IndexError)
    ensures x.JObj? ==> r == Err(KeyError("0"))
    ensures !x.JArr? && !x.JStr? && !x.JObj? ==> r == Err(TypeError)
  {
    match x
    case JArr(items) => if items == [] then Err(IndexError) else Ok(items[0])
    case JStr(s) => if s == [] then Err(IndexError) else Ok(JStr([s[0]]))
    case JObj(_) => Err(KeyError("0"))   // Python's KeyError(0) carries the int 0; the key is shown as text here
    case _ => Err(TypeError)
  }

  /** `x.get(key, default)`: only dicts have `get`. */
  function Get(x: Json, key: string, default: Json): (r: Result<Json>)
    ensures r.Ok? <==> x.JObj?
    ensures x.JObj? && key in Keys(x.fields) ==> r == Subscript(x, key)
    ensures x.JObj? && key !in Keys(x.fields) ==> r == Ok(default)
  {
    match x
    case JObj(fields) =>
      (match Lookup(fields, key)
       case Some(v) => Ok(v)
       case None => Ok(default))
    case _ => Err(AttributeError("get"))
  }

  /** The elements a `for` loop visits: a list's items, a dict's keys, a
      string's one-character strings; null, booleans and numbers are not
      iterable. */
  function Iterate(x: Json): (r: Result<seq<Json>>)
    ensures r.Ok? <==> x.JArr? || x.JObj? || x.JStr?
    ensures x.JArr? ==> r == Ok(x.items)
    ensures x.JObj? ==> |r.value| == |x.fields| && forall i :: 0 <= i < |x.fields| ==> r.value[i] == JStr(x.fields[i].0)
    ensures x.JStr? ==> |r.value| == |x.s| && forall i :: 0 <= i < |x.s| ==> r.value[i] == JStr([x.s[i]])
  {
    match x
    case JArr(items) => Ok(items)
    case JObj(fields) => Ok(seq(|fields|, i requires 0 <= i < |fields| => JStr(fields[i].0)))
    case JStr(s) => Ok(seq(|s|, i requires 0 <= i < |s| => JStr([s[i]])))
    case _ => Err(TypeError)
  }

  /** The receiver of `.replace(...)`: only a str has that method. */
  function AsText(x: Json): (r: Result<string>)
    ensures r.Ok? <==> x.JStr?
    ensures r.Ok? ==> x == JStr(r.value)
  {
    match x
    case JStr(s) => Ok(s)
    case _ => Err(AttributeError("replace"))
  }

  predicate IsDigit(c: char)
  {
    '0' <= c <= '9'
  }

  /** The decimal digits of a natural number, most significant first, with no
      leading zero. */
  function Decimal(n: nat): (s: string)
    ensures |s| >= 1
    ensures forall i :: 0 <= i < |s| ==> IsDigit(s[i])
    ensures |s| > 1 ==> s[0] != '0'
  {
    if n < 10 then [Digit(n)] else Decimal(n / 10) + [Digit(n % 10)]
  }

  function Digit(d: nat): (c: char)
    requires d < 10
    ensures IsDigit(c)
  {
    ['0', '1', '2', '3', '4', '5', '6', '7', '8', '9'][d]
  }

  /** The number a string of decimal digits denotes. */
  function DigitsValue(s: string): nat
    requires forall i :: 0 <= i < |s| ==> IsDigit(s[i])
  {
    if s == [] then 0 else 10 * DigitsValue(s[..|s| - 1]) + DigitValue(s[|s| - 1])
  }

  function DigitValue(c: char): (d: nat)
    requires IsDigit(c)
    ensures d < 10 && Digit(d) == c
  {
    c as int - '0' as int
  }

  /** Reading the decimal text of a number back gives the number. */
  lemma {:induction false} DecimalRoundTrip(n: nat)
    ensures DigitsValue(Decimal(n)) == n
  {
    var s := Decimal(n);
    if n < 10 {
      assert s == [Digit(n)];
      DigitRoundTrip(n);
    } else {
      assert s == Decimal(n / 10) + [Digit(n % 10)];
      assert s[..|s| - 1] == Decimal(n / 10);
      DigitRoundTrip(n % 10);
      DecimalRoundTrip(n / 10);
    }
  }

  lemma DigitRoundTrip(d: nat)
    requires d < 10
    ensures DigitValue(Digit(d)) == d
  {
  }

  /** `str(x)` (what an f-string inserts) for a scalar: None, True, False, the
      decimal text of an int with a leading '-' when negative, a str itself.
      The repr of a list or dict is not modelled. */
  function Str(x: Json): (r: Result<string>)
    ensures r.Ok? <==> !x.JArr? && !x.JObj?
    ensures x.JNull? ==> r == Ok("None")
    ensures x.JBool? ==> r == Ok(if x.b then "True" else "False")
    ensures x.JStr? ==> r == Ok(x.s)
    ensures x.JNum? && x.n >= 0 ==> r == Ok(Decimal(x.n))
    ensures x.JNum? && x.n < 0 ==> r == Ok("-" + Decimal(-x.n))
  {
    match x
    case JNull => Ok("None")
    case JBool(b) => Ok(if b then "True" else "False")
    case JNum(n) => Ok(if n < 0 then "-" + Decimal(-n) else Decimal(n))
    case JStr(s) => Ok(s)
    case _ => Err(ReprNotModelled)
  }
}
