/**
 * JSON-shaped values as `response.json()` produces them, with the few pieces
 * of Python semantics the bot relies on: truthiness, `dict.get`, and the
 * `str()` / `int()` pair on integers.
 *
 * A Python dict is modelled as an ordered list of key/value entries, so that
 * "the first key in iteration order" has a meaning. Floats are not modelled.
 */
module Values {
  import opened Wrappers

  datatype Value =
    | Null
    | Bool(b: bool)
    | Int(i: int)
    | Str(s: string)
    | List(items: seq<Value>)
    | Object(fields: seq<(string, Value)>)

  /** Python truthiness: `None`, `False`, `0` and empty containers are false. */
  predicate Truthy(v: Value) {
    match v
    case Null => false
    case Bool(b) => b
    case Int(i) => i != 0
    case Str(s) => s != []
    case List(items) => items != []
    case Object(fields) => fields != []
  }

  /** Position of the first entry whose key is `key`, or `|fields|` when there is none. */
  function FindKey(fields: seq<(string, Value)>, key: string): (j: nat)
    ensures j <= |fields|
    ensures forall k :: 0 <= k < j ==> fields[k].0 != key
    ensures j < |fields| ==> fields[j].0 == key
  {
    if fields == [] then 0
    else if fields[0].0 == key then 0
    else 1 + FindKey(fields[1..], key)
  }

  /** `d.get(key)`: the value stored under `key`, if any. */
  function Get(fields: seq<(string, Value)>, key: string): (r: Option<Value>)
    ensures r.None? <==> forall k :: 0 <= k < |fields| ==> fields[k].0 != key
    ensures r.Some? ==> (key, r.value) in fields
  {
    var j := FindKey(fields, key);
    if j < |fields| then Some(fields[j].1) else None
  }

  /** `d.get(key, default)`. */
  function GetOr(fields: seq<(string, Value)>, key: string, default: Value): Value {
    match Get(fields, key)
    case Some(v) => v
    case None => default
  }

  // ---------------------------------------------------------------------------
  // str() and int() on integers

  function DigitChar(d: nat): char
    requires d < 10
  {
    "0123456789"[d]
  }

  predicate IsDigit(c: char) {
    '0' <= c <= '9'
  }

  function DigitValue(c: char): nat
    requires IsDigit(c)
  {
    (c as int - '0' as int) as nat
  }

  /** The decimal digits of `n`, most significant first, without leading zeros. */
  function Natural(n: nat): (s: string)
    ensures s != []
    ensures forall k :: 0 <= k < |s| ==> IsDigit(s[k])
    ensures s[0] == '0' ==> n == 0
  {
    if n < 10 then [DigitChar(n)] else Natural(n / 10) + [DigitChar(n % 10)]
  }

  /** `str(i)` for a Python int. */
  function Decimal(i: int): string {
    if i < 0 then "-" + Natural(-i) else Natural(i)
  }

  function ParseNatural(s: string): nat
    requires forall k :: 0 <= k < |s| ==> IsDigit(s[k])
  {
    if s == [] then 0 else ParseNatural(s[..|s| - 1]) * 10 + DigitValue(s[|s| - 1])
  }

  /** `int(s)` for a string of decimal digits with an optional leading minus sign. */
  function ParseDecimal(s: string): Option<int> {
    if s != [] && s[0] == '-' then
      var digits := s[1..];
      if digits != [] && forall k :: 0 <= k < |digits| ==> IsDigit(digits[k])
      then var magnitude: int := ParseNatural(digits); Some(-magnitude)
      else None
    else if s != [] && forall k :: 0 <= k < |s| ==> IsDigit(s[k])
    then Some(ParseNatural(s))
    else None
  }

  lemma {:induction false} ParseNaturalInverse(n: nat)
    ensures ParseNatural(Natural(n)) == n
  {
    var s := Natural(n);
    if n >= 10 {
      ParseNaturalInverse(n / 10);
      assert s[..|s| - 1] == Natural(n / 10);
    }
  }

  /** `int(str(i)) == i`: the text sent for an integer field denotes that integer. */
  lemma DecimalRoundTrip(i: int)
    ensures ParseDecimal(Decimal(i)) == Some(i)
  {
    if i < 0 {
      var digits := Natural(-i);
      ParseNaturalInverse(-i);
      assert Decimal(i) == "-" + digits;
      assert ("-" + digits)[1..] == digits;
      assert ParseDecimal("-" + digits) == Some(i);
    } else {
      var digits := Natural(i);
      ParseNaturalInverse(i);
      assert IsDigit(digits[0]);
      assert ParseDecimal(digits) == Some(ParseNatural(digits));
    }
  }
}
