/** Shared vocabulary for the model: optional values and results, a JSON value
    type for the JSON documents the system passes around, decimal formatting of
    naturals (`%d`), and the Java integer arithmetic the sources rely on. */
module Common {

  datatype Option<+T> = None | Some(value: T)

  datatype Result<+T, +E> = Success(value: T) | Failure(error: E)

  // ---------------------------------------------------------------------------
  // JSON values. A JSON object is a map from keys to values; a key that is
  // present with value JNull is distinct from an absent key, as in the JSON
  // libraries the sources use.

  datatype Json =
    | JNull
    | JBool(b: bool)
    | JNum(n: int)
    | JStr(s: string)
    | JArr(items: seq<Json>)
    | JObj(fields: map<string, Json>)

  type JsonObject = map<string, Json>

  /** `getValue(key)`: the stored value, or null when the key is absent. */
  function GetValue(obj: JsonObject, key: string): (v: Json)
    ensures key !in obj ==> v == JNull
    ensures key in obj ==> v == obj[key]
  {
    if key in obj then obj[key] else JNull
  }

  // ---------------------------------------------------------------------------
  // Decimal formatting of naturals, as `String.format("%d", n)` writes them.

  predicate IsDigit(c: char) { '0' <= c <= '9' }

  function DigitChar(d: nat): (c: char)
    requires d < 10
    ensures IsDigit(c) && c as int - '0' as int == d
  {
    ('0' as int + d) as char
  }

  function NatToString(n: nat): (s: string)
    ensures |s| >= 1
    ensures forall i :: 0 <= i < |s| ==> IsDigit(s[i])
    decreases n
  {
    if n < 10 then [DigitChar(n)] else NatToString(n / 10) + [DigitChar(n % 10)]
  }

  /** Reads back a string of decimal digits. */
  function DecimalValue(s: string): nat
    requires forall i :: 0 <= i < |s| ==> IsDigit(s[i])
  {
    if s == [] then 0
    else
      assert IsDigit(s[|s| - 1]);
      DecimalValue(s[..|s| - 1]) * 10 + (s[|s| - 1] as int - '0' as int)
  }

  lemma {:induction false} DecimalRoundTrip(n: nat)
    ensures DecimalValue(NatToString(n)) == n
    decreases n
  {
    var s := NatToString(n);
    if n >= 10 {
      DecimalRoundTrip(n / 10);
      assert s[..|s| - 1] == NatToString(n / 10);
    }
  }

  /** Distinct naturals are formatted as distinct strings. */
  lemma NatToStringInjective(m: nat, n: nat)
    requires NatToString(m) == NatToString(n)
    ensures m == n
  {
    DecimalRoundTrip(m);
    DecimalRoundTrip(n);
  }

  /** Two strings `p + NatToString(m)` and `p + NatToString(n)` with the same
      prefix `p` are equal only when m == n. */
  lemma SuffixedInjective(p: string, m: nat, n: nat)
    requires p + NatToString(m) == p + NatToString(n)
    ensures m == n
  {
    var a, b := p + NatToString(m), p + NatToString(n);
    assert a[|p|..] == NatToString(m);
    assert b[|p|..] == NatToString(n);
    NatToStringInjective(m, n);
  }

  // ---------------------------------------------------------------------------
  // Java integer arithmetic.

  const INT_MIN: int := -0x8000_0000
  const INT_MAX: int := 0x7fff_ffff
  const LONG_MIN: int := -0x8000_0000_0000_0000
  const LONG_MAX: int := 0x7fff_ffff_ffff_ffff

  /** A Java `int`. */
  type Int32 = x: int | INT_MIN <= x <= INT_MAX

  /** A Java `long`. */
  type Int64 = x: int | LONG_MIN <= x <= LONG_MAX

  /** Java's `%`: the remainder of division truncated toward zero, so the
      result takes the sign of the dividend (Dafny's `%` is Euclidean). */
  function JavaRem(a: int, b: int): (r: int)
    requires b != 0
    ensures -(if b < 0 then -b else b) < r < (if b < 0 then -b else b)
    ensures a >= 0 ==> r >= 0
    ensures a < 0 ==> r <= 0
  {
    var m := if b < 0 then -b else b;
    if a >= 0 then a % m else -((-a) % m)
  }

  /** Java's `Math.abs(int)`: the magnitude, except that the most negative
      `int` has none and is returned unchanged. */
  function JavaAbs(x: Int32): (r: Int32)
    ensures x != INT_MIN ==> r >= 0 && (r == x || r == -x)
    ensures x == INT_MIN ==> r == INT_MIN
  {
    if x == INT_MIN then INT_MIN else if x < 0 then -x else x
  }

  /** Wrap-around of a mathematical integer into Java's `long`. */
  function WrapLong(x: int): (r: Int64)
    ensures LONG_MIN <= x <= LONG_MAX ==> r == x
    ensures (r - x) % 0x1_0000_0000_0000_0000 == 0
  {
    (x - LONG_MIN) % 0x1_0000_0000_0000_0000 + LONG_MIN
  }

  /** Wrap-around of a mathematical integer into Java's `int` (`intValue()`). */
  function WrapInt(x: int): (r: Int32)
    ensures INT_MIN <= x <= INT_MAX ==> r == x
    ensures (r - x) % 0x1_0000_0000 == 0
  {
    (x - INT_MIN) % 0x1_0000_0000 + INT_MIN
  }
  // ---------------------------------------------------------------------------
  // Fresh identifiers, standing in for `UUID.randomUUID()`. Callers rely only
  // on `Next` returning an id that differs from every id issued before; this
  // implementation numbers the ids it hands out.

  const UUID_PREFIX: string := "uuid-"

  class UuidSource {
    var count: nat
    ghost var issued: set<string>

    ghost predicate Valid()
      reads this
    {
      issued == set i: nat | i < count :: UUID_PREFIX + NatToString(i)
    }

    constructor ()
      ensures Valid() && issued == {}
    {
      count := 0;
      issued := {};
    }

    /** A new identifier, never returned before by this source. */
    method Next() returns (id: string)
      requires Valid()
      modifies this
      ensures Valid()
      ensures id !in old(issued)
      ensures issued == old(issued) + {id}
    {
      id := UUID_PREFIX + NatToString(count);
      if id in issued {
        var i: nat :| i < count && UUID_PREFIX + NatToString(i) == id;
        SuffixedInjective(UUID_PREFIX, i, count);
        assert false;
      }
      count := count + 1;
      issued := issued + {id};
    }
  }
}
