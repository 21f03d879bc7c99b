/** Small shared vocabulary: optional values, sequence prefixes and decimal numerals. */
module Basics {

  datatype Option<+T> = None | Some(value: T)

  function Min(a: int, b: int): int {
    if a <= b then a else b
  }

  function Max(a: int, b: int): int {
    if a <= b then b else a
  }

  /** The entry of `m` at `k`, or `default` when there is none (C++ `operator[]` on a map of numbers). */
  function GetOr<K, V>(m: map<K, V>, k: K, default: V): V {
    if k in m then m[k] else default
  }

  /** One of the two sequences is a prefix of the other. */
  ghost predicate Comparable<T>(a: seq<T>, b: seq<T>) {
    a <= b || b <= a
  }

  lemma PrefixesComparable<T>(a: seq<T>, b: seq<T>, whole: seq<T>)
    requires a <= whole && b <= whole
    ensures Comparable(a, b)
  {
    if |a| <= |b| {
      assert a == whole[..|a|] == b[..|a|];
    } else {
      assert b == whole[..|b|] == a[..|b|];
    }
  }

  lemma MulLe(a: int, b: int, t: int)
    requires a <= b && t >= 0
    ensures a * t <= b * t
  {
    assert (b - a) * t >= 0;
  }

  /** Quotient and remainder are unique. */
  lemma DivMod(a: int, t: int, q: int, r: int)
    requires t > 0 && 0 <= r < t && a == q * t + r
    ensures a / t == q && a % t == r
  {
    var q', r' := a / t, a % t;
    assert a == q' * t + r';
    if q' < q {
      MulLe(q' + 1, q, t);
    } else if q < q' {
      MulLe(q + 1, q', t);
    }
  }

  const DIGITS := "0123456789"

  /** The decimal numeral of `n`, as `std::to_string` prints it. */
  function Decimal(n: nat): string {
    if n < 10 then [DIGITS[n]] else Decimal(n / 10) + [DIGITS[n % 10]]
  }

  lemma DigitsDistinct(a: nat, b: nat)
    requires a < 10 && b < 10 && DIGITS[a] == DIGITS[b]
    ensures a == b
  {
  }

  lemma DecimalLength(n: nat)
    ensures |Decimal(n)| >= 1
    ensures |Decimal(n)| == 1 <==> n < 10
  {
  }

  /** Different numbers have different numerals, so counters never reuse an id. */
  lemma {:induction false} DecimalInjective(a: nat, b: nat)
    requires Decimal(a) == Decimal(b)
    ensures a == b
  {
    var da, db := Decimal(a), Decimal(b);
    DecimalLength(a);
    DecimalLength(b);
    assert da[|da| - 1] == DIGITS[a % 10] && db[|db| - 1] == DIGITS[b % 10];
    DigitsDistinct(a % 10, b % 10);
    if a >= 10 {
      assert da[..|da| - 1] == Decimal(a / 10) && db[..|db| - 1] == Decimal(b / 10);
      DecimalInjective(a / 10, b / 10);
    }
  }
}
