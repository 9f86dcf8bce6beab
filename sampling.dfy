/** The random draws of the generator, each replaced by a value the caller supplies.
    A draw whose range is a constant (`choice` over a fixed pool, `randrange` with
    literal bounds) is the drawn value itself, bounded by a precondition. A draw
    whose range depends on the database (`DataFrame.sample`, `randrange(1, ...)` on
    a stock figure, `random()` in the datetime helper) is a `Uniform` value: the
    fraction num/den in [0, 1) that `random()` would have returned. Every outcome
    of the source's draw is reachable this way (see `BelowCovers`). */
module Sampling {
  import opened Wrappers

  /** A value of `random()`, the fraction num/den, which lies in [0, 1). */
  datatype Uniform = Uniform(num: nat, den: nat)

  predicate IsUniform(u: Uniform) { u.num < u.den }

  lemma {:induction false} FloorBelow(num: nat, den: nat, n: nat)
    requires num < den && 0 < n
    ensures (num * n) / den < n
  {
    var q := (num * n) / den;
    assert q * den <= num * n;
    assert num * n < den * n by {
      assert (den - num) * n > 0;
    }
    assert q * den < n * den;
  }

  lemma AtLeastFactor(x: int, n: int)
    requires 0 < n && 1 <= x
    ensures n <= x * n
  {}

  /** Euclidean division has one quotient. */
  lemma {:induction false} DivUnique(x: int, n: int, q: int, r: int)
    requires 0 < n && x == q * n + r && 0 <= r < n
    ensures x / n == q
  {
    var q', r' := x / n, x % n;
    assert (q - q') * n == r' - r;
    if q - q' >= 1 { AtLeastFactor(q - q', n); }
    if q' - q >= 1 { AtLeastFactor(q' - q, n); }
  }

  /** A uniform index in [0, n), the way `randrange(n)` and `sample(n=1)` pick one. */
  function Below(u: Uniform, n: nat): (k: nat)
    requires IsUniform(u) && 0 < n
    ensures k < n
  {
    FloorBelow(u.num, u.den, n);
    (u.num * n) / u.den
  }

  /** Every index in [0, n) is the outcome of some draw. */
  lemma {:induction false} BelowCovers(n: nat, k: nat)
    requires k < n
    ensures IsUniform(Uniform(k, n)) && Below(Uniform(k, n), n) == k
  {
    DivUnique(k * n, n, k, 0);
  }

  /** `randrange(lo, hi)`: `None` is the ValueError Python raises on an empty range. */
  function RandRange(lo: int, hi: int, u: Uniform): (r: Option<int>)
    requires IsUniform(u)
    ensures r.Some? <==> lo < hi
    ensures r.Some? ==> lo <= r.value < hi
  {
    if hi <= lo then None else Some(lo + Below(u, hi - lo))
  }

  /** Every value of a non-empty range is drawn by some `u`. */
  lemma {:induction false} RandRangeCovers(lo: int, hi: int, v: int)
    requires lo <= v < hi
    ensures IsUniform(Uniform(v - lo, hi - lo)) && RandRange(lo, hi, Uniform(v - lo, hi - lo)) == Some(v)
  {
    BelowCovers(hi - lo, v - lo);
  }

  /** Lower and upper default bounds of `generate_random_datetime`,
      "2022-01-01 00:00:00" and "2022-12-31 00:00:00" read as UTC. */
  const DefaultMinDateTime: int := 1640995200
  const DefaultMaxDateTime: int := 1672444800

  /** `u * n` rounded down lies between 0 and `n`, whatever the sign of `n`;
      `n` itself is reached only when `n` is negative. */
  lemma {:induction false} FloorScaled(u: Uniform, n: int)
    requires IsUniform(u)
    ensures 0 < n ==> 0 <= (u.num * n) / u.den < n
    ensures n == 0 ==> (u.num * n) / u.den == 0
    ensures n < 0 ==> n <= (u.num * n) / u.den <= 0
  {
    if 0 < n {
      FloorBelow(u.num, u.den, n);
    } else if n == 0 {
      DivUnique(u.num * n, u.den, 0, 0);
    } else {
      FloorNegative(u, -n);
    }
  }

  /** The negative case: `-(u * m)` rounded down is `-floor(u * m)`, or one less
      when `u * m` is not whole, and so lies in `[-m, 0]`. */
  lemma {:induction false} FloorNegative(u: Uniform, m: int)
    requires IsUniform(u) && 0 < m
    ensures -m <= (u.num * -m) / u.den <= 0
  {
    var x := u.num * m;
    var b := Below(u, m);
    FloorNegativeCore(x, u.den, b, x % u.den, m);
    MulNeg(u.num, m);
  }

  lemma {:induction false} FloorNegativeCore(x: int, d: int, b: int, r: int, m: int)
    requires 0 < d && 0 <= r < d && x == b * d + r && 0 <= b < m
    ensures -m <= (-x) / d <= 0
  {
    MulNeg(b, d);
    if r == 0 {
      DivUnique(-x, d, -b, 0);
    } else {
      MulPred(-b, d);
      DivUnique(-x, d, -b - 1, d - r);
    }
  }

  lemma MulNeg(a: int, b: int)
    ensures a * -b == -(a * b) && (-a) * b == -(a * b)
  {}

  lemma MulPred(a: int, b: int)
    ensures (a - 1) * b == a * b - b
  {}

  /** `generate_random_datetime(lo, hi)`: lo + random() * (hi - lo), rounded down
      to whole seconds by `time.localtime`. It lies between the two bounds, the
      upper one excluded when the bounds are in order. */
  function RandomDateTime(lo: int, hi: int, u: Uniform): (t: int)
    requires IsUniform(u)
    ensures lo < hi ==> lo <= t < hi
    ensures lo == hi ==> t == lo
    ensures hi < lo ==> hi <= t <= lo
  {
    FloorScaled(u, hi - lo);
    lo + (u.num * (hi - lo)) / u.den
  }

  /** Every second of an ordered window is a possible result. */
  lemma {:induction false} RandomDateTimeCovers(lo: int, hi: int, t: int)
    requires lo <= t < hi
    ensures IsUniform(Uniform(t - lo, hi - lo)) && RandomDateTime(lo, hi, Uniform(t - lo, hi - lo)) == t
  {
    BelowCovers(hi - lo, t - lo);
  }

  /** One `choice(pool)` together with one `randrange(0, 2000)`. */
  datatype NameDraw = NameDraw(pick: nat, n: nat)

  const NameSuffixBound: nat := 2000

  predicate NameDrawIn(d: NameDraw, poolSize: nat) { d.pick < poolSize && d.n < NameSuffixBound }

  predicate NameDrawsIn(ds: seq<NameDraw>, poolSize: nat)
  {
    forall i :: 0 <= i < |ds| ==> NameDrawIn(ds[i], poolSize)
  }

  function DigitChar(d: nat): (c: char)
    requires d < 10
    ensures '0' <= c <= '9'
  {
    "0123456789"[d]
  }

  /** Python's `str(n)` for a non-negative integer: its decimal digits. */
  function NatToString(n: nat): (s: string)
    ensures |s| >= 1
    ensures forall i :: 0 <= i < |s| ==> '0' <= s[i] <= '9'
    decreases n
  {
    if n < 10 then [DigitChar(n)] else NatToString(n / 10) + [DigitChar(n % 10)]
  }

  /** The number a run of decimal digits denotes, read most significant first. */
  function DigitsValue(s: string): int
    decreases |s|
  {
    if s == [] then 0 else 10 * DigitsValue(s[..|s| - 1]) + (s[|s| - 1] as int - '0' as int)
  }

  lemma DigitCharValue(d: nat)
    requires d < 10
    ensures DigitChar(d) as int - '0' as int == d
  {
  }

  /** `str(n)` reads back to `n`, and has no leading zero unless it is "0". */
  lemma {:induction false} NatToStringValue(n: nat)
    ensures DigitsValue(NatToString(n)) == n
    ensures 10 <= n ==> NatToString(n)[0] != '0'
    decreases n
  {
    if n < 10 {
      DigitCharValue(n);
    } else {
      var s, prefix := NatToString(n), NatToString(n / 10);
      NatToStringValue(n / 10);
      DigitCharValue(n % 10);
      assert s[..|s| - 1] == prefix;
      assert s[0] == prefix[0];
      if n / 10 < 10 {
        DigitCharValue(n / 10);
      }
    }
  }

  /** Python's `str(i)` for any integer. */
  function IntToString(i: int): (s: string)
    ensures forall k :: 0 <= k < |s| ==> s[k] == '-' || '0' <= s[k] <= '9'
  {
    if i < 0 then "-" + NatToString(-i) else NatToString(i)
  }

  /** f"{pool_entry}_{n}" */
  function DrawName(pool: seq<string>, d: NameDraw): (name: string)
    requires d.pick < |pool|
    ensures |pool[d.pick]| < |name| && name[|pool[d.pick]|] == '_'
  {
    pool[d.pick] + "_" + NatToString(d.n)
  }

  /** A composed name is the pool entry, an underscore, and then a non-empty run
      of decimal digits. */
  lemma {:induction false} DrawNameParts(pool: seq<string>, d: NameDraw)
    requires d.pick < |pool|
    ensures var name, k := DrawName(pool, d), |pool[d.pick]|;
      && k + 1 < |name| && name[..k] == pool[d.pick] && name[k] == '_'
      && forall i :: k < i < |name| ==> '0' <= name[i] <= '9'
  {
    var name, k := DrawName(pool, d), |pool[d.pick]|;
    var digits := NatToString(d.n);
    assert name == pool[d.pick] + "_" + digits;
    assert forall i :: k < i < |name| ==> name[i] == digits[i - k - 1];
  }

  /** A composed name is never the text of a number: it holds an underscore. */
  lemma {:induction false} DrawNameIsNotNumber(pool: seq<string>, d: NameDraw, m: int)
    requires d.pick < |pool|
    ensures DrawName(pool, d) != IntToString(m)
  {
    var name := DrawName(pool, d);
    var k := |pool[d.pick]|;
    assert k < |name| && name[k] == '_';
    assert k < |IntToString(m)| ==> IntToString(m)[k] != '_';
  }
}
