/** Small shared vocabulary: Option/Result, the float-to-integer casts and
    clamps the engine uses, ASCII lower-casing, and decimal text for
    integers (Rust's `Display` and `str::parse::<u32>`). */
module Common {

  datatype Option<+T> = None | Some(value: T)

  datatype Result<+T, +E> = Ok(value: T) | Err(error: E)

  const U32_MAX: nat := 0xFFFF_FFFF
  const U64_MAX: nat := 0xFFFF_FFFF_FFFF_FFFF

  /** `x.clamp(lo, hi)`, and `x.max(lo).min(hi)` when `lo <= hi`. */
  function Clamp(x: real, lo: real, hi: real): (r: real)
    requires lo <= hi
    ensures lo <= r <= hi
    ensures lo <= x <= hi ==> r == x
    ensures x < lo ==> r == lo
    ensures hi < x ==> r == hi
  {
    if x < lo then lo else if hi < x then hi else x
  }

  /** `x.max(lo)` on floats. */
  function AtLeast(x: real, lo: real): (r: real)
    ensures lo <= r && (r == x || r == lo)
    ensures lo <= x ==> r == x
  {
    if x < lo then lo else x
  }

  /** Rust's saturating `f64 as u64` (and `as usize` on a 64-bit target):
      truncation toward zero, negative values give 0, values past the top
      give the largest value. NaN is not modelled. */
  function CastU64(x: real): (n: nat)
    ensures n <= U64_MAX
    ensures x <= 0.0 ==> n == 0
    ensures 0.0 <= x < U64_MAX as real ==> n as real <= x < n as real + 1.0
    ensures U64_MAX as real <= x ==> n == U64_MAX
  {
    if x < 0.0 then 0 else if x >= U64_MAX as real then U64_MAX else x.Floor
  }

  // ---------------------------------------------------------------------
  // ASCII case folding (`str::to_lowercase` restricted to ASCII letters)

  function LowerChar(c: char): char
  {
    if 'A' <= c <= 'Z' then (c as int + 32) as char else c
  }

  function Lower(s: string): (r: string)
    ensures |r| == |s|
    ensures forall i :: 0 <= i < |s| ==> r[i] == LowerChar(s[i])
  {
    seq(|s|, i requires 0 <= i < |s| => LowerChar(s[i]))
  }

  lemma LowerIdempotent(s: string)
    ensures Lower(Lower(s)) == Lower(s)
  {
  }

  // ---------------------------------------------------------------------
  // Decimal text of natural numbers

  predicate IsDigit(c: char)
  {
    '0' <= c <= '9'
  }

  predicate AllDigits(s: string)
  {
    forall i :: 0 <= i < |s| ==> IsDigit(s[i])
  }

  function DigitChar(d: nat): (c: char)
    requires d < 10
    ensures IsDigit(c) && c as int - '0' as int == d
  {
    ('0' as int + d) as char
  }

  /** `n.to_string()` for an unsigned integer: its shortest decimal text. */
  function NatToString(n: nat): (s: string)
    ensures |s| >= 1 && AllDigits(s)
    ensures n >= 10 ==> s[0] != '0'
    decreases n
  {
    if n < 10 then [DigitChar(n)] else NatToString(n / 10) + [DigitChar(n % 10)]
  }

  /** The value of a string of decimal digits. */
  function DigitsValue(s: string): nat
    requires AllDigits(s)
  {
    if |s| == 0 then 0
    else DigitsValue(s[..|s| - 1]) * 10 + (s[|s| - 1] as int - '0' as int)
  }

  lemma {:induction false} DigitsOfNatToString(n: nat)
    ensures DigitsValue(NatToString(n)) == n
    decreases n
  {
    if n >= 10 {
      var s := NatToString(n);
      assert s[..|s| - 1] == NatToString(n / 10);
      DigitsOfNatToString(n / 10);
    }
  }

  /** Different numbers have different decimal texts. */
  lemma NatToStringInjective(a: nat, b: nat)
    requires NatToString(a) == NatToString(b)
    ensures a == b
  {
    DigitsOfNatToString(a);
    DigitsOfNatToString(b);
  }

  /** `s.parse::<u32>()`: an optional leading '+', then one or more
      decimal digits whose value fits in 32 bits. */
  function ParseU32(s: string): (r: Option<nat>)
    ensures r.Some? ==> r.value <= U32_MAX
    ensures r.Some? ==> |s| >= 1 && (AllDigits(s) || (s[0] == '+' && AllDigits(s[1..])))
  {
    if |s| == 0 then None
    else
      var digits := if s[0] == '+' then s[1..] else s;
      if |digits| > 0 && AllDigits(digits) && DigitsValue(digits) <= U32_MAX
      then Some(DigitsValue(digits))
      else None
  }

  /** Every 32-bit value printed by `to_string` parses back to itself. */
  lemma ParseU32OfNatToString(n: nat)
    requires n <= U32_MAX
    ensures ParseU32(NatToString(n)) == Some(n)
  {
    DigitsOfNatToString(n);
  }

  // ---------------------------------------------------------------------
  // Integer division facts the solver does not find by itself

  /** A multiple of a positive `n` other than 0 is at least `n` away from 0. */
  lemma MulAwayFromZero(a: int, n: int)
    requires n > 0
    ensures a >= 1 ==> a * n >= n
    ensures a <= -1 ==> a * n <= -n
  {
  }

  /** Quotient and remainder are the unique pair with `x == q * n + r`
      and `0 <= r < n`. */
  lemma DivModUnique(x: int, n: int, q: int, r: int)
    requires n > 0 && 0 <= r < n && x == q * n + r
    ensures x / n == q && x % n == r
  {
    var q', r' := x / n, x % n;
    assert (q - q') * n == r' - r;
    MulAwayFromZero(q - q', n);
  }

  /** Below `t` multiples of `d`, the quotient by `d` is below `t`. */
  lemma DivBelow(p: nat, d: nat, t: nat)
    requires d > 0 && p < d * t
    ensures p / d < t
  {
    var q := p / d;
    assert q * d <= p;
    MulAwayFromZero(q - t + 1, d);
    assert (q - t + 1) * d == q * d - t * d + d;
  }
}
