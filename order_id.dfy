/** `generateOrderId` of src/pages/Payment.js: "ANT" followed by the last
    eight characters of the decimal rendering of the millisecond clock. */
module OrderIds {
  import opened Text

  function Pow10(k: nat): (p: nat)
    ensures p >= 1
  {
    if k == 0 then 1 else 10 * Pow10(k - 1)
  }

  function DigitChar(d: nat): (c: char)
    requires d < 10
    ensures IsDigit(c) && c as int - '0' as int == d
  {
    ('0' as int + d) as char
  }

  /** `n.toString()` for a non-negative integer: no sign, no leading zero. */
  function DecimalString(n: nat): (s: string)
    ensures AllDigits(s) && s != []
  {
    if n < 10 then [DigitChar(n)] else DecimalString(n / 10) + [DigitChar(n % 10)]
  }

  /** The number a string of decimal digits denotes (leading zeros allowed). */
  function DecimalValue(s: string): nat
    requires AllDigits(s)
  {
    if s == [] then 0
    else 10 * DecimalValue(s[..|s| - 1]) + (s[|s| - 1] as int - '0' as int)
  }

  /** `s.slice(-k)` for k >= 1: the last k characters, or all of a shorter
      string. */
  function LastChars(s: string, k: nat): (r: string)
    ensures |r| == if |s| <= k then |s| else k
    ensures r == s[|s| - |r|..]
  {
    if |s| <= k then s else s[|s| - k..]
  }

  function OrderId(now: nat): (id: string)
    ensures 4 <= |id| <= 11 && id[..3] == "ANT"
    ensures AllDigits(id[3..])
  {
    "ANT" + LastChars(DecimalString(now), 8)
  }

  /** Rendering then reading a number gives it back, and the rendering has
      as many digits as the number needs. */
  lemma {:induction false} DecimalRoundTrip(n: nat)
    ensures DecimalValue(DecimalString(n)) == n
    ensures n < Pow10(|DecimalString(n)|)
    ensures |DecimalString(n)| > 1 ==> Pow10(|DecimalString(n)| - 1) <= n
  {
    if n >= 10 {
      DecimalRoundTrip(n / 10);
      var s := DecimalString(n);
      assert s[..|s| - 1] == DecimalString(n / 10);
    }
  }

  /** Helper: a positive multiple of m is at least m. */
  lemma {:induction false} MulAtLeast(a: int, m: int)
    requires a >= 1 && m > 0
    ensures a * m >= m
    decreases a
  {
    if a > 1 {
      MulAtLeast(a - 1, m);
      assert a * m == (a - 1) * m + m;
    }
  }

  /** Helper: the remainder is determined by any quotient/remainder split. */
  lemma ModUnique(x: int, q: int, m: int, r: int)
    requires m > 0 && x == q * m + r && 0 <= r < m
    ensures x % m == r && x / m == q
  {
    var q' := x / m;
    var r' := x % m;
    assert x == q' * m + r';
    assert (q - q') * m == r' - r by {
      assert q * m - q' * m == (q - q') * m;
    }
    if q > q' {
      MulAtLeast(q - q', m);
    } else if q < q' {
      assert (q' - q) * m == -((q - q') * m);
      MulAtLeast(q' - q, m);
    }
  }

  /** Helper: appending a digit to a number and then reducing modulo 10^(k+1)
      is reducing modulo 10^k and then appending it. */
  lemma ShiftMod(a: nat, d: nat, k: nat)
    requires d < 10
    ensures (10 * a + d) % Pow10(k + 1) == 10 * (a % Pow10(k)) + d
  {
    var p := Pow10(k);
    var q := a / p;
    var r := a % p;
    assert a == q * p + r;
    assert 10 * a + d == q * (10 * p) + (10 * r + d);
    ModUnique(10 * a + d, q, 10 * p, 10 * r + d);
  }

  /** The last k digits of a digit string denote its value modulo 10^k. */
  lemma {:induction false} SuffixValue(s: string, k: nat)
    requires AllDigits(s) && k <= |s|
    ensures DecimalValue(s[|s| - k..]) == DecimalValue(s) % Pow10(k)
  {
    if k == 0 {
      assert s[|s|..] == [];
    } else {
      var init := s[..|s| - 1];
      var d := s[|s| - 1] as int - '0' as int;
      SuffixValue(init, k - 1);
      var t := s[|s| - k..];
      assert t[..|t| - 1] == init[|init| - (k - 1)..];
      ShiftMod(DecimalValue(init), d, k - 1);
    }
  }

  /** Two digit strings of the same length with the same value are equal. */
  lemma {:induction false} DigitsInjective(s: string, t: string)
    requires AllDigits(s) && AllDigits(t) && |s| == |t|
    requires DecimalValue(s) == DecimalValue(t)
    ensures s == t
  {
    if s != [] {
      var ds := s[|s| - 1] as int - '0' as int;
      var dt := t[|t| - 1] as int - '0' as int;
      ModUnique(DecimalValue(s), DecimalValue(s[..|s| - 1]), 10, ds);
      ModUnique(DecimalValue(t), DecimalValue(t[..|t| - 1]), 10, dt);
      DigitsInjective(s[..|s| - 1], t[..|t| - 1]);
      assert s == s[..|s| - 1] + [s[|s| - 1]];
      assert t == t[..|t| - 1] + [t[|t| - 1]];
    }
  }

  /** The id is "ANT" and the last eight digits of the clock; from 10^7 ms on
      (any clock after 1970-01-01T02:46:40Z) it is exactly 11 characters and
      its digits denote the clock modulo 10^8. */
  lemma OrderIdShape(now: nat)
    ensures OrderId(now)[..3] == "ANT"
    ensures AllDigits(OrderId(now)[3..]) && 4 <= |OrderId(now)| <= 11
    ensures DecimalValue(OrderId(now)[3..]) == now % Pow10(8)
    ensures now >= Pow10(7) ==> |OrderId(now)| == 11
  {
    assert OrderId(now)[3..] == LastChars(DecimalString(now), 8);
    TailValue(now);
    TailLength(now);
  }

  /** The eight-character tail reads back as the timestamp modulo 10^8. */
  lemma TailValue(now: nat)
    ensures DecimalValue(LastChars(DecimalString(now), 8)) == now % Pow10(8)
  {
    var s := DecimalString(now);
    DecimalRoundTrip(now);
    SuffixValue(s, |LastChars(s, 8)|);
    if |s| <= 8 {
      assert now < Pow10(|s|);
      PowMonotone(|s|, 8);
      ModUnique(now, 0, Pow10(8), now);
    }
  }

  /** From 10^7 on, the timestamp has at least eight digits. */
  lemma TailLength(now: nat)
    ensures now >= Pow10(7) ==> |LastChars(DecimalString(now), 8)| == 8
  {
    var s := DecimalString(now);
    DecimalRoundTrip(now);
    if now >= Pow10(7) && |s| < 8 {
      PowMonotone(|s|, 7);
    }
  }

  lemma {:induction false} PowMonotone(i: nat, j: nat)
    requires i <= j
    ensures Pow10(i) <= Pow10(j)
    decreases j
  {
    if i < j {
      PowMonotone(i, j - 1);
    }
  }

  /** Two clocks past 10^7 ms give the same order id exactly when they agree
      modulo 10^8 ms: ids repeat every 10^8 ms (about 27.8 hours), and two
      orders placed in the same millisecond share an id. */
  lemma OrderIdCollision(t1: nat, t2: nat)
    requires t1 >= Pow10(7) && t2 >= Pow10(7)
    ensures OrderId(t1) == OrderId(t2) <==> t1 % Pow10(8) == t2 % Pow10(8)
  {
    OrderIdShape(t1);
    OrderIdShape(t2);
    if t1 % Pow10(8) == t2 % Pow10(8) {
      DigitsInjective(OrderId(t1)[3..], OrderId(t2)[3..]);
      assert OrderId(t1) == OrderId(t1)[..3] + OrderId(t1)[3..];
      assert OrderId(t2) == OrderId(t2)[..3] + OrderId(t2)[3..];
    }
  }
}
