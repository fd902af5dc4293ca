/** Job ids: time stamps in sixteen lowercase hex digits, compared as strings. */
module JobId {
  function HexDigit(d: nat): (c: char)
    requires d < 16
  {
    if d < 10 then ('0' as int + d) as char else ('a' as int + d - 10) as char
  }

  function Hex(n: nat): (s: string)
    ensures s != ""
  {
    if n < 16 then [HexDigit(n)] else Hex(n / 16) + [HexDigit(n % 16)]
  }

  function Zeros(n: nat): (s: string)
    ensures |s| == n && forall i :: 0 <= i < n ==> s[i] == '0'
  {
    seq(n, i => '0')
  }

  const WIDTH: nat := 16

  /** Python's "%016x" % t. */
  function IdOf(t: nat): string {
    var s := Hex(t);
    if |s| < WIDTH then Zeros(WIDTH - |s|) + s else s
  }

  // ---- decoding ----

  predicate IsHexDigit(c: char) {
    '0' <= c <= '9' || 'a' <= c <= 'f'
  }

  function DigitValue(c: char): (v: nat)
    requires IsHexDigit(c)
    ensures v < 16 && HexDigit(v) == c
  {
    if c <= '9' then c as int - '0' as int else c as int - 'a' as int + 10
  }

  predicate IsHex(s: string) {
    forall i :: 0 <= i < |s| ==> IsHexDigit(s[i])
  }

  /** Python's int(s, 16) on plain lowercase digits. */
  function HexValue(s: string): (v: nat)
    requires IsHex(s)
  {
    if s == "" then 0 else 16 * HexValue(s[..|s| - 1]) + DigitValue(s[|s| - 1])
  }

  lemma {:induction false} HexReadsBack(n: nat)
    ensures IsHex(Hex(n)) && HexValue(Hex(n)) == n
  {
    if n >= 16 {
      HexReadsBack(n / 16);
      assert Hex(n)[..|Hex(n)| - 1] == Hex(n / 16);
    } else {
      assert Hex(n)[..0] == "";
    }
  }

  lemma {:induction false} ZerosCountNothing(k: nat, s: string)
    requires IsHex(s)
    ensures IsHex(Zeros(k) + s) && HexValue(Zeros(k) + s) == HexValue(s)
  {
    var padded := Zeros(k) + s;
    if s != "" {
      ZerosCountNothing(k, s[..|s| - 1]);
      assert padded[..|padded| - 1] == Zeros(k) + s[..|s| - 1];
    } else if k > 0 {
      ZerosCountNothing(k - 1, "");
      assert padded[..k - 1] == Zeros(k - 1) + "";
    }
  }

  /** Decoding returns the time stamp, of any size. */
  lemma JobIdReadsBack(t: nat)
    ensures IsHex(IdOf(t)) && HexValue(IdOf(t)) == t
  {
    HexReadsBack(t);
    if |Hex(t)| < WIDTH {
      ZerosCountNothing(WIDTH - |Hex(t)|, Hex(t));
    }
  }

  function Pow16(e: nat): (p: nat)
    ensures p > 0
  {
    if e == 0 then 1 else 16 * Pow16(e - 1)
  }

  lemma {:induction false} HexLength(n: nat, w: nat)
    requires w > 0
    ensures |Hex(n)| <= w <==> n < Pow16(w)
  {
    if w > 1 && n >= 16 {
      HexLength(n / 16, w - 1);
    } else if n < 16 {
      assert Pow16(w) == 16 * Pow16(w - 1);
    } else {
      assert Pow16(1) == 16 * Pow16(0);
    }
  }

  const LIMIT: nat := 0x1_0000_0000_0000_0000

  lemma FourDigits(e: nat)
    ensures Pow16(e + 4) == 0x1_0000 * Pow16(e)
  {
    assert Pow16(e + 4) == 16 * Pow16(e + 3);
    assert Pow16(e + 2) == 16 * Pow16(e + 1);
  }

  lemma LimitIsPower()
    ensures Pow16(WIDTH) == LIMIT
  {
    FourDigits(0);
    FourDigits(4);
    FourDigits(8);
    FourDigits(12);
  }

  /** An id has sixteen digits exactly for the time stamps that fit in 64 bits. */
  lemma SixteenDigits(t: nat)
    ensures |IdOf(t)| == WIDTH <==> t < LIMIT
  {
    LimitIsPower();
    HexLength(t, WIDTH);
  }

  // ---- order ----

  /** String comparison. */
  predicate LexLess(a: string, b: string) {
    b != "" && (a == "" || a[0] < b[0] || (a[0] == b[0] && LexLess(a[1..], b[1..])))
  }

  lemma {:induction false} LexTotal(a: string, b: string)
    ensures LexLess(a, b) || LexLess(b, a) || a == b
  {
    if a != "" && b != "" && a[0] == b[0] {
      LexTotal(a[1..], b[1..]);
      assert [a[0]] + a[1..] == a && [b[0]] + b[1..] == b;
    }
  }

  lemma {:induction false} LexTransitive(a: string, b: string, c: string)
    requires LexLess(a, b) && LexLess(b, c)
    ensures LexLess(a, c)
  {
    if a != "" && a[0] == b[0] && b[0] == c[0] {
      LexTransitive(a[1..], b[1..], c[1..]);
    }
  }

  lemma {:induction false} LexLast(a: string, x: char, b: string, y: char)
    requires |a| == |b|
    ensures LexLess(a + [x], b + [y]) <==> LexLess(a, b) || (a == b && x < y)
  {
    if a == "" {
      assert (a + [x])[1..] == "" && (b + [y])[1..] == "";
    } else {
      LexLast(a[1..], x, b[1..], y);
      assert (a + [x])[1..] == a[1..] + [x] && (b + [y])[1..] == b[1..] + [y];
      assert a == [a[0]] + a[1..] && b == [b[0]] + b[1..];
    }
  }

  /** Among digit strings of one length, string order is number order. */
  lemma {:induction false} SameLengthOrder(a: string, b: string)
    requires |a| == |b| && IsHex(a) && IsHex(b)
    ensures LexLess(a, b) <==> HexValue(a) < HexValue(b)
    ensures a == b <==> HexValue(a) == HexValue(b)
  {
    if a != "" {
      var p, q := a[..|a| - 1], b[..|b| - 1];
      SameLengthOrder(p, q);
      LexLast(p, a[|a| - 1], q, b[|b| - 1]);
      assert a == p + [a[|a| - 1]] && b == q + [b[|b| - 1]];
      DigitOrder(a[|a| - 1], b[|b| - 1]);
    }
  }

  lemma DigitOrder(x: char, y: char)
    requires IsHexDigit(x) && IsHexDigit(y)
    ensures x < y <==> DigitValue(x) < DigitValue(y)
  {
  }

  lemma JobIdsInOrder(t: nat, u: nat)
    requires t < LIMIT && u < LIMIT
    ensures LexLess(IdOf(t), IdOf(u)) <==> t < u
    ensures IdOf(t) == IdOf(u) <==> t == u
  {
    JobIdReadsBack(t);
    JobIdReadsBack(u);
    SixteenDigits(t);
    SixteenDigits(u);
    SameLengthOrder(IdOf(t), IdOf(u));
  }

  lemma {:induction false} FirstDigits(e: nat)
    ensures Hex(Pow16(e))[0] == '1' && (e > 0 ==> Hex(Pow16(e) - 1)[0] == 'f')
  {
    if e > 0 {
      FirstDigits(e - 1);
      var p := Pow16(e - 1);
      assert (16 * p) / 16 == p && (16 * p - 1) / 16 == p - 1;
      assert Hex(16 * p)[0] == Hex(p)[0];
      assert e > 1 ==> p == 16 * Pow16(e - 2) && Hex(16 * p - 1)[0] == Hex(p - 1)[0];
    }
  }

  lemma OverflowBreaksOrder()
    ensures !LexLess(IdOf(LIMIT - 1), IdOf(LIMIT))
  {
    LimitIsPower();
    FirstDigits(WIDTH);
    HexLength(LIMIT - 1, WIDTH);
    HexLength(LIMIT - 1, WIDTH - 1);
    HexLength(LIMIT, WIDTH);
  }

  /** The ids of all time stamps below a bound sort by time exactly when the bound is at most 2^64. */
  lemma OrderedBelow(bound: nat)
    ensures (forall t: nat, u: nat :: t < bound && u < bound ==> (LexLess(IdOf(t), IdOf(u)) <==> t < u))
       <==> bound <= LIMIT
  {
    if bound <= LIMIT {
      forall t: nat, u: nat | t < bound && u < bound ensures LexLess(IdOf(t), IdOf(u)) <==> t < u {
        JobIdsInOrder(t, u);
      }
    } else {
      OverflowBreaksOrder();
    }
  }
}
