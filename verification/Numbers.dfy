/** Printing and reading numbers (kernel/task/IoHelper.c). Characters are their codes. */
module Numbers {
  import opened MachineWords

  // the buffer of format
  const BUFFER_SIZE: nat := 12
  const MINUS: int := 45

  predicate BaseOk(base: nat)
  {
    2 <= base <= 16
  }

  /** dgt + (dgt < 10 ? '0' : 'a' - 10) */
  function DigitChar(digit: nat): int
  {
    if digit < 10 then 48 + digit else 97 - 10 + digit
  }

  /** a2d */
  function A2D(ch: int): (d: int)
    ensures -1 <= d < 16
  {
    if 48 <= ch <= 57 then ch - 48
    else if 97 <= ch <= 102 then ch - 97 + 10
    else if 65 <= ch <= 70 then ch - 65 + 10
    else -1
  }

  lemma A2DOfDigit(digit: nat)
    requires digit < 16
    ensures A2D(DigitChar(digit)) == digit
  {
  }

  // ---- digits ----

  function Pow(base: nat, e: nat): (p: nat)
    requires base > 0
    ensures p > 0
  {
    if e == 0 then 1 else base * Pow(base, e - 1)
  }

  /** What a list of digits stands for, the highest first. */
  ghost function Value(ds: seq<nat>, base: nat): nat
    requires base > 0
  {
    if |ds| == 0 then 0 else ds[0] * Pow(base, |ds| - 1) + Value(ds[1..], base)
  }

  ghost predicate DigitsOk(ds: seq<nat>, base: nat)
  {
    forall i :: 0 <= i < |ds| ==> ds[i] < base
  }

  /** No leading zero, unless it is the only digit. */
  ghost predicate Canonical(ds: seq<nat>)
  {
    |ds| > 0 && (|ds| > 1 ==> ds[0] > 0)
  }

  lemma MulMono(a: nat, b: nat, c: nat)
    requires a <= b
    ensures a * c <= b * c
  {
  }

  lemma Distribute(a: nat, b: nat, c: nat)
    ensures (a + b) * c == a * c + b * c
  {
  }

  /** Fewer digits, smaller number. */
  lemma {:induction false} ValueBound(ds: seq<nat>, base: nat)
    requires base > 0 && DigitsOk(ds, base)
    ensures Value(ds, base) < Pow(base, |ds|)
  {
    if |ds| > 0 {
      var p := Pow(base, |ds| - 1);
      ValueBound(ds[1..], base);
      MulMono(ds[0] + 1, base, p);
      Distribute(ds[0], 1, p);
    }
  }

  /** One digit more at the end. */
  lemma {:induction false} ValueAppend(ds: seq<nat>, digit: nat, base: nat)
    requires base > 0
    ensures Value(ds + [digit], base) == Value(ds, base) * base + digit
  {
    if |ds| == 0 {
      assert (ds + [digit])[1..] == [];
    } else {
      var p, v := Pow(base, |ds| - 1), Value(ds[1..], base);
      ValueAppend(ds[1..], digit, base);
      assert (ds + [digit])[1..] == ds[1..] + [digit];
      Shift(ds[0], p, v, base);
    }
  }

  lemma Shift(a: nat, p: nat, v: nat, base: nat)
    ensures a * (base * p) + v * base == (a * p + v) * base
  {
  }

  /** The digits of a number. */
  ghost function Digits(num: nat, base: nat): (ds: seq<nat>)
    requires BaseOk(base)
    ensures DigitsOk(ds, base) && Canonical(ds)
  {
    if num < base then [num]
    else
      DivPositive(num, base);
      Digits(num / base, base) + [num % base]
  }

  lemma DivPositive(num: nat, base: nat)
    requires 2 <= base <= num
    ensures 0 < num / base < num
  {
  }

  lemma DivModBack(n: nat, d: nat)
    requires d > 0
    ensures n == n / d * d + n % d
  {
  }

  lemma DigitsStep(num: nat, base: nat)
    requires BaseOk(base) && num >= base
    ensures 0 < num / base < num && Digits(num, base) == Digits(num / base, base) + [num % base]
  {
    DivPositive(num, base);
  }

  lemma {:induction false} DigitsValue(num: nat, base: nat)
    requires BaseOk(base)
    ensures Value(Digits(num, base), base) == num
  {
    if num < base {
      assert [num][1..] == [];
    } else {
      DigitsStep(num, base);
      DivModBack(num, base);
      var q, r := num / base, num % base;
      DigitsValue(q, base);
      ValueAppend(Digits(q, base), r, base);
    }
  }

  /** The first digit counts for a whole power. */
  lemma ValueAtLeast(ds: seq<nat>, base: nat)
    requires base > 0 && |ds| > 0 && ds[0] > 0
    ensures Value(ds, base) >= Pow(base, |ds| - 1)
  {
    MulMono(1, ds[0], Pow(base, |ds| - 1));
  }

  lemma {:induction false} PowMono(base: nat, e: nat, f: nat)
    requires base > 0 && e <= f
    ensures Pow(base, e) <= Pow(base, f)
  {
    if e < f {
      PowMono(base, e, f - 1);
      MulMono(1, base, Pow(base, f - 1));
    }
  }

  /** A number has more than e digits exactly when it reaches the e-th power. */
  lemma DigitsLength(num: nat, base: nat, e: nat)
    requires BaseOk(base) && e > 0
    ensures num >= Pow(base, e) <==> |Digits(num, base)| > e
  {
    var ds := Digits(num, base);
    DigitsValue(num, base);
    ValueBound(ds, base);
    if |ds| > e {
      ValueAtLeast(ds, base);
      PowMono(base, e, |ds| - 1);
    } else {
      PowMono(base, |ds|, e);
    }
  }

  function Chars(ds: seq<nat>): (s: seq<int>)
    ensures |s| == |ds| && forall i :: 0 <= i < |s| ==> s[i] == DigitChar(ds[i])
  {
    seq(|ds|, i requires 0 <= i < |ds| => DigitChar(ds[i]))
  }

  /** What a number looks like in a base. */
  ghost function Text(num: nat, base: nat): (s: seq<int>)
    requires BaseOk(base)
    ensures |s| == |Digits(num, base)|
  {
    Chars(Digits(num, base))
  }

  // ---- printing ----

  lemma DivAtLeast(num: nat, d: nat, base: nat)
    requires d > 0
    ensures num / d >= base <==> num >= base * d
  {
    var q := num / d;
    assert q * d <= num < q * d + d;
    if q >= base {
      MulMono(base, q, d);
    } else {
      MulMono(q + 1, base, d);
      Distribute(q, 1, d);
    }
  }

  lemma DivMod(n: nat, d: nat, q: nat, r: nat)
    requires d > 0 && n == q * d + r && r < d
    ensures n / d == q && n % d == r
  {
    var k := n / d;
    assert k * d <= n < k * d + d;
    if k < q {
      MulMono(k + 1, q, d);
      Distribute(k, 1, d);
    } else if k > q {
      MulMono(q + 1, k, d);
      Distribute(q, 1, d);
    }
  }

  lemma PowDiv(base: nat, e: nat)
    requires base > 1
    ensures Pow(base, e) / base == (if e == 0 then 0 else Pow(base, e - 1))
  {
    var p := Pow(base, e);
    if e > 0 {
      DivMod(p, base, Pow(base, e - 1), 0);
    } else {
      DivMod(p, base, 0, p);
    }
  }

  /** The divisor loop of ui2a has come to the e-th power of the base, and goes on if the number has more digits. */
  ghost predicate PowerReached(num: nat, base: nat, d: nat, e: nat)
    requires BaseOk(base) && d > 0
  {
    && d == Pow(base, e) && d < TWO32 && e < |Digits(num, base)| && (num > 0 ==> d <= num)
    && (num / d >= base <==> num >= base * d) && (num >= base * d <==> |Digits(num, base)| > e + 1)
  }

  lemma AtPower(num: nat, base: nat, d: nat, e: nat)
    requires BaseOk(base) && d == Pow(base, e) && d < TWO32 && e < |Digits(num, base)| && (num > 0 ==> d <= num)
    ensures PowerReached(num, base, d, e)
  {
    DivAtLeast(num, d, base);
    DigitsLength(num, base, e + 1);
  }

  lemma NextPower(num: nat, base: nat, d: nat, e: nat)
    requires BaseOk(base) && num < TWO32 && d > 0 && PowerReached(num, base, d, e) && num / d >= base
    ensures d * base > 0 && PowerReached(num, base, d * base, e + 1)
  {
    var d' := base * d;
    assert d' == Pow(base, e + 1) == d * base;
    AtPower(num, base, d', e + 1);
  }

  /** The first loop of ui2a: the power of the highest digit. */
  method HighestPower(num: nat, base: nat) returns (d: nat)
    requires num < TWO32 && BaseOk(base)
    ensures d == Pow(base, |Digits(num, base)| - 1) && d < TWO32
    ensures (num > 0 ==> d <= num) && num < base * d
  {
    d := 1;
    ghost var e := 0;
    AtPower(num, base, d, e);
    while num / d >= base
      invariant d > 0 && PowerReached(num, base, d, e)
      decreases |Digits(num, base)| - e
    {
      NextPower(num, base, d, e);
      d := d * base;
      e := e + 1;
    }
  }

  /** ui2a into bf from place at on: the digits without leading zeros, and a terminating zero. */
  method UI2A(num: nat, base: nat, bf: array<int>, at: nat) returns (end: nat)
    requires num < TWO32 && BaseOk(base) && at + |Text(num, base)| < bf.Length
    modifies bf
    ensures end == at + |Text(num, base)| && bf[at..end] == Text(num, base) && bf[end] == 0
    ensures bf[..at] == old(bf[..at])
  {
    var d := HighestPower(num, base);
    end := PrintDigits(num, base, d, bf, at);
    ghost var front, text := bf[..at], bf[at..end];
    bf[end] := 0;
    assert bf[..at] == front && bf[at..end] == text;
  }

  /** The second loop of ui2a, for the power of the highest digit. */
  method PrintDigits(num: nat, base: nat, divisor: nat, bf: array<int>, at: nat) returns (end: nat)
    requires BaseOk(base) && divisor == Pow(base, |Digits(num, base)| - 1) && at + |Digits(num, base)| < bf.Length
    modifies bf
    ensures end == at + |Text(num, base)| && bf[at..end] == Text(num, base) && bf[..at] == old(bf[..at])
  {
    ghost var ds := Digits(num, base);
    DigitsValue(num, base);
    var n, rest, d := 0, num, divisor;
    end := at;
    assert ds[0..] == ds;
    while d != 0
      invariant n <= |ds| && end == at + n && bf[..at] == old(bf[..at])
      invariant d == (if n == |ds| then 0 else Pow(base, |ds| - 1 - n))
      invariant rest == Value(ds[n..], base)
      invariant bf[at..end] == Chars(ds[..n])
      decreases |ds| - n
    {
      ghost var tail := ds[n + 1..];
      assert ds[n..][1..] == tail;
      ValueBound(tail, base);
      DivMod(rest, d, ds[n], Value(tail, base));
      PowDiv(base, |ds| - 1 - n);
      var dgt := rest / d;
      rest := rest % d;
      d := d / base;
      if n > 0 || dgt > 0 || d == 0 {
        bf[end] := DigitChar(dgt);
        end := end + 1;
        n := n + 1;
      }
      assert bf[at..end] == Chars(ds[..n]);
    }
    assert ds[..n] == ds;
  }

  /** i2a: a minus sign and the magnitude, in a 32-bit word. */
  method I2A(num: int, bf: array<int>) returns (end: nat)
    requires -TWO31 <= num < TWO31 && bf.Length >= BUFFER_SIZE
    modifies bf
    ensures end < BUFFER_SIZE && bf[..end] == SignedText(num) && bf[end] == 0
  {
    var magnitude, at := num, 0;
    if num < 0 {
      magnitude := -num;
      bf[0] := MINUS;
      at := 1;
    }
    ghost var front := bf[..at];
    ghost var text := SignedIs(num, magnitude, front);
    end := UI2A(magnitude, 10, bf, at);
    Halves(bf[..], at, end, front, text);
  }

  lemma SignedIs(num: int, magnitude: nat, front: seq<int>) returns (text: seq<int>)
    requires -TWO31 <= num < TWO31 && magnitude == (if num < 0 then -num else num)
    requires front == if num < 0 then [MINUS] else []
    ensures text == Text(magnitude, 10) && SignedText(num) == front + text && |front + text| < BUFFER_SIZE
  {
    SignedTextFits(num);
    text := Text(magnitude, 10);
  }

  lemma Halves(s: seq<int>, at: nat, end: nat, front: seq<int>, back: seq<int>)
    requires at <= end <= |s| && s[..at] == front && s[at..end] == back
    ensures s[..end] == front + back
  {
  }

  ghost function SignedText(num: int): seq<int>
  {
    if num < 0 then [MINUS] + Text(-num, 10) else Text(num, 10)
  }

  /** Every number in base 10 or more, signed or not, fits in the buffer with its terminator. */
  lemma SignedTextFits(num: int)
    requires -TWO31 <= num < TWO31
    ensures |SignedText(num)| < BUFFER_SIZE
  {
    TextFits(if num < 0 then -num else num, 10);
  }

  lemma TextFits(num: nat, base: nat)
    requires num < TWO32 && 10 <= base <= 16
    ensures |Text(num, base)| <= 10 && |Text(num, base)| < BUFFER_SIZE
  {
    DigitsLength(num, base, 10);
    TenthPower(base);
  }

  lemma TenthPower(base: nat)
    requires base >= 10
    ensures Pow(base, 10) >= TWO32
  {
    assert Pow(base, 1) == base;
    AtLeast(base, 1, 10);
    AtLeast(base, 2, 100);
    AtLeast(base, 3, 1000);
    AtLeast(base, 4, 10000);
    AtLeast(base, 5, 100000);
    AtLeast(base, 6, 1000000);
    AtLeast(base, 7, 10000000);
    AtLeast(base, 8, 100000000);
    AtLeast(base, 9, 1000000000);
  }

  lemma AtLeast(base: nat, e: nat, n: nat)
    requires base >= 10 && Pow(base, e) >= n
    ensures Pow(base, e + 1) >= 10 * n
  {
    MulMono(10, base, Pow(base, e));
  }

  // ---- reading ----

  /** a2i goes on while the character is a digit no larger than the base (not: smaller than it). */
  predicate Accepts(ch: int, base: nat)
  {
    0 <= A2D(ch) <= base
  }

  /** The first place from k on with a character that a2i does not accept. */
  ghost predicate ReadEnd(s: seq<int>, base: nat, k: nat, m: nat)
  {
    k <= m < |s| && !Accepts(s[m], base) && forall i :: k <= i < m ==> Accepts(s[i], base)
  }

  ghost function DigitsOf(s: seq<int>, base: nat): (ds: seq<nat>)
    requires forall i :: 0 <= i < |s| ==> Accepts(s[i], base)
    ensures |ds| == |s|
  {
    seq(|s|, i requires 0 <= i < |s| => if A2D(s[i]) < 0 then 0 else A2D(s[i]))
  }

  // ---- 32-bit arithmetic ----

  /** What a 32-bit int holds of x. */
  function Wrap(x: int): (r: int)
    ensures -TWO31 <= r < TWO31 && (r == x <==> -TWO31 <= x < TWO31)
  {
    (x + TWO31) % TWO32 - TWO31
  }

  lemma {:induction false} ShiftedRemainder(x: int, k: int)
    ensures (x + k * TWO32) % TWO32 == x % TWO32
    decreases if k < 0 then -k else k
  {
    if k > 0 {
      ShiftedRemainder(x, k - 1);
      assert x + k * TWO32 == x + (k - 1) * TWO32 + TWO32;
    } else if k < 0 {
      ShiftedRemainder(x, k + 1);
      assert x + k * TWO32 == x + (k + 1) * TWO32 - TWO32;
    }
  }

  /** Adding a digit to what is held gives what is held of the longer number. */
  lemma WrapDigit(v: int, base: int, digit: int)
    ensures Wrap(Wrap(v) * base + digit) == Wrap(v * base + digit)
  {
    var k := (v + TWO31) / TWO32;
    assert Wrap(v) == v - k * TWO32;
    assert (v - k * TWO32) * base == v * base + (-k * base) * TWO32;
    ShiftedRemainder(v * base + digit + TWO31, -k * base);
  }

  /** a2i: ch is the character at place k of the string s, src points behind it. */
  method A2I(s: seq<int>, k: nat, base: nat, ghost m: nat) returns (ch: int, src: nat, num: int)
    requires base > 0 && ReadEnd(s, base, k, m)
    ensures ch == s[m] && src == m + 1 && num == Wrap(Value(DigitsOf(s[k..m], base), base))
  {
    ch, src, num := s[k], k + 1, 0;
    var digit := A2D(ch);
    assert DigitsOf(s[k..k], base) == [];
    while digit >= 0 && digit <= base
      invariant k < src <= m + 1 && ch == s[src - 1] && digit == A2D(ch)
      invariant num == Wrap(Value(DigitsOf(s[k..src - 1], base), base))
      decreases m + 1 - src
    {
      ReadOneMore(s, k, src - 1, base, digit);
      num := Wrap(num * base + digit);
      ch := s[src];
      src := src + 1;
      digit := A2D(ch);
    }
  }

  lemma ReadOneMore(s: seq<int>, k: nat, i: nat, base: nat, digit: nat)
    requires base > 0 && k <= i < |s| && digit == A2D(s[i]) <= base && forall j :: k <= j < i ==> Accepts(s[j], base)
    ensures forall j :: k <= j < i + 1 ==> Accepts(s[j], base)
    ensures var v := Value(DigitsOf(s[k..i], base), base);
            Wrap(Value(DigitsOf(s[k..i + 1], base), base)) == Wrap(Wrap(v) * base + digit)
  {
    var ds := DigitsOf(s[k..i], base);
    ValueAppend(ds, digit, base);
    assert s[k..i + 1] == s[k..i] + [s[i]];
    assert DigitsOf(s[k..i + 1], base) == ds + [digit];
    WrapDigit(Value(ds, base), base, digit);
  }

  /** strgetui moves the pointer in base 10, with the same tolerance. */
  method StrGetUI(s: seq<int>, c: nat, ghost m: nat) returns (c': nat, num: int)
    requires ReadEnd(s, 10, c, m)
    ensures c' == m && num == Wrap(Value(DigitsOf(s[c..m], 10), 10))
  {
    c', num := c, 0;
    assert DigitsOf(s[c..c], 10) == [];
    while true
      invariant c <= c' <= m && num == Wrap(Value(DigitsOf(s[c..c'], 10), 10))
      decreases m - c'
    {
      var digit := A2D(s[c']);
      if digit < 0 || digit > 10 {
        break;
      }
      ReadOneMore(s, c, c', 10, digit);
      num := Wrap(num * 10 + digit);
      c' := c' + 1;
    }
  }

  /** Reading back what has been printed gives the number again: the whole text is accepted, its value is
      the number, and an int holds it exactly when it is below 2 to the 31. */
  lemma ReadsBack(num: nat, base: nat)
    requires BaseOk(base)
    ensures var s := Text(num, base) + [0];
            && ReadEnd(s, base, 0, |s| - 1) && Value(DigitsOf(s[0..|s| - 1], base), base) == num
            && (Wrap(Value(DigitsOf(s[0..|s| - 1], base), base)) == num <==> num < TWO31)
  {
    var ds := Digits(num, base);
    var s := Text(num, base) + [0];
    forall i | 0 <= i < |ds|
      ensures A2D(s[i]) == ds[i]
    {
      A2DOfDigit(ds[i]);
    }
    assert s[0..|s| - 1] == Text(num, base);
    assert DigitsOf(s[0..|s| - 1], base) == ds;
    DigitsValue(num, base);
  }

  /** The first place from k on that is no digit of the base. */
  ghost predicate StrictEnd(s: seq<int>, base: nat, k: nat, m: nat)
  {
    k <= m < |s| && !(0 <= A2D(s[m]) < base) && forall i :: k <= i < m ==> 0 <= A2D(s[i]) < base
  }

  /** a2i reads exactly the digits of the base if and only if they are not followed by the one character
      that stands for the base itself. */
  lemma ReadsOnlyDigits(s: seq<int>, base: nat, k: nat, m: nat, strict: nat)
    requires ReadEnd(s, base, k, m) && StrictEnd(s, base, k, strict)
    ensures m == strict <==> A2D(s[strict]) != base
  {
  }

  /** "1a" in base 10 is read as twenty. */
  lemma TooLargeDigit()
    ensures ReadEnd([49, 97, 0], 10, 0, 2) && StrictEnd([49, 97, 0], 10, 0, 1)
    ensures Value(DigitsOf([49, 97], 10), 10) == 20
  {
    var ds := DigitsOf([49, 97], 10);
    assert ds == [1, 10];
    ValueAppend([1], 10, 10);
    ValueAppend([], 1, 10);
    assert [] + [1] == [1] && [1] + [10] == ds;
  }
}
