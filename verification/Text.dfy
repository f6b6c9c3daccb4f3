// Text encodings under every hash: UTF-8, decimal and hexadecimal numerals, 256-bit words.
module Text {
  import opened Basics

  // ---------------------------------------------------------------- UTF-8

  function Utf8Char(c: char): (r: Bytes)
    ensures 1 <= |r| <= 4
  {
    var n := c as int;
    if n < 0x80 then [n]
    else if n < 0x800 then [0xC0 + n / 64, 0x80 + n % 64]
    else if n < 0x1_0000 then [0xE0 + n / 64 / 64, 0x80 + n / 64 % 64, 0x80 + n % 64]
    else [0xF0 + n / 64 / 64 / 64, 0x80 + n / 64 / 64 % 64, 0x80 + n / 64 % 64, 0x80 + n % 64]
  }

  function Utf8(s: string): Bytes {
    if s == "" then [] else Utf8Char(s[0]) + Utf8(s[1..])
  }

  function CodePoint(b: Bytes): int
    requires 1 <= |b| <= 4
  {
    match |b|
    case 1 => b[0] as int
    case 2 => (b[0] as int - 0xC0) * 64 + (b[1] as int - 0x80)
    case 3 => ((b[0] as int - 0xE0) * 64 + (b[1] as int - 0x80)) * 64 + (b[2] as int - 0x80)
    case _ => (((b[0] as int - 0xF0) * 64 + (b[1] as int - 0x80)) * 64 + (b[2] as int - 0x80)) * 64 + (b[3] as int - 0x80)
  }

  lemma Utf8CharPrefixFree(c: char, d: char, x: Bytes, y: Bytes)
    requires Utf8Char(c) + x == Utf8Char(d) + y
    ensures c == d && x == y
  {
    var p, q := Utf8Char(c), Utf8Char(d);
    assert p[0] == (p + x)[0] == (q + y)[0] == q[0];
    assert |p| == |q|;
    assert p == (p + x)[..|p|] == (q + y)[..|q|] == q;
    assert x == (p + x)[|p|..] == (q + y)[|q|..] == y;
    assert CodePoint(p) == c as int && CodePoint(q) == d as int;
  }

  /** No two texts share a byte form, so a hash of the bytes is a hash of the text. */
  lemma {:induction false} Utf8Injective(s: string, t: string)
    requires Utf8(s) == Utf8(t)
    ensures s == t
  {
    if s != "" && t != "" {
      Utf8CharPrefixFree(s[0], t[0], Utf8(s[1..]), Utf8(t[1..]));
      Utf8Injective(s[1..], t[1..]);
    }
  }

  // ---------------------------------------------------------------- numerals

  function Digit(d: int): char
    requires 0 <= d < 16
  {
    if d < 10 then (48 + d) as char else (87 + d) as char
  }

  function DigitValue(c: char): Option<nat> {
    if '0' <= c <= '9' then Some(c as int - 48)
    else if 'a' <= c <= 'f' then Some(c as int - 87)
    else if 'A' <= c <= 'F' then Some(c as int - 55)
    else None
  }

  predicate IsDecimalDigit(c: char) {
    '0' <= c <= '9'
  }

  function ShowNat(n: nat): (s: string)
    ensures s != "" && forall c <- s :: IsDecimalDigit(c)
  {
    if n < 10 then [Digit(n)] else ShowNat(n / 10) + [Digit(n % 10)]
  }

  /** fmt.Sprint of an integer. */
  function ShowInt(n: int): string {
    if n < 0 then "-" + ShowNat(-n) else ShowNat(n)
  }

  /** The value of a run of digits in the given base; the empty run is 0. */
  function Digits(s: string, base: nat): Option<nat> {
    if s == "" then Some(0)
    else
      match (Digits(s[..|s| - 1], base), DigitValue(s[|s| - 1]))
      case (Some(high), Some(low)) => if low < base then Some(high * base + low) else None
      case _ => None
  }

  /** big.Int SetString with an explicit base: an optional sign, then at least one digit. */
  function SetString(s: string, base: nat): Option<int> {
    var signed := s != "" && (s[0] == '+' || s[0] == '-');
    var body := if signed then s[1..] else s;
    if body == "" then None
    else
      match Digits(body, base)
      case None => None
      case Some(n) => Some(if signed && s[0] == '-' then 0 - n as int else n)
  }

  lemma {:induction false} DigitsOfShowNat(n: nat)
    ensures Digits(ShowNat(n), 10) == Some(n)
  {
    var s := ShowNat(n);
    if n < 10 {
      assert s[..0] == "";
      assert Digits(s, 10) == Some(n);
    } else {
      DigitsOfShowNat(n / 10);
      assert s[..|s| - 1] == ShowNat(n / 10);
    }
  }

  lemma SetStringOfShowInt(n: int)
    ensures SetString(ShowInt(n), 10) == Some(n)
  {
    DigitsOfShowNat(if n < 0 then -n else n);
    if n < 0 {
      assert ShowInt(n)[1..] == ShowNat(-n);
    } else {
      assert ShowInt(n)[0] in ShowNat(n);
    }
  }

  /** A text that does not go on with a decimal digit. */
  predicate EndsNumeral(rest: string) {
    rest == "" || !IsDecimalDigit(rest[0])
  }

  /** Where a numeral ends is visible, so the shorter of two readings cannot be a numeral. */
  lemma NumeralIsMaximal(p: string, q: string, x: string, y: string)
    requires EndsNumeral(x) && forall c <- q :: IsDecimalDigit(c)
    requires p + x == q + y
    ensures |q| <= |p|
  {
    var s := p + x;
    assert forall i :: 0 <= i < |q| ==> s[i] == q[i];
    assert x != "" ==> s[|p|] == x[0];
    assert |s| == |q| + |y|;
  }

  lemma ShowNatPrefixFree(m: nat, n: nat, x: string, y: string)
    requires EndsNumeral(x) && EndsNumeral(y)
    requires ShowNat(m) + x == ShowNat(n) + y
    ensures m == n && x == y
  {
    var p, q := ShowNat(m), ShowNat(n);
    NumeralIsMaximal(p, q, x, y);
    NumeralIsMaximal(q, p, y, x);
    assert p == (p + x)[..|p|] == (q + y)[..|q|] == q;
    assert x == (p + x)[|p|..] == (q + y)[|q|..] == y;
    DigitsOfShowNat(m);
    DigitsOfShowNat(n);
  }

  lemma ShowIntSign(n: int)
    ensures ShowInt(n) != ""
    ensures ShowInt(n)[0] == '-' <==> n < 0
  {
    if n >= 0 {
      assert ShowNat(n)[0] in ShowNat(n);
    }
  }

  lemma ShowIntPrefixFree(m: int, n: int, x: string, y: string)
    requires EndsNumeral(x) && EndsNumeral(y)
    requires ShowInt(m) + x == ShowInt(n) + y
    ensures m == n && x == y
  {
    ShowIntSign(m);
    ShowIntSign(n);
    var s, t := ShowInt(m) + x, ShowInt(n) + y;
    assert s[0] == ShowInt(m)[0] && t[0] == ShowInt(n)[0];
    if m < 0 {
      AfterSign(ShowNat(-m), x);
      AfterSign(ShowNat(-n), y);
      ShowNatPrefixFree(-m, -n, x, y);
    } else {
      ShowNatPrefixFree(m, n, x, y);
    }
  }

  lemma AfterSign(digits: string, rest: string)
    ensures ("-" + digits + rest)[1..] == digits + rest
  {
  }

  // ---------------------------------------------------------------- hexadecimal

  function HexEncode(b: Bytes): (s: string)
    ensures |s| == 2 * |b|
  {
    if b == [] then "" else [Digit(b[0] / 16), Digit(b[0] % 16)] + HexEncode(b[1..])
  }

  function HexDecode(s: string): (r: Option<Bytes>)
    ensures r.Some? ==> |s| == 2 * |r.value|
  {
    if s == "" then Some([])
    else if |s| < 2 then None
    else
      match (DigitValue(s[0]), DigitValue(s[1]), HexDecode(s[2..]))
      case (Some(h), Some(l), Some(rest)) => Some([16 * h + l] + rest)
      case _ => None
  }

  lemma {:induction false} HexRoundTrip(b: Bytes)
    ensures HexDecode(HexEncode(b)) == Some(b)
  {
    if b != [] {
      HexRoundTrip(b[1..]);
      assert HexEncode(b)[2..] == HexEncode(b[1..]);
      assert b == [b[0]] + b[1..];
    }
  }

  lemma HexInjective(a: Bytes, b: Bytes)
    requires HexEncode(a) == HexEncode(b)
    ensures a == b
  {
    HexRoundTrip(a);
    HexRoundTrip(b);
  }

  // ---------------------------------------------------------------- 256-bit words

  function Pow256(k: nat): (p: nat)
    ensures p > 0
  {
    if k == 0 then 1 else 256 * Pow256(k - 1)
  }

  lemma {:induction false} PowersAdd(j: nat, k: nat)
    ensures Pow256(j + k) == Pow256(j) * Pow256(k)
  {
    if j > 0 {
      PowersAdd(j - 1, k);
    }
  }

  /** The last k bytes of n, most significant first. */
  function BigEndian(n: nat, k: nat): (b: Bytes)
    ensures |b| == k
  {
    if k == 0 then [] else BigEndian(n / 256, k - 1) + [n % 256]
  }

  lemma {:induction false} BigEndianInjective(m: nat, n: nat, k: nat)
    requires m < Pow256(k) && n < Pow256(k)
    requires BigEndian(m, k) == BigEndian(n, k)
    ensures m == n
  {
    if k > 0 {
      var p, q := BigEndian(m, k), BigEndian(n, k);
      assert BigEndian(m / 256, k - 1) == p[..k - 1] == q[..k - 1] == BigEndian(n / 256, k - 1);
      assert m % 256 == p[k - 1] == q[k - 1] == n % 256;
      BigEndianInjective(m / 256, n / 256, k - 1);
    }
  }

  /** The number that bytes write, most significant first. */
  function NumberOf(b: Bytes): nat {
    if b == [] then 0 else NumberOf(b[..|b| - 1]) * 256 + b[|b| - 1]
  }

  lemma {:induction false} BigEndianExactly(n: nat, k: nat)
    requires n < Pow256(k)
    ensures NumberOf(BigEndian(n, k)) == n
  {
    if k > 0 {
      var b := BigEndian(n, k);
      assert b[..k - 1] == BigEndian(n / 256, k - 1);
      BigEndianExactly(n / 256, k - 1);
    }
  }

  lemma {:induction false} NumberAfterZeros(zeros: nat, b: Bytes)
    ensures NumberOf(seq(zeros, _ => 0) + b) == NumberOf(b)
    decreases zeros + |b|
  {
    var s := seq(zeros, _ => 0) + b;
    if b != [] {
      assert s[..|s| - 1] == seq(zeros, _ => 0) + b[..|b| - 1];
      NumberAfterZeros(zeros, b[..|b| - 1]);
    } else if zeros > 0 {
      assert s[..|s| - 1] == seq(zeros - 1, _ => 0) + [];
      NumberAfterZeros(zeros - 1, []);
    }
  }

  lemma {:induction false} HexEncodeLast(b: Bytes)
    requires b != []
    ensures HexEncode(b) == HexEncode(b[..|b| - 1]) + [Digit(b[|b| - 1] / 16), Digit(b[|b| - 1] % 16)]
  {
    if |b| == 1 {
      assert HexEncode(b[1..]) == "" == HexEncode(b[..0]);
    } else {
      HexEncodeLast(b[1..]);
      assert b[1..][..|b| - 2] == b[..|b| - 1][1..];
    }
  }

  lemma DigitsOfTwo(s: string, h: nat, l: nat)
    requires h < 16 && l < 16 && Digits(s, 16).Some?
    ensures Digits(s + [Digit(h), Digit(l)], 16) == Some(Digits(s, 16).value * 256 + h * 16 + l)
  {
    var one := s + [Digit(h)];
    var two := s + [Digit(h), Digit(l)];
    assert two[..|two| - 1] == one;
    assert one[..|one| - 1] == s;
  }

  lemma {:induction false} DigitsOfHex(b: Bytes)
    ensures Digits(HexEncode(b), 16) == Some(NumberOf(b))
  {
    if b != [] {
      var last := b[|b| - 1];
      HexEncodeLast(b);
      DigitsOfHex(b[..|b| - 1]);
      DigitsOfTwo(HexEncode(b[..|b| - 1]), last / 16, last % 16);
    }
  }

  // ---------------------------------------------------------------- case folding

  function LowerChar(c: char): char {
    if 'A' <= c <= 'Z' then (c as int + 32) as char else c
  }

  function Lower(s: string): string {
    seq(|s|, i requires 0 <= i < |s| => LowerChar(s[i]))
  }

  /** strings.EqualFold on ASCII letters. */
  predicate EqualFold(a: string, b: string) {
    Lower(a) == Lower(b)
  }

  /** The same letter, whether capital or small. */
  predicate SameLetter(x: char, y: char) {
    || x == y
    || ('A' <= x <= 'Z' && y as int == x as int + 32)
    || ('A' <= y <= 'Z' && x as int == y as int + 32)
  }

  /** Texts that differ in casing at most. */
  ghost predicate SameLetters(s: string, t: string) {
    |s| == |t| && forall i :: 0 <= i < |s| ==> SameLetter(s[i], t[i])
  }

  lemma EqualFoldExactly(a: string, b: string)
    ensures EqualFold(a, b) <==> SameLetters(a, b)
  {
    if EqualFold(a, b) {
      assert |Lower(a)| == |Lower(b)|;
      assert forall i :: 0 <= i < |a| ==> LowerChar(a[i]) == Lower(a)[i] == Lower(b)[i] == LowerChar(b[i]);
    }
    if SameLetters(a, b) {
      assert forall i :: 0 <= i < |a| ==> Lower(a)[i] == LowerChar(a[i]) == LowerChar(b[i]) == Lower(b)[i];
    }
  }
}
