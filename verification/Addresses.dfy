// Account addresses: twenty bytes, the text go-ethereum prints for them, and when two texts name the same ones.
module Addresses {
  import opened Basics
  import opened Crypto
  import opened Eip712
  import opened Text

  function UpperLetter(ch: char): char {
    if 'a' <= ch <= 'f' then (ch as int - 32) as char else ch
  }

  /** Address.Hex: a letter is a capital where the hash of the small form has a digit of 8 or more (EIP-55). */
  function AddressText(c: Primitives, a: Bytes20): string {
    var small := HexEncode(a);
    var hash := HexEncode(c.keccak256(Utf8(small)));
    "0x" + seq(|small|, i requires 0 <= i < |small| => if hash[i] >= '8' then UpperLetter(small[i]) else small[i])
  }

  predicate IsSmallHexDigit(ch: char) {
    '0' <= ch <= '9' || 'a' <= ch <= 'f'
  }

  lemma {:induction false} HexEncodeIsSmall(b: Bytes)
    ensures forall i :: 0 <= i < |HexEncode(b)| ==> IsSmallHexDigit(HexEncode(b)[i])
  {
    if b != [] {
      HexEncodeIsSmall(b[1..]);
      var s := HexEncode(b);
      assert s[0] == Digit(b[0] / 16) && s[1] == Digit(b[0] % 16);
      forall i | 2 <= i < |s|
        ensures IsSmallHexDigit(s[i])
      {
        assert s[i] == HexEncode(b[1..])[i - 2];
      }
    }
  }

  lemma HexDigitValues(x: char, d: int)
    requires 0 <= d < 16
    ensures DigitValue(x) == Some(d) <==> SameLetter(x, Digit(d))
  {
  }

  /** A text decodes to some bytes exactly if it is their hexadecimal form, in any casing. */
  lemma {:induction false} HexDecodeExactly(s: string, b: Bytes)
    ensures HexDecode(s) == Some(b) <==> SameLetters(s, HexEncode(b))
    decreases |s|
  {
    var t := HexEncode(b);
    if |s| >= 2 && b != [] {
      HexDecodeExactly(s[2..], b[1..]);
      HexDigitValues(s[0], b[0] / 16);
      HexDigitValues(s[1], b[0] % 16);
      HeadOfHex(s, b);
      OneByteMore(s, b);
    }
  }

  lemma HeadOfHex(s: string, b: Bytes)
    requires |s| >= 2 && b != []
    ensures SameLetters(s, HexEncode(b)) <==>
      && SameLetter(s[0], Digit(b[0] / 16)) && SameLetter(s[1], Digit(b[0] % 16))
      && SameLetters(s[2..], HexEncode(b[1..]))
  {
    var t, rest := HexEncode(b), HexEncode(b[1..]);
    assert t == [Digit(b[0] / 16), Digit(b[0] % 16)] + rest;
    if SameLetters(s[2..], rest) {
      forall i | 2 <= i < |s|
        ensures s[i] == s[2..][i - 2] && t[i] == rest[i - 2]
      {
      }
    }
    if SameLetters(s, t) {
      forall i | 0 <= i < |rest|
        ensures SameLetter(s[2..][i], rest[i])
      {
        assert SameLetter(s[i + 2], t[i + 2]);
      }
    }
  }

  lemma FirstAndRest(x: byte, rest: Bytes, b: Bytes)
    requires b != []
    ensures [x] + rest == b <==> x == b[0] && rest == b[1..]
  {
    assert b == [b[0]] + b[1..];
    assert ([x] + rest)[1..] == rest;
  }

  lemma HexPair(s: string)
    requires |s| >= 2
    ensures HexDecode(s) ==
      if DigitValue(s[0]).Some? && DigitValue(s[1]).Some? && HexDecode(s[2..]).Some?
      then Some([16 * DigitValue(s[0]).value + DigitValue(s[1]).value] + HexDecode(s[2..]).value) else None
  {
  }

  lemma PairIs(high: Option<nat>, low: Option<nat>, rest: Option<Bytes>, h: nat, l: nat, b: Bytes)
    requires (high.Some? ==> high.value < 16) && (low.Some? ==> low.value < 16)
    requires h < 16 && l < 16 && b != [] && b[0] == 16 * h + l
    ensures (high.Some? && low.Some? && rest.Some? && [16 * high.value + low.value] + rest.value == b)
       <==> (high == Some(h) && low == Some(l) && rest == Some(b[1..]))
  {
    if high.Some? && low.Some? && rest.Some? {
      FirstAndRest(16 * high.value + low.value, rest.value, b);
    } else {
      assert !(high == Some(h) && low == Some(l) && rest == Some(b[1..]));
    }
  }

  lemma OneByteMore(s: string, b: Bytes)
    requires |s| >= 2 && b != []
    ensures HexDecode(s) == Some(b) <==>
      && DigitValue(s[0]) == Some(b[0] / 16) && DigitValue(s[1]) == Some(b[0] % 16) && HexDecode(s[2..]) == Some(b[1..])
  {
    HexPair(s);
    PairIs(DigitValue(s[0]), DigitValue(s[1]), HexDecode(s[2..]), b[0] / 16, b[0] % 16, b);
  }

  /** The printed text, behind its 0x, is the hexadecimal form in some casing. */
  lemma AddressTextNames(c: Primitives, a: Bytes20)
    ensures HasHexPrefix(AddressText(c, a)) && |AddressText(c, a)| == 42
    ensures SameLetters(AddressText(c, a)[2..], HexEncode(a)) && AddressBytes(AddressText(c, a)) == Some(a)
  {
    HexEncodeIsSmall(a);
    var text, small := AddressText(c, a), HexEncode(a);
    assert forall i :: 0 <= i < |small| ==> SameLetter(text[2..][i], small[i]);
    HexDecodeExactly(text[2..], a);
  }
}
