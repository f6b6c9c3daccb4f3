// Base64 as the tokens and attestations use it (RFC 4648 sections 4 and 5), and separator splitting.
module Base64 {
  import opened Basics

  /** The two alphabets differ in their last two characters only. */
  datatype Alphabet = UrlSafe | Standard

  function Sextet(a: Alphabet, d: int): (c: char)
    requires 0 <= d < 64
    ensures SextetValue(a, c) == Some(d)
  {
    if d < 26 then (65 + d) as char
    else if d < 52 then (71 + d) as char
    else if d < 62 then (d - 4) as char
    else if d == 62 then (if a.UrlSafe? then '-' else '+')
    else (if a.UrlSafe? then '_' else '/')
  }

  function SextetValue(a: Alphabet, c: char): (r: Option<nat>)
    ensures r.Some? ==> r.value < 64
  {
    if 'A' <= c <= 'Z' then Some(c as int - 65)
    else if 'a' <= c <= 'z' then Some(c as int - 71)
    else if '0' <= c <= '9' then Some(c as int + 4)
    else if c == (if a.UrlSafe? then '-' else '+') then Some(62)
    else if c == (if a.UrlSafe? then '_' else '/') then Some(63)
    else None
  }

  predicate InAlphabet(a: Alphabet, s: string) {
    forall c <- s :: SextetValue(a, c).Some?
  }

  /** Encoding without padding: three bytes become four characters, a tail of one or two bytes two or three. */
  function Encode(a: Alphabet, b: Bytes): (s: string)
    ensures InAlphabet(a, s)
  {
    if |b| == 0 then ""
    else if |b| == 1 then [Sextet(a, b[0] / 4), Sextet(a, b[0] % 4 * 16)]
    else if |b| == 2 then
      [Sextet(a, b[0] / 4), Sextet(a, b[0] % 4 * 16 + b[1] / 16), Sextet(a, b[1] % 16 * 4)]
    else
      [Sextet(a, b[0] / 4), Sextet(a, b[0] % 4 * 16 + b[1] / 16),
       Sextet(a, b[1] % 16 * 4 + b[2] / 64), Sextet(a, b[2] % 64)] + Encode(a, b[3..])
  }

  /** Four sextets hold 24 bits; a shorter last group drops the bits beyond its whole bytes unchecked. */
  function DecodeGroups(a: Alphabet, s: string): Option<Bytes> {
    if |s| == 0 then Some([])
    else if |s| == 1 then None
    else
      match (SextetValue(a, s[0]), SextetValue(a, s[1]))
      case (Some(p), Some(q)) => (
        var first := p * 4 + q / 16;
        if |s| == 2 then Some([first])
        else
          match SextetValue(a, s[2])
          case None => None
          case Some(u) => (
            var second := q % 16 * 16 + u / 4;
            if |s| == 3 then Some([first, second])
            else
              match (SextetValue(a, s[3]), DecodeGroups(a, s[4..]))
              case (Some(v), Some(rest)) => Some([first, second, u % 4 * 64 + v] + rest)
              case _ => None))
      case _ => None
  }

  function DropNewlines(s: string): string {
    if s == "" then ""
    else if s[0] == '\r' || s[0] == '\n' then DropNewlines(s[1..])
    else [s[0]] + DropNewlines(s[1..])
  }

  /** Go's unpadded decoder: line breaks are skipped, any other foreign character is an error. */
  function Decode(a: Alphabet, s: string): Option<Bytes> {
    DecodeGroups(a, DropNewlines(s))
  }

  lemma {:induction false} NothingToDrop(a: Alphabet, s: string)
    requires InAlphabet(a, s)
    ensures DropNewlines(s) == s
  {
    if s != "" {
      assert SextetValue(a, s[0]).Some?;
      NothingToDrop(a, s[1..]);
    }
  }

  lemma Regroup(x: byte, y: byte, z: byte)
    ensures x / 4 * 4 + (x % 4 * 16 + y / 16) / 16 == x
    ensures (x % 4 * 16 + y / 16) % 16 * 16 + (y % 16 * 4 + z / 64) / 4 == y
    ensures (y % 16 * 4 + z / 64) % 4 * 64 + z % 64 == z
  {
  }

  lemma OneByteTail(a: Alphabet, x: byte)
    ensures DecodeGroups(a, Encode(a, [x])) == Some([x])
  {
  }

  lemma TwoByteTail(a: Alphabet, x: byte, y: byte)
    ensures DecodeGroups(a, Encode(a, [x, y])) == Some([x, y])
  {
    Regroup(x, y, 0);
    var p, q, u := x / 4, x % 4 * 16 + y / 16, y % 16 * 4;
    assert Encode(a, [x, y]) == [Sextet(a, p), Sextet(a, q), Sextet(a, u)];
    assert DecodeGroups(a, [Sextet(a, p), Sextet(a, q), Sextet(a, u)])
        == Some([p * 4 + q / 16, q % 16 * 16 + u / 4]);
  }

  lemma DecodeGroup(a: Alphabet, p: int, q: int, u: int, v: int, tail: string, rest: Bytes)
    requires 0 <= p < 64 && 0 <= q < 64 && 0 <= u < 64 && 0 <= v < 64 && DecodeGroups(a, tail) == Some(rest)
    ensures DecodeGroups(a, [Sextet(a, p), Sextet(a, q), Sextet(a, u), Sextet(a, v)] + tail)
         == Some([p * 4 + q / 16, q % 16 * 16 + u / 4, u % 4 * 64 + v] + rest)
  {
    var s := [Sextet(a, p), Sextet(a, q), Sextet(a, u), Sextet(a, v)] + tail;
    assert s[4..] == tail;
  }

  lemma EncodeGroup(a: Alphabet, x: byte, y: byte, z: byte, rest: Bytes)
    ensures Encode(a, [x, y, z] + rest) ==
      [Sextet(a, x / 4), Sextet(a, x % 4 * 16 + y / 16), Sextet(a, y % 16 * 4 + z / 64), Sextet(a, z % 64)] + Encode(a, rest)
  {
    assert ([x, y, z] + rest)[3..] == rest;
  }

  lemma ThreeByteStep(a: Alphabet, x: byte, y: byte, z: byte, rest: Bytes)
    requires DecodeGroups(a, Encode(a, rest)) == Some(rest)
    ensures DecodeGroups(a, Encode(a, [x, y, z] + rest)) == Some([x, y, z] + rest)
  {
    Regroup(x, y, z);
    EncodeGroup(a, x, y, z, rest);
    DecodeGroup(a, x / 4, x % 4 * 16 + y / 16, y % 16 * 4 + z / 64, z % 64, Encode(a, rest), rest);
  }

  lemma {:induction false} GroupsRoundTrip(a: Alphabet, b: Bytes)
    ensures DecodeGroups(a, Encode(a, b)) == Some(b)
    decreases |b|
  {
    if |b| >= 3 {
      assert b == [b[0], b[1], b[2]] + b[3..];
      GroupsRoundTrip(a, b[3..]);
      ThreeByteStep(a, b[0], b[1], b[2], b[3..]);
    } else if |b| == 2 {
      TwoByteTail(a, b[0], b[1]);
      assert [b[0], b[1]] == b;
    } else if |b| == 1 {
      OneByteTail(a, b[0]);
      assert [b[0]] == b;
    }
  }

  lemma RoundTrip(a: Alphabet, b: Bytes)
    ensures Decode(a, Encode(a, b)) == Some(b)
  {
    NothingToDrop(a, Encode(a, b));
    GroupsRoundTrip(a, b);
  }

  /** Encoding with `=` padding to a multiple of four characters, as encoding/json writes a []byte. */
  function EncodePadded(a: Alphabet, b: Bytes): string {
    var s := Encode(a, b);
    s + seq((4 - |s| % 4) % 4, _ => '=')
  }

  lemma PaddedInjective(a: Alphabet, b: Bytes, c: Bytes)
    requires EncodePadded(a, b) == EncodePadded(a, c)
    ensures b == c
  {
    PaddingIsVisible(a, b, c);
    PaddingIsVisible(a, c, b);
    assert Encode(a, b) == EncodePadded(a, b)[..|Encode(a, b)|];
    assert Encode(a, c) == EncodePadded(a, c)[..|Encode(a, c)|];
    RoundTrip(a, b);
    RoundTrip(a, c);
  }

  lemma PaddingIsVisible(a: Alphabet, b: Bytes, c: Bytes)
    requires EncodePadded(a, b) == EncodePadded(a, c)
    ensures |Encode(a, c)| <= |Encode(a, b)|
  {
    var s, n := EncodePadded(a, b), |Encode(a, b)|;
    assert n < |s| ==> s[n] == '=';
    assert forall i :: 0 <= i < |Encode(a, c)| ==> s[i] in Encode(a, c);
    assert SextetValue(a, '=').None?;
  }

  // ---------------------------------------------------------------- splitting

  /** strings.IndexByte: the first place where c stands, if any. */
  function IndexOf(s: string, c: char): (r: Option<nat>)
    ensures r.None? <==> c !in s
    ensures r.Some? ==> r.value < |s| && s[r.value] == c && c !in s[..r.value]
  {
    if s == "" then None
    else if s[0] == c then Some(0)
    else
      match IndexOf(s[1..], c)
      case None => None
      case Some(i) => assert s[..i + 1] == [s[0]] + s[1..][..i]; Some(i + 1)
  }

  lemma IndexOfFirst(a: string, c: char, rest: string)
    requires c !in a
    ensures IndexOf(a + [c] + rest, c) == Some(|a|)
  {
    var s := a + [c] + rest;
    assert s[|a|] == c;
    var i := IndexOf(s, c).value;
    assert forall j :: 0 <= j < |a| ==> s[j] in a;
    assert forall j :: 0 <= j < i ==> s[j] in s[..i];
  }

  /** strings.Split by one character. */
  function Split(s: string, c: char): (parts: seq<string>)
    ensures |parts| >= 1
    decreases |s|
  {
    match IndexOf(s, c)
    case None => [s]
    case Some(i) => [s[..i]] + Split(s[i + 1..], c)
  }

  lemma SplitFirst(a: string, c: char, rest: string)
    requires c !in a
    ensures Split(a + [c] + rest, c) == [a] + Split(rest, c)
  {
    IndexOfFirst(a, c, rest);
    var s := a + [c] + rest;
    assert s[..|a|] == a && s[|a| + 1..] == rest;
  }

  // ---------------------------------------------------------------- decoding with padding

  /** What stands before the padding. */
  function DecodePadded(a: Alphabet, s: string): Option<Bytes> {
    if |s| % 4 != 0 then None
    else
      match IndexOf(s, '=')
      case None => Decode(a, s)
      case Some(i) => Decode(a, s[..i])
  }

  lemma PadsToGroups(n: nat)
    ensures (n + (4 - n % 4) % 4) % 4 == 0
  {
  }

  lemma PaddingIsFound(s: string, k: nat)
    requires '=' !in s
    ensures IndexOf(s + seq(k, _ => '='), '=') == if k == 0 then None else Some(|s|)
  {
    if k == 0 {
      assert s + seq(k, _ => '=') == s;
    } else {
      assert s + seq(k, _ => '=') == s + ['='] + seq(k - 1, _ => '=');
      IndexOfFirst(s, '=', seq(k - 1, _ => '='));
    }
  }

  lemma PaddingIsDropped(a: Alphabet, s: string, k: nat, b: Option<Bytes>)
    requires '=' !in s && (|s| + k) % 4 == 0 && Decode(a, s) == b
    ensures DecodePadded(a, s + seq(k, _ => '=')) == b
  {
    var padded := s + seq(k, _ => '=');
    PaddingIsFound(s, k);
    assert |padded| == |s| + k && padded[..|s|] == s;
    assert k == 0 ==> padded == s;
  }

  lemma NoPaddingInside(a: Alphabet, b: Bytes)
    ensures '=' !in Encode(a, b)
  {
    assert SextetValue(a, '=').None?;
  }

  lemma PaddedRoundTrip(a: Alphabet, b: Bytes)
    ensures DecodePadded(a, EncodePadded(a, b)) == Some(b)
  {
    RoundTrip(a, b);
    PadsToGroups(|Encode(a, b)|);
    NoPaddingInside(a, b);
    PaddingIsDropped(a, Encode(a, b), (4 - |Encode(a, b)| % 4) % 4, Some(b));
  }
}
