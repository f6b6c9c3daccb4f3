// Typed structured data hashing (EIP-712, "Definition of hashStruct" and "Definition of encodeData"),
// and the proof that a digest determines the structure it was computed from, up to a hash collision.
module Eip712 {
  import opened Basics
  import opened Crypto
  import opened Text

  /** A typed message: leaves as the caller gives them, and nested structs with their type text. */
  datatype Field =
    | HashField(preimage: Bytes)
    | NumberField(text: string)
    | AddressField(text: string)
    | HexField(text: string)
    | Struct(typeText: string, fields: seq<Field>)

  // ---------------------------------------------------------------- leaf words

  const WORD_BYTES: nat := 32

  /** A uint256: negative and oversized values are refused. */
  function UintWord(n: int): Option<Bytes32> {
    if 0 <= n < Pow256(WORD_BYTES) then Some(BigEndian(n, WORD_BYTES)) else None
  }

  /** Exactly the numbers of 256 bits have a word. */
  lemma UintWordExactly(n: int)
    ensures UintWord(n).Some? <==>
      0 <= n < 0x1_0000000000000000_0000000000000000_0000000000000000_0000000000000000
  {
    PowersAdd(1, 1);
    PowersAdd(2, 2);
    PowersAdd(4, 4);
    PowersAdd(8, 8);
    PowersAdd(16, 16);
  }

  predicate HasHexPrefix(s: string) {
    |s| >= 2 && s[0] == '0' && (s[1] == 'x' || s[1] == 'X')
  }

  function DropHexPrefix(s: string): string {
    if HasHexPrefix(s) then s[2..] else s
  }

  /** The integer a uint256 field's text denotes: hexadecimal behind a 0x, decimal otherwise. */
  function UintOfText(s: string): Option<int> {
    if HasHexPrefix(s) then SetString(s[2..], 16) else SetString(s, 10)
  }

  lemma ShowIntIsDecimal(n: int)
    ensures UintOfText(ShowInt(n)) == Some(n)
  {
    SetStringOfShowInt(n);
    if n >= 0 && |ShowNat(n)| >= 2 {
      assert ShowNat(n)[1] in ShowNat(n);
    }
  }

  /** Every integer is read from its decimal text, and behind a 0x from the hexadecimal text of its bytes. */
  lemma NumbersAreRead(n: int, b: Bytes)
    ensures UintOfText(ShowInt(n)) == Some(n)
    ensures b != [] ==> UintOfText("0x" + HexEncode(b)) == UintOfText("0X" + HexEncode(b)) == Some(NumberOf(b))
  {
    ShowIntIsDecimal(n);
    DigitsOfHex(b);
    assert ("0x" + HexEncode(b))[2..] == HexEncode(b) == ("0X" + HexEncode(b))[2..];
  }

  function NumberWord(s: string): Option<Bytes32> {
    var n :- UintOfText(s);
    UintWord(n)
  }

  /** A 20-byte address: forty hex digits with or without a 0x. */
  function AddressBytes(s: string): Option<Bytes20> {
    var b :- HexDecode(DropHexPrefix(s));
    if |b| == 20 then Some(b) else None
  }

  function AddressWord(s: string): Option<Bytes32> {
    var b :- AddressBytes(s);
    var w: Bytes := seq(12, _ => 0) + b;
    Some(w)
  }

  function HexWord(s: string): Option<Bytes32> {
    var b :- HexDecode(s);
    if |b| == 32 then Some(b) else None
  }

  function LeafWord(c: Primitives, f: Field): Option<Bytes32>
    requires !f.Struct?
  {
    match f
    case HashField(preimage) => Some(c.keccak256(preimage))
    case NumberField(text) => NumberWord(text)
    case AddressField(text) => AddressWord(text)
    case HexField(text) => HexWord(text)
  }

  /** A number and an address enter an encoding as the 32 bytes that write them as one big-endian number. */
  lemma WordsAreNumbers(n: int, text: string)
    ensures UintWord(n).Some? ==> NumberOf(UintWord(n).value) == n
    ensures AddressBytes(text).Some? ==>
      AddressWord(text).Some? && NumberOf(AddressWord(text).value) == NumberOf(AddressBytes(text).value)
  {
    if UintWord(n).Some? {
      BigEndianExactly(n, WORD_BYTES);
    }
    if AddressBytes(text).Some? {
      NumberAfterZeros(12, AddressBytes(text).value);
    }
  }

  // ---------------------------------------------------------------- type texts

  /** A member of a struct type: its type and name, and the field of a message that fills it. */
  datatype Row = Row(typ: string, name: string, field: Field)

  function RowsText(rows: seq<Row>): string {
    if rows == [] then "" else rows[0].typ + " " + rows[0].name + (if |rows| == 1 then "" else ",") + RowsText(rows[1..])
  }

  function RowsFields(rows: seq<Row>): seq<Field> {
    seq(|rows|, i requires 0 <= i < |rows| => rows[i].field)
  }

  /** The message fills the members that its type text declares, each with its own field, in the order of the text. */
  ghost predicate LaidOut(message: Field, name: string, rows: seq<Row>, nested: string) {
    && message.Struct? && message.fields == RowsFields(rows)
    && message.typeText == name + "(" + RowsText(rows) + ")" + nested
  }

  lemma OneRow(row: Row, rest: seq<Row>)
    ensures RowsText([row] + rest) == row.typ + " " + row.name + (if rest == [] then "" else ",") + RowsText(rest)
  {
    assert ([row] + rest)[1..] == rest;
  }

  lemma FourRows(a: Row, b: Row, c: Row, d: Row)
    ensures RowsText([a, b, c, d]) ==
      a.typ + " " + a.name + "," + (b.typ + " " + b.name + "," + (c.typ + " " + c.name + "," + (d.typ + " " + d.name)))
  {
    OneRow(a, [b, c, d]);
    OneRow(b, [c, d]);
    OneRow(c, [d]);
    OneRow(d, []);
    assert [a, b, c, d] == [a] + [b, c, d] && [b, c, d] == [b] + [c, d] && [c, d] == [c] + [d] && [d] == [d] + [];
  }

  lemma SevenRows(a: Row, b: Row, c: Row, d: Row, e: Row, f: Row, g: Row)
    ensures RowsText([a, b, c, d, e, f, g]) ==
      a.typ + " " + a.name + "," + (b.typ + " " + b.name + "," + (c.typ + " " + c.name + "," + RowsText([d, e, f, g])))
  {
    OneRow(a, [b, c, d, e, f, g]);
    OneRow(b, [c, d, e, f, g]);
    OneRow(c, [d, e, f, g]);
    assert [a, b, c, d, e, f, g] == [a] + [b, c, d, e, f, g] && [b, c, d, e, f, g] == [b] + [c, d, e, f, g];
    assert [c, d, e, f, g] == [c] + [d, e, f, g];
  }

  lemma FourLaidOut(message: Field, name: string, members: string, nested: string, a: Row, b: Row, c: Row, d: Row)
    requires message.Struct? && message.fields == [a.field, b.field, c.field, d.field]
    requires message.typeText == name + "(" + members + ")" + nested
    requires a.typ + " " + a.name + "," + (b.typ + " " + b.name + "," + (c.typ + " " + c.name + "," +
               (d.typ + " " + d.name))) == members
    ensures LaidOut(message, name, [a, b, c, d], nested)
  {
    FourRows(a, b, c, d);
  }

  lemma SevenLaidOut(message: Field, name: string, members: string, nested: string,
                     a: Row, b: Row, c: Row, d: Row, e: Row, f: Row, g: Row)
    requires message.Struct?
    requires message.fields == [a.field, b.field, c.field, d.field, e.field, f.field, g.field]
    requires message.typeText == name + "(" + members + ")" + nested
    requires a.typ + " " + a.name + "," + (b.typ + " " + b.name + "," + (c.typ + " " + c.name + "," +
               (d.typ + " " + d.name + "," + (e.typ + " " + e.name + "," + (f.typ + " " + f.name + "," +
               (g.typ + " " + g.name)))))) == members
    ensures LaidOut(message, name, [a, b, c, d, e, f, g], nested)
  {
    SevenRows(a, b, c, d, e, f, g);
    FourRows(d, e, f, g);
  }

  // ---------------------------------------------------------------- encoding

  /** The word a field contributes to encodeData; None when a leaf has no valid form. */
  function Encode(c: Primitives, f: Field): Option<Bytes32>
    decreases f, 0
  {
    if f.Struct? then
      var preimage :- StructPreimage(c, f.typeText, f.fields);
      Some(c.keccak256(preimage))
    else LeafWord(c, f)
  }

  function StructPreimage(c: Primitives, typeText: string, fields: seq<Field>): Option<Bytes>
    decreases fields, 1
  {
    var data :- EncodeAll(c, fields);
    Some(c.keccak256(Utf8(typeText)) + data)
  }

  function EncodeAll(c: Primitives, fields: seq<Field>): Option<Bytes>
    decreases fields, 0
  {
    if fields == [] then Some([])
    else
      match (Encode(c, fields[0]), EncodeAll(c, fields[1..]))
      case (Some(word), Some(rest)) => Some(word + rest)
      case _ => None
  }

  /** The two-byte prefix, the domain separator and the struct hash. */
  function SignedPreimage(c: Primitives, domain: Field, message: Field): Option<Bytes> {
    Framed(Encode(c, domain), Encode(c, message))
  }

  function Framed(separator: Option<Bytes32>, hash: Option<Bytes32>): Option<Bytes> {
    var s :- separator;
    var h :- hash;
    Some([0x19, 0x01] + s + h)
  }

  function Digest(c: Primitives, domain: Field, message: Field): Option<Bytes32> {
    var preimage :- SignedPreimage(c, domain, message);
    Some(c.keccak256(preimage))
  }

  function Only(x: Option<Bytes>): set<Bytes> {
    if x.Some? then {x.value} else {}
  }

  /** Every byte string hashed while encoding f. */
  function Preimages(c: Primitives, f: Field): set<Bytes>
    decreases f, 0
  {
    match f
    case HashField(preimage) => {preimage}
    case Struct(typeText, fields) =>
      {Utf8(typeText)} + Only(StructPreimage(c, typeText, fields)) + PreimagesOfAll(c, fields)
    case _ => {}
  }

  function PreimagesOfAll(c: Primitives, fields: seq<Field>): set<Bytes>
    decreases fields, 0
  {
    if fields == [] then {} else Preimages(c, fields[0]) + PreimagesOfAll(c, fields[1..])
  }

  /** Every byte string hashed while computing a digest. */
  function DigestPreimages(c: Primitives, domain: Field, message: Field): set<Bytes> {
    Only(SignedPreimage(c, domain, message)) + Preimages(c, domain) + Preimages(c, message)
  }

  // ---------------------------------------------------------------- meaning

  /** The same type: equal type texts, and fields of the same kinds in the same order. */
  predicate SameType(f: Field, g: Field)
    decreases f
  {
    match (f, g)
    case (HashField(_), HashField(_)) => true
    case (NumberField(_), NumberField(_)) => true
    case (AddressField(_), AddressField(_)) => true
    case (HexField(_), HexField(_)) => true
    case (Struct(t, fs), Struct(u, gs)) =>
      t == u && |fs| == |gs| && forall i :: 0 <= i < |fs| ==> SameType(fs[i], gs[i])
    case _ => false
  }

  /** The same content: equal hashed values, equal numbers, addresses and words, however they are spelled. */
  predicate SameMeaning(f: Field, g: Field)
    requires SameType(f, g)
    decreases f
  {
    match f
    case HashField(preimage) => preimage == g.preimage
    case NumberField(text) => UintOfText(text) == UintOfText(g.text)
    case AddressField(text) => AddressBytes(text) == AddressBytes(g.text)
    case HexField(text) => HexDecode(text) == HexDecode(g.text)
    case Struct(_, fs) => forall i :: 0 <= i < |fs| ==> SameMeaning(fs[i], g.fields[i])
  }

  lemma LeafBinds(c: Primitives, f: Field, g: Field)
    requires !f.Struct? && SameType(f, g)
    requires LeafWord(c, f).Some? && LeafWord(c, f) == LeafWord(c, g)
    ensures SameMeaning(f, g) || Collision(c.keccak256, Preimages(c, f), Preimages(c, g))
  {
    match f
    case HashField(p) =>
      SameHash(c.keccak256, Preimages(c, f), Preimages(c, g), p, g.preimage);
    case NumberField(text) =>
      BigEndianInjective(UintOfText(text).value, UintOfText(g.text).value, WORD_BYTES);
    case AddressField(text) =>
      assert AddressBytes(text).value == AddressWord(text).value[12..];
      assert AddressBytes(g.text).value == AddressWord(g.text).value[12..];
    case HexField(_) =>
  }

  /** Equal encodings of one type mean the same, or two of the inputs hashed on the way collide. */
  lemma {:induction false} EncodingBinds(c: Primitives, f: Field, g: Field)
    requires SameType(f, g) && Encode(c, f).Some? && Encode(c, f) == Encode(c, g)
    ensures SameMeaning(f, g) || Collision(c.keccak256, Preimages(c, f), Preimages(c, g))
    decreases f, 0
  {
    if f.Struct? {
      var a, b, fs, gs := Preimages(c, f), Preimages(c, g), f.fields, g.fields;
      var x, y := StructPreimage(c, f.typeText, fs).value, StructPreimage(c, g.typeText, gs).value;
      SameHash(c.keccak256, a, b, x, y);
      if x == y {
        assert EncodeAll(c, fs).value == x[32..] == y[32..] == EncodeAll(c, gs).value;
        EncodingsBind(c, fs, gs);
        if Collision(c.keccak256, PreimagesOfAll(c, fs), PreimagesOfAll(c, gs)) {
          CollisionWidens(c.keccak256, PreimagesOfAll(c, fs), PreimagesOfAll(c, gs), a, b);
        }
      }
    } else {
      LeafBinds(c, f, g);
    }
  }

  lemma {:induction false} EncodingsBind(c: Primitives, fs: seq<Field>, gs: seq<Field>)
    requires |fs| == |gs| && forall i :: 0 <= i < |fs| ==> SameType(fs[i], gs[i])
    requires EncodeAll(c, fs).Some? && EncodeAll(c, fs) == EncodeAll(c, gs)
    ensures || Collision(c.keccak256, PreimagesOfAll(c, fs), PreimagesOfAll(c, gs))
            || forall i :: 0 <= i < |fs| ==> SameMeaning(fs[i], gs[i])
    decreases fs, 0
  {
    if fs != [] {
      var a, b := PreimagesOfAll(c, fs), PreimagesOfAll(c, gs);
      var x, y := EncodeAll(c, fs).value, EncodeAll(c, gs).value;
      assert Encode(c, fs[0]).value == x[..32] == y[..32] == Encode(c, gs[0]).value;
      assert EncodeAll(c, fs[1..]).value == x[32..] == y[32..] == EncodeAll(c, gs[1..]).value;
      EncodingBinds(c, fs[0], gs[0]);
      EncodingsBind(c, fs[1..], gs[1..]);
      if Collision(c.keccak256, Preimages(c, fs[0]), Preimages(c, gs[0])) {
        CollisionWidens(c.keccak256, Preimages(c, fs[0]), Preimages(c, gs[0]), a, b);
      } else if Collision(c.keccak256, PreimagesOfAll(c, fs[1..]), PreimagesOfAll(c, gs[1..])) {
        CollisionWidens(c.keccak256, PreimagesOfAll(c, fs[1..]), PreimagesOfAll(c, gs[1..]), a, b);
      } else {
        forall i | 1 <= i < |fs|
          ensures SameMeaning(fs[i], gs[i])
        {
          assert fs[i] == fs[1..][i - 1] && gs[i] == gs[1..][i - 1];
        }
      }
    }
  }

  /** Structs of different types never share an encoding: their type hashes would collide. */
  lemma TypesSeparate(c: Primitives, f: Field, g: Field)
    requires f.Struct? && g.Struct? && f.typeText != g.typeText
    requires Encode(c, f).Some? && Encode(c, f) == Encode(c, g)
    ensures Collision(c.keccak256, Preimages(c, f), Preimages(c, g))
  {
    var a, b := Preimages(c, f), Preimages(c, g);
    var x, y := StructPreimage(c, f.typeText, f.fields).value, StructPreimage(c, g.typeText, g.fields).value;
    SameHash(c.keccak256, a, b, x, y);
    if x == y {
      assert c.keccak256(Utf8(f.typeText)) == x[..32] == y[..32] == c.keccak256(Utf8(g.typeText));
      SameHash(c.keccak256, a, b, Utf8(f.typeText), Utf8(g.typeText));
      if Utf8(f.typeText) == Utf8(g.typeText) {
        Utf8Injective(f.typeText, g.typeText);
      }
    }
  }

  lemma FramedInjective(a: Option<Bytes32>, b: Option<Bytes32>, c: Option<Bytes32>, d: Option<Bytes32>)
    requires Framed(a, b).Some? && Framed(a, b) == Framed(c, d)
    ensures a.Some? && b.Some? && a == c && b == d
  {
    var x := Framed(a, b).value;
    assert a.value == x[2..34] == c.value;
    assert b.value == x[34..] == d.value;
  }

  /** A digest is the hash of 66 bytes: 0x19 and 0x01, the domain's encoding, the message's (EIP-191, EIP-712). */
  lemma DigestIsFramed(c: Primitives, domain: Field, message: Field)
    requires Digest(c, domain, message).Some?
    ensures exists pre: Bytes ::
      && |pre| == 66 && pre[0] == 0x19 && pre[1] == 0x01
      && Some(pre[2..34]) == Encode(c, domain) && Some(pre[34..]) == Encode(c, message)
      && Digest(c, domain, message) == Some(c.keccak256(pre))
  {
    var pre := SignedPreimage(c, domain, message).value;
    FrameParts(Encode(c, domain), Encode(c, message));
    assert |pre| == 66;
  }

  lemma FrameParts(separator: Option<Bytes32>, hash: Option<Bytes32>)
    requires Framed(separator, hash).Some?
    ensures var pre := Framed(separator, hash).value;
      && |pre| == 66 && pre[0] == 0x19 && pre[1] == 0x01
      && Some(pre[2..34]) == separator && Some(pre[34..]) == hash
  {
    var pre := Framed(separator, hash).value;
    assert pre[2..34] == separator.value && pre[34..] == hash.value;
  }

  lemma SamePreimage(c: Primitives, d: Field, m: Field, e: Field, n: Field)
    requires SignedPreimage(c, d, m).Some? && SignedPreimage(c, d, m) == SignedPreimage(c, e, n)
    ensures Encode(c, d).Some? && Encode(c, d) == Encode(c, e) && Encode(c, m).Some? && Encode(c, m) == Encode(c, n)
  {
    FramedInjective(Encode(c, d), Encode(c, m), Encode(c, e), Encode(c, n));
  }

  lemma DigestParts(c: Primitives, d: Field, m: Field, e: Field, n: Field)
    requires Digest(c, d, m).Some? && Digest(c, d, m) == Digest(c, e, n)
    ensures || Collision(c.keccak256, DigestPreimages(c, d, m), DigestPreimages(c, e, n))
            || (Encode(c, d).Some? && Encode(c, d) == Encode(c, e) && Encode(c, m).Some? && Encode(c, m) == Encode(c, n))
  {
    var x, y := SignedPreimage(c, d, m).value, SignedPreimage(c, e, n).value;
    SameHash(c.keccak256, DigestPreimages(c, d, m), DigestPreimages(c, e, n), x, y);
    if x == y {
      SamePreimage(c, d, m, e, n);
    }
  }

  /** One digest: one message type and one meaning of domain and message, or a collision among the inputs. */
  lemma DigestBinds(c: Primitives, d: Field, m: Field, e: Field, n: Field)
    requires Digest(c, d, m).Some? && Digest(c, d, m) == Digest(c, e, n)
    requires SameType(d, e)
    requires m.Struct? && n.Struct? && (m.typeText == n.typeText ==> SameType(m, n))
    ensures || Collision(c.keccak256, DigestPreimages(c, d, m), DigestPreimages(c, e, n))
            || (m.typeText == n.typeText && SameMeaning(d, e) && SameMeaning(m, n))
  {
    var a, b := DigestPreimages(c, d, m), DigestPreimages(c, e, n);
    DigestParts(c, d, m, e, n);
    if !Collision(c.keccak256, a, b) {
      EncodingBinds(c, d, e);
      if Collision(c.keccak256, Preimages(c, d), Preimages(c, e)) {
        CollisionWidens(c.keccak256, Preimages(c, d), Preimages(c, e), a, b);
      }
      if m.typeText == n.typeText {
        EncodingBinds(c, m, n);
      } else {
        TypesSeparate(c, m, n);
      }
      if Collision(c.keccak256, Preimages(c, m), Preimages(c, n)) {
        CollisionWidens(c.keccak256, Preimages(c, m), Preimages(c, n), a, b);
      }
    }
  }
}
