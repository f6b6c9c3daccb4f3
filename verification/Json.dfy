// encoding/json for the fixed record shapes of this system: a writer, and the proof that it never
// writes one text for two different values. Texts are Unicode scalar sequences (valid UTF-8).
module Json {
  import opened Basics
  import opened Base64
  import opened Text

  datatype Value =
    | Null
    | Num(n: int)
    | Str(s: string)
    | Arr(items: Items)
    | Obj(members: Members)

  datatype Items = NoItems | Item(head: Value, tail: Items)

  datatype Members = NoMembers | Member(key: string, value: Value, rest: Members)

  function Hex4(n: int): string
    requires 0 <= n < 0x1_0000
  {
    [Digit(n / 16 / 16 / 16), Digit(n / 16 / 16 % 16), Digit(n / 16 % 16), Digit(n % 16)]
  }

  predicate EscapedAsHex(c: char) {
    c as int < 0x20 || c == '<' || c == '>' || c == '&' || c as int == 0x2028 || c as int == 0x2029
  }

  /** The letter of a two-character escape. */
  function ShortEscape(c: char): Option<char> {
    if c == '\"' then Some('\"')
    else if c == '\\' then Some('\\')
    else if c as int == 8 then Some('b')
    else if c as int == 12 then Some('f')
    else if c == '\n' then Some('n')
    else if c == '\r' then Some('r')
    else if c == '\t' then Some('t')
    else None
  }

  function Escape(c: char): (s: string)
    ensures s != "" && s[0] != '\"'
  {
    match ShortEscape(c)
    case Some(e) => ['\\', e]
    case None => if EscapedAsHex(c) then ['\\', 'u'] + Hex4(c as int) else [c]
  }

  // Each writer takes the text that follows it: WriteValue(v, rest) is v's JSON followed by rest.

  function WriteBody(s: string, rest: string): string {
    if s == "" then "\"" + rest else Escape(s[0]) + WriteBody(s[1..], rest)
  }

  function WriteString(s: string, rest: string): string {
    "\"" + WriteBody(s, rest)
  }

  function WriteValue(v: Value, rest: string): string {
    match v
    case Null => "null" + rest
    case Num(n) => ShowInt(n) + rest
    case Str(s) => WriteString(s, rest)
    case Arr(items) => "[" + WriteItems(items, true, rest)
    case Obj(members) => "{" + WriteMembers(members, true, rest)
  }

  function Separator(first: bool): string {
    if first then "" else ","
  }

  function WriteItems(items: Items, first: bool, rest: string): string {
    match items
    case NoItems => "]" + rest
    case Item(head, tail) => Separator(first) + WriteValue(head, WriteItems(tail, false, rest))
  }

  function WriteMembers(members: Members, first: bool, rest: string): string {
    match members
    case NoMembers => "}" + rest
    case Member(k, v, more) =>
      Separator(first) + WriteString(k, ":" + WriteValue(v, WriteMembers(more, false, rest)))
  }

  /** json.Marshal, as the bytes that get hashed, signed or sent. */
  function Marshal(v: Value): Bytes {
    Utf8(WriteValue(v, ""))
  }

  // ---------------------------------------------------------------- unique readability

  lemma Hex4Injective(m: int, n: int)
    requires 0 <= m < 0x1_0000 && 0 <= n < 0x1_0000
    requires Hex4(m) == Hex4(n)
    ensures m == n
  {
  }

  lemma EscapePrefixFree(c: char, d: char, x: string, y: string)
    requires Escape(c) + x == Escape(d) + y
    ensures c == d && x == y
  {
    var p, q := Escape(c), Escape(d);
    var s := p + x;
    assert s == q + y;
    assert s[0] == p[0] == q[0];
    if s[0] == '\\' {
      assert s[1] == p[1] == q[1];
    }
    assert |p| == |q|;
    assert p == s[..|p|] == q;
    assert x == s[|p|..] == y;
    if |p| == 6 {
      assert Hex4(c as int) == p[2..] == q[2..] == Hex4(d as int);
      Hex4Injective(c as int, d as int);
    }
  }

  lemma {:induction false} BodyPrefixFree(s: string, t: string, x: string, y: string)
    requires WriteBody(s, x) == WriteBody(t, y)
    ensures s == t && x == y
  {
    var w := WriteBody(s, x);
    assert s == "" <==> w[0] == '\"';
    assert t == "" <==> w[0] == '\"';
    if s == "" {
      assert w[1..] == x && w[1..] == y;
    } else {
      EscapePrefixFree(s[0], t[0], WriteBody(s[1..], x), WriteBody(t[1..], y));
      BodyPrefixFree(s[1..], t[1..], x, y);
    }
  }

  lemma StringPrefixFree(s: string, t: string, x: string, y: string)
    requires WriteString(s, x) == WriteString(t, y)
    ensures s == t && x == y
  {
    assert WriteString(s, x)[1..] == WriteBody(s, x);
    assert WriteString(t, y)[1..] == WriteBody(t, y);
    BodyPrefixFree(s, t, x, y);
  }

  /** The constructor of a value shows in the first character of its text. */
  datatype Kind = AsNull | AsNum | AsStr | AsArr | AsObj | NoValue

  function KindOf(v: Value): Kind {
    match v
    case Null => AsNull
    case Num(_) => AsNum
    case Str(_) => AsStr
    case Arr(_) => AsArr
    case Obj(_) => AsObj
  }

  function KindOfChar(c: char): Kind {
    if c == 'n' then AsNull
    else if c == '-' || IsDecimalDigit(c) then AsNum
    else if c == '\"' then AsStr
    else if c == '[' then AsArr
    else if c == '{' then AsObj
    else NoValue
  }

  lemma FirstCharTellsKind(v: Value, rest: string)
    ensures WriteValue(v, rest) != ""
    ensures KindOfChar(WriteValue(v, rest)[0]) == KindOf(v)
  {
    match v
    case Null => assert WriteValue(v, rest)[0] == 'n';
    case Num(n) =>
      var s := ShowInt(n);
      ShowIntSign(n);
      assert n >= 0 ==> s[0] in ShowNat(n);
      assert WriteValue(v, rest)[0] == s[0];
    case Str(_) => assert WriteValue(v, rest)[0] == '\"';
    case Arr(_) => assert WriteValue(v, rest)[0] == '[';
    case Obj(_) => assert WriteValue(v, rest)[0] == '{';
  }

  lemma {:induction false} ValuePrefixFree(v: Value, w: Value, x: string, y: string)
    requires EndsNumeral(x) && EndsNumeral(y)
    requires WriteValue(v, x) == WriteValue(w, y)
    ensures v == w && x == y
    decreases v
  {
    FirstCharTellsKind(v, x);
    FirstCharTellsKind(w, y);
    var s := WriteValue(v, x);
    match v
    case Null =>
      assert s[4..] == x && s[4..] == y;
    case Num(n) =>
      ShowIntPrefixFree(n, w.n, x, y);
    case Str(t) =>
      StringPrefixFree(t, w.s, x, y);
    case Arr(items) =>
      assert s[1..] == WriteItems(items, true, x) && s[1..] == WriteItems(w.items, true, y);
      ItemsPrefixFree(items, w.items, true, x, y);
    case Obj(members) =>
      assert s[1..] == WriteMembers(members, true, x) && s[1..] == WriteMembers(w.members, true, y);
      MembersPrefixFree(members, w.members, true, x, y);
  }

  lemma ItemsFirstChar(items: Items, first: bool, rest: string)
    ensures var s := WriteItems(items, first, rest);
      && s != ""
      && (s[0] == ']' <==> items.NoItems?)
      && (!first ==> EndsNumeral(s))
  {
    if items.Item? {
      FirstCharTellsKind(items.head, WriteItems(items.tail, false, rest));
    }
  }

  lemma {:induction false} ItemsPrefixFree(a: Items, b: Items, first: bool, x: string, y: string)
    requires EndsNumeral(x) && EndsNumeral(y)
    requires WriteItems(a, first, x) == WriteItems(b, first, y)
    ensures a == b && x == y
    decreases a
  {
    ItemsFirstChar(a, first, x);
    ItemsFirstChar(b, first, y);
    var s := WriteItems(a, first, x);
    match a
    case NoItems =>
      assert s[1..] == x && s[1..] == y;
    case Item(head, tail) =>
      var afterHead, afterOther := WriteItems(tail, false, x), WriteItems(b.tail, false, y);
      ItemsFirstChar(tail, false, x);
      ItemsFirstChar(b.tail, false, y);
      var n := |Separator(first)|;
      assert s[n..] == WriteValue(head, afterHead) && s[n..] == WriteValue(b.head, afterOther);
      ValuePrefixFree(head, b.head, afterHead, afterOther);
      ItemsPrefixFree(tail, b.tail, false, x, y);
  }

  lemma MembersFirstChar(members: Members, first: bool, rest: string)
    ensures var s := WriteMembers(members, first, rest);
      && s != ""
      && (s[0] == '}' <==> members.NoMembers?)
      && (!first ==> EndsNumeral(s))
  {
  }

  lemma {:induction false} MembersPrefixFree(a: Members, b: Members, first: bool, x: string, y: string)
    requires EndsNumeral(x) && EndsNumeral(y)
    requires WriteMembers(a, first, x) == WriteMembers(b, first, y)
    ensures a == b && x == y
    decreases a
  {
    MembersFirstChar(a, first, x);
    MembersFirstChar(b, first, y);
    var s := WriteMembers(a, first, x);
    match a
    case NoMembers =>
      assert s[1..] == x && s[1..] == y;
    case Member(k, v, more) =>
      var afterValue, afterOther := WriteMembers(more, false, x), WriteMembers(b.rest, false, y);
      MembersFirstChar(more, false, x);
      MembersFirstChar(b.rest, false, y);
      var afterKey, afterOtherKey := ":" + WriteValue(v, afterValue), ":" + WriteValue(b.value, afterOther);
      var n := |Separator(first)|;
      assert s[n..] == WriteString(k, afterKey) && s[n..] == WriteString(b.key, afterOtherKey);
      StringPrefixFree(k, b.key, afterKey, afterOtherKey);
      assert afterKey[1..] == WriteValue(v, afterValue) && afterOtherKey[1..] == WriteValue(b.value, afterOther);
      ValuePrefixFree(v, b.value, afterValue, afterOther);
      MembersPrefixFree(more, b.rest, false, x, y);
  }

  /** Two values never marshal to the same bytes. */
  lemma MarshalInjective(v: Value, w: Value)
    requires Marshal(v) == Marshal(w)
    ensures v == w
  {
    Utf8Injective(WriteValue(v, ""), WriteValue(w, ""));
    ValuePrefixFree(v, w, "", "");
  }

  // ---------------------------------------------------------------- Go values as JSON

  function StringItems(xs: seq<string>): Items {
    if xs == [] then NoItems else Item(Str(xs[0]), StringItems(xs[1..]))
  }

  /** A []string: a nil slice is null, an empty one is []. */
  function Strings(xs: Slice<string>): Value {
    match xs
    case Nil => Null
    case Of(elems) => Arr(StringItems(elems))
  }

  /** A []byte: null or standard base64 text. */
  function Blob(b: Slice<byte>): Value {
    match b
    case Nil => Null
    case Of(elems) => Str(EncodePadded(Standard, elems))
  }

  lemma {:induction false} StringItemsInjective(xs: seq<string>, ys: seq<string>)
    requires StringItems(xs) == StringItems(ys)
    ensures xs == ys
  {
    if xs != [] && ys != [] {
      StringItemsInjective(xs[1..], ys[1..]);
      assert xs == [xs[0]] + xs[1..] && ys == [ys[0]] + ys[1..];
    }
  }

  lemma StringsInjective(xs: Slice<string>, ys: Slice<string>)
    requires Strings(xs) == Strings(ys)
    ensures xs == ys
  {
    if xs.Of? && ys.Of? {
      StringItemsInjective(xs.elems, ys.elems);
    }
  }

  lemma BlobInjective(b: Slice<byte>, c: Slice<byte>)
    requires Blob(b) == Blob(c)
    ensures b == c
  {
    if b.Of? && c.Of? {
      PaddedInjective(Standard, b.elems, c.elems);
    }
  }

  // ---------------------------------------------------------------- which characters appear

  /** Neither a control character, nor one that HTML or JavaScript gives a meaning to. */
  predicate Harmless(c: char) {
    c as int >= 0x20 && c !in "<>&" && c as int != 0x2028 && c as int != 0x2029
  }

  predicate AllHarmless(s: string) {
    forall i :: 0 <= i < |s| ==> Harmless(s[i])
  }

  lemma HarmlessTogether(s: string, t: string)
    requires AllHarmless(s) && AllHarmless(t)
    ensures AllHarmless(s + t)
  {
  }

  lemma DigitIsHarmless(d: int)
    requires 0 <= d < 16
    ensures Harmless(Digit(d)) && Digit(d) != '\"' && Digit(d) != '\\'
  {
  }

  lemma Hex4IsHarmless(n: int)
    requires 0 <= n < 0x1_0000
    ensures AllHarmless(Hex4(n))
  {
    DigitIsHarmless(n / 16 / 16 / 16);
    DigitIsHarmless(n / 16 / 16 % 16);
    DigitIsHarmless(n / 16 % 16);
    DigitIsHarmless(n % 16);
  }

  lemma EscapeIsHarmless(c: char)
    ensures AllHarmless(Escape(c))
  {
    if ShortEscape(c).None? && EscapedAsHex(c) {
      Hex4IsHarmless(c as int);
      HarmlessTogether("\\u", Hex4(c as int));
    }
  }

  lemma EscapeOfOrdinary(c: char)
    requires Harmless(c) && c != '\"' && c != '\\'
    ensures Escape(c) == [c]
  {
    assert "<>&"[0] == '<' && "<>&"[1] == '>' && "<>&"[2] == '&';
  }

  lemma {:induction false} BodyIsHarmless(s: string, rest: string)
    requires AllHarmless(rest)
    ensures AllHarmless(WriteBody(s, rest))
  {
    if s == "" {
      HarmlessTogether("\"", rest);
    } else {
      BodyIsHarmless(s[1..], rest);
      EscapeIsHarmless(s[0]);
      HarmlessTogether(Escape(s[0]), WriteBody(s[1..], rest));
    }
  }

  lemma StringIsHarmless(s: string, rest: string)
    requires AllHarmless(rest)
    ensures AllHarmless(WriteString(s, rest))
  {
    BodyIsHarmless(s, rest);
    HarmlessTogether("\"", WriteBody(s, rest));
  }

  lemma {:induction false} NumeralIsHarmless(n: nat)
    ensures AllHarmless(ShowNat(n))
  {
    if n >= 10 {
      NumeralIsHarmless(n / 10);
    }
  }

  /** No JSON text of a value holds a control character, an angle bracket or an ampersand, whatever its strings do. */
  lemma {:induction false} TextIsHarmless(v: Value, rest: string)
    requires AllHarmless(rest)
    ensures AllHarmless(WriteValue(v, rest))
  {
    match v
    case Null => HarmlessTogether("null", rest);
    case Num(n) =>
      NumeralIsHarmless(if n < 0 then -n else n);
      HarmlessTogether(ShowInt(n), rest);
    case Str(s) => StringIsHarmless(s, rest);
    case Arr(items) =>
      ItemsAreHarmless(items, true, rest);
      HarmlessTogether("[", WriteItems(items, true, rest));
    case Obj(members) =>
      MembersAreHarmless(members, true, rest);
      HarmlessTogether("{", WriteMembers(members, true, rest));
  }

  lemma {:induction false} ItemsAreHarmless(items: Items, first: bool, rest: string)
    requires AllHarmless(rest)
    ensures AllHarmless(WriteItems(items, first, rest))
  {
    match items
    case NoItems => HarmlessTogether("]", rest);
    case Item(head, tail) =>
      ItemsAreHarmless(tail, false, rest);
      TextIsHarmless(head, WriteItems(tail, false, rest));
      HarmlessTogether(Separator(first), WriteValue(head, WriteItems(tail, false, rest)));
  }

  lemma {:induction false} MembersAreHarmless(members: Members, first: bool, rest: string)
    requires AllHarmless(rest)
    ensures AllHarmless(WriteMembers(members, first, rest))
  {
    match members
    case NoMembers => HarmlessTogether("}", rest);
    case Member(k, v, more) =>
      var others := WriteMembers(more, false, rest);
      MembersAreHarmless(more, false, rest);
      TextIsHarmless(v, others);
      HarmlessTogether(":", WriteValue(v, others));
      StringIsHarmless(k, ":" + WriteValue(v, others));
      HarmlessTogether(Separator(first), WriteString(k, ":" + WriteValue(v, others)));
  }

  /** A string without such characters, quotes and backslashes is written as it is. */
  lemma {:induction false} OrdinaryIsVerbatim(s: string, rest: string)
    requires AllHarmless(s) && '\"' !in s && '\\' !in s
    ensures WriteBody(s, rest) == s + ("\"" + rest)
  {
    if s != "" {
      EscapeOfOrdinary(s[0]);
      OrdinaryIsVerbatim(s[1..], rest);
      assert WriteBody(s, rest) == [s[0]] + (s[1..] + ("\"" + rest));
      assert [s[0]] + (s[1..] + ("\"" + rest)) == s + ("\"" + rest);
    }
  }
}
