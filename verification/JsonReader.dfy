// encoding/json, reading side, for the compact texts that Marshal writes: bytes to text, text to value, and members by
// name. Reading gives back whatever was written.
module JsonReader {
  import opened Basics
  import opened Json
  import opened Text

  // ---------------------------------------------------------------- text

  /** How many bytes the character has that starts with this byte. */
  function WidthOf(b: byte): Option<nat> {
    if b < 0x80 then Some(1)
    else if 0xC0 <= b < 0xE0 then Some(2)
    else if 0xE0 <= b < 0xF0 then Some(3)
    else if 0xF0 <= b < 0xF8 then Some(4)
    else None
  }

  function CharOf(n: int): Option<char> {
    if 0 <= n < 0xD800 || 0xE000 <= n < 0x11_0000 then Some(n as char) else None
  }

  function ReadUtf8(b: Bytes): Option<string> {
    if b == [] then Some("")
    else
      var width :- WidthOf(b[0]);
      if |b| < width then None
      else
        var c :- CharOf(CodePoint(b[..width]));
        var rest :- ReadUtf8(b[width..]);
        if Utf8Char(c) == b[..width] then Some([c] + rest) else None
  }

  lemma {:induction false} ReadUtf8Inverts(s: string)
    ensures ReadUtf8(Utf8(s)) == Some(s)
  {
    if s != "" {
      var p, b := Utf8Char(s[0]), Utf8(s);
      CharIsRead(s[0]);
      ReadUtf8Inverts(s[1..]);
      assert b[0] == p[0] && b[..|p|] == p && b[|p|..] == Utf8(s[1..]);
      assert s == [s[0]] + s[1..];
    }
  }

  lemma CharIsRead(c: char)
    ensures WidthOf(Utf8Char(c)[0]) == Some(|Utf8Char(c)|) && CharOf(CodePoint(Utf8Char(c))) == Some(c)
  {
    Utf8CharPrefixFree(c, c, [], []);
    assert CodePoint(Utf8Char(c)) == c as int;
  }

  // ---------------------------------------------------------------- strings

  function Hex4Value(s: string): Option<nat>
    requires |s| == 4
  {
    var a :- DigitValue(s[0]);
    var b :- DigitValue(s[1]);
    var c :- DigitValue(s[2]);
    var d :- DigitValue(s[3]);
    Some(((a * 16 + b) * 16 + c) * 16 + d)
  }

  function Unescape(letter: char): Option<char> {
    match letter
    case '\"' => Some('\"')
    case '\\' => Some('\\')
    case '/' => Some('/')
    case 'b' => Some(8 as char)
    case 'f' => Some(12 as char)
    case 'n' => Some('\n')
    case 'r' => Some('\r')
    case 't' => Some('\t')
    case _ => None
  }

  /** One character of a string and what follows it; a control character has to be escaped. */
  function ReadChar(s: string): (r: Option<(char, string)>)
    ensures r.Some? ==> |r.value.1| < |s|
  {
    if s == "" || s[0] == '\"' || s[0] as int < 0x20 then None
    else if s[0] != '\\' then Some((s[0], s[1..]))
    else if |s| < 2 then None
    else if s[1] != 'u' then
      var c :- Unescape(s[1]);
      Some((c, s[2..]))
    else if |s| < 6 then None
    else
      var n :- Hex4Value(s[2..6]);
      var c :- CharOf(n);
      Some((c, s[6..]))
  }

  /** The rest of a string behind its opening quote, and what follows the closing one. */
  function ReadBody(s: string): (r: Option<(string, string)>)
    ensures r.Some? ==> |r.value.1| < |s|
    decreases |s|
  {
    if s != "" && s[0] == '\"' then Some(("", s[1..]))
    else
      var (c, after) :- ReadChar(s);
      var (t, rest) :- ReadBody(after);
      Some(([c] + t, rest))
  }

  lemma Hex4IsRead(n: int)
    requires 0 <= n < 0x1_0000
    ensures Hex4Value(Hex4(n)) == Some(n)
  {
    var a, b, c, d := n / 16 / 16 / 16, n / 16 / 16 % 16, n / 16 % 16, n % 16;
    DigitIsRead(a);
    DigitIsRead(b);
    DigitIsRead(c);
    DigitIsRead(d);
  }

  lemma DigitIsRead(d: int)
    requires 0 <= d < 16
    ensures DigitValue(Digit(d)) == Some(d)
  {
  }

  lemma EscapeIsRead(c: char, rest: string)
    ensures ReadChar(Escape(c) + rest) == Some((c, rest))
  {
    var s := Escape(c) + rest;
    if ShortEscape(c).Some? {
      assert s[0] == '\\' && s[1] == ShortEscape(c).value && s[2..] == rest;
    } else if EscapedAsHex(c) {
      Hex4IsRead(c as int);
      assert s[0] == '\\' && s[1] == 'u' && s[2..6] == Hex4(c as int) && s[6..] == rest;
    } else {
      assert s[0] == c && s[1..] == rest;
    }
  }

  lemma {:induction false} BodyIsRead(s: string, rest: string)
    ensures ReadBody(WriteBody(s, rest)) == Some((s, rest))
  {
    var w := WriteBody(s, rest);
    if s == "" {
      assert w[0] == '\"' && w[1..] == rest;
    } else {
      EscapeIsRead(s[0], WriteBody(s[1..], rest));
      BodyIsRead(s[1..], rest);
      assert w[0] != '\"';
      assert s == [s[0]] + s[1..];
    }
  }

  // ---------------------------------------------------------------- values

  function LeadingDigits(s: string): (n: nat)
    ensures n <= |s|
  {
    if s != "" && IsDecimalDigit(s[0]) then 1 + LeadingDigits(s[1..]) else 0
  }

  /** An integer and what follows it. */
  function ReadNumber(s: string): (r: Option<(int, string)>)
    ensures r.Some? ==> |r.value.1| < |s|
  {
    var sign := if s != "" && s[0] == '-' then 1 else 0;
    var n := sign + LeadingDigits(s[sign..]);
    var value :- SetString(s[..n], 10);
    if n == 0 then None else Some((value, s[n..]))
  }

  function ReadValue(s: string): (r: Option<(Value, string)>)
    ensures r.Some? ==> |r.value.1| < |s|
    decreases |s|, 1
  {
    if s == "" then None
    else if s[0] == 'n' then (if "null" <= s then Some((Null, s[4..])) else None)
    else if s[0] == '\"' then
      var (t, rest) :- ReadBody(s[1..]);
      Some((Str(t), rest))
    else if s[0] == '[' then
      if |s| > 1 && s[1] == ']' then Some((Arr(NoItems), s[2..]))
      else
        var (items, rest) :- ReadItems(s[1..]);
        Some((Arr(items), rest))
    else if s[0] == '{' then
      if |s| > 1 && s[1] == '}' then Some((Obj(NoMembers), s[2..]))
      else
        var (members, rest) :- ReadMembers(s[1..]);
        Some((Obj(members), rest))
    else
      var (n, rest) :- ReadNumber(s);
      Some((Num(n), rest))
  }

  function ReadItems(s: string): (r: Option<(Items, string)>)
    ensures r.Some? ==> |r.value.1| < |s|
    decreases |s|, 2
  {
    var (head, after) :- ReadValue(s);
    if after == "" then None
    else if after[0] == ']' then Some((Item(head, NoItems), after[1..]))
    else if after[0] != ',' then None
    else
      var (tail, rest) :- ReadItems(after[1..]);
      Some((Item(head, tail), rest))
  }

  function ReadMembers(s: string): (r: Option<(Members, string)>)
    ensures r.Some? ==> |r.value.1| < |s|
    decreases |s|, 2
  {
    if s == "" || s[0] != '\"' then None
    else
      var (key, colon) :- ReadBody(s[1..]);
      if colon == "" || colon[0] != ':' then None
      else
        var (value, after) :- ReadValue(colon[1..]);
        if after == "" then None
        else if after[0] == '}' then Some((Member(key, value, NoMembers), after[1..]))
        else if after[0] != ',' then None
        else
          var (more, rest) :- ReadMembers(after[1..]);
          Some((Member(key, value, more), rest))
  }

  lemma {:induction false} DigitsLead(p: string, rest: string)
    requires EndsNumeral(rest) && forall c <- p :: IsDecimalDigit(c)
    ensures LeadingDigits(p + rest) == |p|
  {
    if p != "" {
      assert (p + rest)[0] == p[0] && (p + rest)[1..] == p[1..] + rest;
      DigitsLead(p[1..], rest);
    } else {
      assert p + rest == rest;
    }
  }

  lemma NumberIsRead(n: int, rest: string)
    requires EndsNumeral(rest)
    ensures ReadNumber(ShowInt(n) + rest) == Some((n, rest))
  {
    SetStringOfShowInt(n);
    ShowIntSign(n);
    var p, s := ShowInt(n), ShowInt(n) + rest;
    assert s[0] == p[0] && s[..|p|] == p && s[|p|..] == rest;
    if n < 0 {
      AfterSign(ShowNat(-n), rest);
      DigitsLead(ShowNat(-n), rest);
    } else {
      DigitsLead(p, rest);
      assert s[0..] == s;
    }
  }

  /** Reading a written value gives it back, with whatever follows it. */
  lemma {:induction false} ValueIsRead(v: Value, rest: string)
    requires EndsNumeral(rest)
    ensures ReadValue(WriteValue(v, rest)) == Some((v, rest))
    decreases v, 1
  {
    var s := WriteValue(v, rest);
    FirstCharTellsKind(v, rest);
    match v
    case Null =>
      assert s[4..] == rest && s[0] == 'n';
    case Num(n) =>
      NumberIsRead(n, rest);
    case Str(t) =>
      assert s[1..] == WriteBody(t, rest);
      BodyIsRead(t, rest);
    case Arr(items) =>
      assert s[1..] == WriteItems(items, true, rest);
      ItemsFirstChar(items, true, rest);
      if items.NoItems? {
        assert s[2..] == rest;
      } else {
        ItemsAreRead(items, rest);
      }
    case Obj(members) =>
      assert s[1..] == WriteMembers(members, true, rest);
      MembersFirstChar(members, true, rest);
      if members.NoMembers? {
        assert s[2..] == rest;
      } else {
        MembersAreRead(members, rest);
      }
  }

  lemma {:induction false} ItemsAreRead(items: Items, rest: string)
    requires EndsNumeral(rest) && items.Item?
    ensures ReadItems(WriteItems(items, true, rest)) == Some((items, rest))
    decreases items, 0
  {
    var after := WriteItems(items.tail, false, rest);
    ItemsFirstChar(items.tail, false, rest);
    ValueIsRead(items.head, after);
    assert WriteItems(items, true, rest) == WriteValue(items.head, after);
    if items.tail.NoItems? {
      assert after[1..] == rest;
    } else {
      assert after[0] == ',' && after[1..] == WriteItems(items.tail, true, rest);
      ItemsAreRead(items.tail, rest);
    }
  }

  lemma {:induction false} MembersAreRead(members: Members, rest: string)
    requires EndsNumeral(rest) && members.Member?
    ensures ReadMembers(WriteMembers(members, true, rest)) == Some((members, rest))
    decreases members, 0
  {
    var after := WriteMembers(members.rest, false, rest);
    var colon := ":" + WriteValue(members.value, after);
    var s := WriteMembers(members, true, rest);
    MembersFirstChar(members.rest, false, rest);
    assert s == WriteString(members.key, colon);
    assert s[0] == '\"' && s[1..] == WriteBody(members.key, colon);
    BodyIsRead(members.key, colon);
    assert colon[0] == ':' && colon[1..] == WriteValue(members.value, after);
    ValueIsRead(members.value, after);
    if members.rest.NoMembers? {
      assert after[1..] == rest;
    } else {
      assert after[0] == ',' && after[1..] == WriteMembers(members.rest, true, rest);
      MembersAreRead(members.rest, rest);
    }
  }

  /** json.Unmarshal into a value: all of the bytes are one value. */
  function Unmarshal(b: Bytes): Option<Value> {
    var text :- ReadUtf8(b);
    var (v, rest) :- ReadValue(text);
    if rest == "" then Some(v) else None
  }

  lemma UnmarshalInverts(v: Value)
    ensures Unmarshal(Marshal(v)) == Some(v)
  {
    ReadUtf8Inverts(WriteValue(v, ""));
    ValueIsRead(v, "");
  }

  // ---------------------------------------------------------------- members by name

  function Find(m: Members, key: string): Option<Value> {
    match m
    case NoMembers => None
    case Member(k, v, rest) => if k == key then Some(v) else Find(rest, key)
  }

  /** The member of an object with this name. */
  function Get(v: Value, key: string): Option<Value> {
    if v.Obj? then Find(v.members, key) else None
  }

  /** A text member; one that is missing or null leaves the field empty. */
  function TextAt(v: Value, key: string): Option<string> {
    match Get(v, key)
    case None => Some("")
    case Some(Null) => Some("")
    case Some(Str(s)) => Some(s)
    case _ => None
  }

  function NumberAt(v: Value, key: string): Option<int> {
    match Get(v, key)
    case None => Some(0)
    case Some(Null) => Some(0)
    case Some(Num(n)) => Some(n)
    case _ => None
  }

  function TextsOf(items: Items): Option<seq<string>> {
    match items
    case NoItems => Some([])
    case Item(Str(s), tail) =>
      var rest :- TextsOf(tail);
      Some([s] + rest)
    case _ => None
  }

  /** A list of texts: null and a missing member are the nil slice. */
  function TextsAt(v: Value, key: string): Option<Slice<string>> {
    match Get(v, key)
    case None => Some(Nil)
    case Some(Null) => Some(Nil)
    case Some(Arr(items)) =>
      var texts :- TextsOf(items);
      Some(Of(texts))
    case _ => None
  }

  lemma {:induction false} TextsAreRead(xs: seq<string>)
    ensures TextsOf(StringItems(xs)) == Some(xs)
  {
    if xs != [] {
      TextsAreRead(xs[1..]);
      assert xs == [xs[0]] + xs[1..];
    }
  }

  lemma ListIsRead(v: Value, key: string, xs: Slice<string>)
    requires Get(v, key) == Some(Strings(xs))
    ensures TextsAt(v, key) == Some(xs)
  {
    if xs.Of? {
      TextsAreRead(xs.elems);
    }
  }
}
