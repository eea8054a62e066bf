/** JSON values as the engine sees them after JSON.parse, JavaScript truthiness
    over them, and the part of JSON.stringify the engine relies on: the
    quoting of a string as a JSON string literal. */
module Json {

  datatype Option<+T> = None | Some(value: T) {
    function GetOr(default: T): T {
      match this
      case Some(v) => v
      case None => default
    }
  }

  /** A parsed JSON value; an object keeps its members in source order. */
  datatype Json =
    | Null
    | Bool(b: bool)
    | Num(n: real)
    | Str(s: string)
    | Arr(items: seq<Json>)
    | Obj(members: seq<(string, Json)>)

  /** JavaScript truthiness: null, false, 0 and "" are falsy; arrays and objects,
      even empty ones, are truthy. */
  predicate Truthy(j: Json) {
    match j
    case Null => false
    case Bool(b) => b
    case Num(n) => n != 0.0
    case Str(s) => s != ""
    case Arr(_) => true
    case Obj(_) => true
  }

  /** `typeof j === 'object' && j !== null`: arrays count as objects. */
  predicate IsObjectType(j: Json) {
    j.Arr? || j.Obj?
  }

  /** The property table of a parsed object; a repeated key keeps its last value. */
  function Fields(members: seq<(string, Json)>): (m: map<string, Json>)
    ensures m.Keys == set i | 0 <= i < |members| :: members[i].0
  {
    if members == [] then map[]
    else
      var last := members[|members| - 1];
      var init := Fields(members[..|members| - 1]);
      assert forall i :: 0 <= i < |members| - 1 ==> members[..|members| - 1][i] == members[i];
      init[last.0 := last.1]
  }

  /** Each key maps to the value of its last occurrence among the members. */
  lemma {:induction false} FieldsLastOccurrence(members: seq<(string, Json)>, i: nat)
    requires i < |members| && forall j :: i < j < |members| ==> members[j].0 != members[i].0
    ensures Fields(members)[members[i].0] == members[i].1
  {
    var n := |members| - 1;
    if i < n {
      assert members[n].0 != members[i].0 && members[..n][i] == members[i];
      assert forall j :: i < j < n ==> members[..n][j] == members[j];
      FieldsLastOccurrence(members[..n], i);
    }
  }

  // ---------------------------------------------------------------------
  // JSON string literals (the QuoteJSONString step of JSON.stringify)

  /** The lower-case hexadecimal digit for `d`. */
  function HexDigit(d: nat): (c: char)
    requires d < 16
    ensures '0' <= c <= '9' || 'a' <= c <= 'f'
  {
    if d < 10 then ('0' as int + d) as char else ('a' as int + d - 10) as char
  }

  /** The value of one hexadecimal digit, either case. */
  function HexValue(c: char): Option<nat> {
    if '0' <= c <= '9' then Some(c as int - '0' as int)
    else if 'a' <= c <= 'f' then Some(c as int - 'a' as int + 10)
    else if 'A' <= c <= 'F' then Some(c as int - 'A' as int + 10)
    else None
  }

  function HexQuad(t: string): (r: Option<nat>)
    requires |t| == 4
    ensures r.Some? ==> r.value < 0x1_0000
  {
    match (HexValue(t[0]), HexValue(t[1]), HexValue(t[2]), HexValue(t[3]))
    case (Some(a), Some(b), Some(c), Some(d)) =>
      if a < 16 && b < 16 && c < 16 && d < 16 then Some(((a * 16 + b) * 16 + c) * 16 + d) else None
    case _ => None
  }

  /** How JSON.stringify writes one character inside a string literal: never a
      raw control character, and a printable character other than `"` and `\`
      as itself. */
  function EscapeChar(c: char): (e: string)
    ensures |e| >= 1 && forall i :: 0 <= i < |e| ==> e[i] as int >= 0x20
    ensures e[0] != '"'
    ensures c as int >= 0x20 && c != '"' && c != '\\' ==> e == [c]
  {
    var n := c as int;
    if n == 0x22 then ['\\', '"']
    else if n == 0x5C then ['\\', '\\']
    else if n == 0x08 then ['\\', 'b']
    else if n == 0x0C then ['\\', 'f']
    else if n == 0x0A then ['\\', 'n']
    else if n == 0x0D then ['\\', 'r']
    else if n == 0x09 then ['\\', 't']
    else if n < 0x20 then ['\\', 'u', '0', '0', HexDigit(n / 16), HexDigit(n % 16)]
    else [c]
  }

  /** The inside of the literal: at least one character per character of `s`,
      and no raw control character (section 7 of RFC 8259 requires them escaped). */
  function Escape(s: string): (t: string)
    ensures |t| >= |s| && forall i :: 0 <= i < |t| ==> t[i] as int >= 0x20
  {
    if s == [] then [] else EscapeChar(s[0]) + Escape(s[1..])
  }

  /** JSON.stringify of a string value. */
  function Quote(s: string): (q: string)
    ensures |q| >= 2 && q[0] == '"' && q[|q| - 1] == '"'
  {
    ['"'] + Escape(s) + ['"']
  }

  /** The character a two-character escape `\k` stands for. */
  function ShortEscape(k: char): Option<char> {
    if k == '"' then Some('"')
    else if k == '\\' then Some('\\')
    else if k == '/' then Some('/')
    else if k == 'b' then Some(8 as char)
    else if k == 'f' then Some(12 as char)
    else if k == 'n' then Some(10 as char)
    else if k == 'r' then Some(13 as char)
    else if k == 't' then Some(9 as char)
    else None
  }

  /** Decodes the character at the head of the inside of a JSON string literal
      (RFC 8259, section 7): an escape sequence or one plain character, with
      the number of characters it takes up. A closing quote, a raw control
      character or a malformed escape decodes to nothing. A Dafny `char` is a
      Unicode scalar value, so a `\u` escape in the surrogate range D800-DFFF
      has no character to stand for and is refused, half of a valid pair such
      as `\uD83D\uDE00` included. */
  function DecodeOne(t: string): (r: Option<(char, nat)>)
    requires t != []
    ensures r.Some? ==> 1 <= r.value.1 <= |t|
  {
    if t[0] == '\\' then
      if |t| < 2 then None
      else if t[1] == 'u' then
        if |t| < 6 then None
        else match HexQuad(t[2..6])
          case None => None
          case Some(v) => if 0xD800 <= v < 0xE000 then None else Some((v as char, 6))
      else match ShortEscape(t[1])
        case None => None
        case Some(c) => Some((c, 2))
    else if t[0] == '"' || (t[0] as int) < 0x20 then None
    else Some((t[0], 1))
  }

  /** Reads the whole inside of a JSON string literal. */
  function Unescape(t: string): Option<string>
    decreases |t|
  {
    if t == [] then Some([])
    else match DecodeOne(t)
      case None => None
      case Some((c, w)) =>
        match Unescape(t[w..])
        case None => None
        case Some(rest) => Some([c] + rest)
  }

  /** Reads the inside of a string literal up to its closing quote: the
      characters read and what follows the quote, which is always shorter. */
  function ReadBody(t: string): (r: Option<(string, string)>)
    ensures r.Some? ==> |r.value.1| < |t|
    decreases |t|
  {
    if t == [] then None
    else if t[0] == '"' then Some(([], t[1..]))
    else match DecodeOne(t)
      case None => None
      case Some((c, w)) =>
        match ReadBody(t[w..])
        case None => None
        case Some((s, rest)) => Some(([c] + s, rest))
  }

  /** Reads a string literal at the head of `t`: its value and what follows it. */
  function ReadLiteral(t: string): (r: Option<(string, string)>)
    ensures r.Some? ==> |r.value.1| < |t|
  {
    if t != [] && t[0] == '"' then ReadBody(t[1..]) else None
  }

  /** Reads a whole JSON string literal, quotes included. */
  function Unquote(q: string): Option<string> {
    if |q| >= 2 && q[0] == '"' && q[|q| - 1] == '"' then Unescape(q[1..|q| - 1]) else None
  }

  /** A written character decodes back to itself, taking up exactly the
      characters written for it. */
  lemma DecodeEscapeChar(c: char, rest: string)
    ensures DecodeOne(EscapeChar(c) + rest) == Some((c, |EscapeChar(c)|))
  {
    var n := c as int;
    var t := EscapeChar(c) + rest;
    if n < 0x20 && n != 0x08 && n != 0x0C && n != 0x0A && n != 0x0D && n != 0x09 {
      assert t[2..6] == ['0', '0', HexDigit(n / 16), HexDigit(n % 16)];
      assert HexValue(HexDigit(n / 16)) == Some(n / 16);
      assert HexValue(HexDigit(n % 16)) == Some(n % 16);
      assert HexQuad(t[2..6]) == Some(n);
    }
  }

  lemma UnescapeChar(c: char, rest: string)
    ensures Unescape(EscapeChar(c) + rest) ==
            match Unescape(rest)
            case None => None
            case Some(r) => Some([c] + r)
  {
    DecodeEscapeChar(c, rest);
    assert (EscapeChar(c) + rest)[|EscapeChar(c)|..] == rest;
  }

  /** Quoting is lossless: the literal JSON.stringify writes reads back as the
      original string. */
  lemma {:induction false} UnquoteQuote(s: string)
    ensures Unquote(Quote(s)) == Some(s)
  {
    var q := Quote(s);
    assert q[1..|q| - 1] == Escape(s);
    EscapeRoundTrip(s);
  }

  lemma {:induction false} EscapeRoundTrip(s: string)
    ensures Unescape(Escape(s)) == Some(s)
  {
    if s != [] {
      EscapeRoundTrip(s[1..]);
      UnescapeChar(s[0], Escape(s[1..]));
      assert [s[0]] + s[1..] == s;
    }
  }

  /** The literal JSON.stringify writes is read back, up to its closing quote,
      as the original string, leaving whatever follows it. */
  lemma {:induction false} ReadBodyEscape(s: string, rest: string)
    ensures ReadBody(Escape(s) + ['"'] + rest) == Some((s, rest))
  {
    var t := Escape(s) + ['"'] + rest;
    if s == [] {
      assert t == ['"'] + rest;
      assert t[1..] == rest;
    } else {
      var tail := Escape(s[1..]) + ['"'] + rest;
      assert t == EscapeChar(s[0]) + tail;
      DecodeEscapeChar(s[0], tail);
      assert t[|EscapeChar(s[0])|..] == tail;
      ReadBodyEscape(s[1..], rest);
      assert [s[0]] + s[1..] == s;
    }
  }

  lemma ReadLiteralQuote(s: string, rest: string)
    ensures ReadLiteral(Quote(s) + rest) == Some((s, rest))
  {
    var t := Quote(s) + rest;
    assert t[1..] == Escape(s) + ['"'] + rest;
    ReadBodyEscape(s, rest);
  }
}
