/** The session user record and its JSON text, as `JSON.stringify` writes it under the
    `user_data` key and `JSON.parse` reads it back (src/app/auth.service.ts). */
module UserJson {
  import opened Wrappers

  /** The record built from a login response: five string fields. */
  datatype SessionUser = SessionUser(id: string, name: string, email: string, role: string, profilePic: string)

  function HexDigit(d: nat): char
    requires d < 16
  {
    "0123456789abcdef"[d]
  }

  function HexValue(c: char): Option<nat> {
    if '0' <= c <= '9' then Some(c as int - '0' as int)
    else if 'a' <= c <= 'f' then Some(c as int - 'a' as int + 10)
    else None
  }

  lemma HexValueDigit(d: nat)
    requires d < 16
    ensures HexValue(HexDigit(d)) == Some(d)
  {
    var digits := "0123456789abcdef";
    assert digits[d] == HexDigit(d);
  }

  /** One character inside a JSON string literal: quote and backslash are escaped, the
      control characters below U+0020 take their short escape or `\u00XX`. */
  function EscapeChar(c: char): (r: string)
    ensures r != [] && r[0] != '"'
  {
    if c == '"' then "\\\""
    else if c == '\\' then "\\\\"
    else if c == '\U{0008}' then "\\b"
    else if c == '\U{000C}' then "\\f"
    else if c == '\n' then "\\n"
    else if c == '\r' then "\\r"
    else if c == '\t' then "\\t"
    else if c < ' ' then "\\u00" + [HexDigit(c as int / 16), HexDigit(c as int % 16)]
    else [c]
  }

  function Escape(s: string): string {
    if s == [] then [] else EscapeChar(s[0]) + Escape(s[1..])
  }

  function FourHex(s: string): Option<nat>
    requires |s| >= 4
  {
    var a :- HexValue(s[0]);
    var b :- HexValue(s[1]);
    var c :- HexValue(s[2]);
    var d :- HexValue(s[3]);
    Some(((a * 16 + b) * 16 + c) * 16 + d)
  }

  /** Reads one character of a string literal, undoing an escape; what remains is shorter. */
  function ReadChar(s: string): (r: Option<(char, string)>)
    requires s != [] && s[0] != '"'
    ensures r.Some? ==> |r.value.1| < |s|
  {
    if s[0] != '\\' then
      if s[0] < ' ' then None else Some((s[0], s[1..]))
    else if |s| < 2 then None
    else match s[1]
      case '"' => Some(('"', s[2..]))
      case '\\' => Some(('\\', s[2..]))
      case '/' => Some(('/', s[2..]))
      case 'b' => Some(('\U{0008}', s[2..]))
      case 'f' => Some(('\U{000C}', s[2..]))
      case 'n' => Some(('\n', s[2..]))
      case 'r' => Some(('\r', s[2..]))
      case 't' => Some(('\t', s[2..]))
      case 'u' =>
        if |s| < 6 then None
        else
          var code :- FourHex(s[2..6]);
          if code < 0xD800 || 0xE000 <= code < 0x1_0000 then Some((code as char, s[6..])) else None
      case _ => None
  }

  /** Reads the characters of a string literal up to its closing quote; gives the text
      and what follows the quote. */
  function ParseString(s: string): Option<(string, string)>
    decreases |s|
  {
    if s == [] then None
    else if s[0] == '"' then Some(([], s[1..]))
    else
      var p :- ReadChar(s);
      var q :- ParseString(p.1);
      Some(([p.0] + q.0, q.1))
  }

  lemma ReadEscapedChar(c: char, rest: string)
    ensures ReadChar(EscapeChar(c) + rest) == Some((c, rest))
  {
    var e := EscapeChar(c);
    if c < ' ' && c != '\U{0008}' && c != '\U{000C}' && c != '\n' && c != '\r' && c != '\t' {
      var hi, lo := c as int / 16, c as int % 16;
      HexValueDigit(hi);
      HexValueDigit(lo);
      var s := e + rest;
      assert s[2..6] == "00" + [HexDigit(hi), HexDigit(lo)];
      assert FourHex(s[2..6]) == Some(hi * 16 + lo);
      assert s[6..] == rest;
    } else {
      assert (e + rest)[|e|..] == rest;
    }
  }

  /** The parser reads back exactly what the escaper wrote, stopping at the closing quote. */
  lemma {:induction false} ParseEscaped(v: string, rest: string)
    ensures ParseString(Escape(v) + "\"" + rest) == Some((v, rest))
    decreases |v|
  {
    if v == [] {
      assert Escape(v) + "\"" + rest == "\"" + rest;
    } else {
      var tail := Escape(v[1..]) + "\"" + rest;
      assert Escape(v) + "\"" + rest == EscapeChar(v[0]) + tail;
      ReadEscapedChar(v[0], tail);
      ParseEscaped(v[1..], rest);
      assert [v[0]] + v[1..] == v;
    }
  }

  /** `"key":"value"` */
  function Member(key: string, value: string): string {
    "\"" + key + "\":\"" + Escape(value) + "\""
  }

  function Expect(literal: string, s: string): Option<string> {
    if literal <= s then Some(s[|literal|..]) else None
  }

  function ParseMember(key: string, s: string): Option<(string, string)> {
    var r :- Expect("\"" + key + "\":\"", s);
    ParseString(r)
  }

  lemma MemberRoundTrip(key: string, value: string, rest: string)
    ensures ParseMember(key, Member(key, value) + rest) == Some((value, rest))
  {
    var open := "\"" + key + "\":\"";
    assert Member(key, value) + rest == open + (Escape(value) + "\"" + rest);
    assert Expect(open, open + (Escape(value) + "\"" + rest)) == Some(Escape(value) + "\"" + rest);
    ParseEscaped(value, rest);
  }

  /** Members separated by commas, keys in the order given. */
  function Members(keys: seq<string>, values: seq<string>): string
    requires |keys| == |values| >= 1
    decreases |keys|
  {
    if |keys| == 1 then Member(keys[0], values[0])
    else Member(keys[0], values[0]) + ("," + Members(keys[1..], values[1..]))
  }

  function ParseMembers(keys: seq<string>, s: string): Option<(seq<string>, string)>
    requires |keys| >= 1
    decreases |keys|
  {
    var m :- ParseMember(keys[0], s);
    if |keys| == 1 then Some(([m.0], m.1))
    else
      var r :- Expect(",", m.1);
      var ms :- ParseMembers(keys[1..], r);
      Some(([m.0] + ms.0, ms.1))
  }

  lemma {:induction false} MembersRoundTrip(keys: seq<string>, values: seq<string>, rest: string)
    requires |keys| == |values| >= 1
    ensures ParseMembers(keys, Members(keys, values) + rest) == Some((values, rest))
    decreases |keys|
  {
    if |keys| == 1 {
      MemberRoundTrip(keys[0], values[0], rest);
      assert [values[0]] == values;
    } else {
      var tail := "," + (Members(keys[1..], values[1..]) + rest);
      assert Members(keys, values) + rest == Member(keys[0], values[0]) + tail;
      MemberRoundTrip(keys[0], values[0], tail);
      assert Expect(",", tail) == Some(Members(keys[1..], values[1..]) + rest);
      MembersRoundTrip(keys[1..], values[1..], rest);
      assert [values[0]] + values[1..] == values;
    }
  }

  const UserKeys := ["id", "name", "email", "role", "profilePic"]

  /** `JSON.stringify(user)` for the record's five fields, in declaration order. */
  function Stringify(u: SessionUser): (r: string)
    ensures |r| >= 2 && r[0] == '{' && r[|r| - 1] == '}'
  {
    "{" + Members(UserKeys, [u.id, u.name, u.email, u.role, u.profilePic]) + "}"
  }

  /** `JSON.parse` of a stored user record; `None` for text of any other layout, in
      particular for anything that does not open an object. */
  function ParseUser(s: string): (r: Option<SessionUser>)
    ensures r.Some? ==> s != [] && s[0] == '{'
  {
    var r0 :- Expect("{", s);
    var ms :- ParseMembers(UserKeys, r0);
    var r1 :- Expect("}", ms.1);
    if r1 == [] && |ms.0| == 5 then Some(SessionUser(ms.0[0], ms.0[1], ms.0[2], ms.0[3], ms.0[4]))
    else None
  }

  /** What is stored is read back unchanged. */
  lemma ParseStringify(u: SessionUser)
    ensures ParseUser(Stringify(u)) == Some(u)
  {
    var values := [u.id, u.name, u.email, u.role, u.profilePic];
    var body := Members(UserKeys, values);
    assert Stringify(u) == "{" + (body + "}");
    MembersRoundTrip(UserKeys, values, "}");
  }

  /** A stored record is never the empty string, so `userData ? ... : null` always parses it. */
  lemma StringifyNonEmpty(u: SessionUser)
    ensures Stringify(u) != ""
  {
    assert Stringify(u)[0] == '{';
  }
}
