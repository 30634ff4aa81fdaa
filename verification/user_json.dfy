/** The text form of a stored user profile. The session store keeps the user
    as `JSON.stringify(user)` and reads it back with `JSON.parse`. The profile
    objects the program builds have their keys in the order id, name, email,
    and `JSON.stringify` writes keys in that order, so the stored text is
    `{"id":"…","name":"…","email":"…"}`. Inside a string literal the quote, the
    backslash and the control characters below U+0020 are escaped; every
    other character is written as itself. This module models exactly that
    text and proves that encoding and decoding are mutually inverse. */
module UserJson {
  import opened Types

  /** A character `JSON.stringify` does not write as itself. */
  predicate NeedsEscape(c: char)
  {
    c == '"' || c == '\\' || c < ' '
  }

  /** A lower-case hexadecimal digit, as `JSON.stringify` writes them. */
  predicate IsHexDigit(h: char)
  {
    '0' <= h <= '9' || 'a' <= h <= 'f'
  }

  function HexDigit(d: int): (h: char)
    requires 0 <= d < 16
    ensures IsHexDigit(h)
  {
    if d < 10 then ('0' as int + d) as char else ('a' as int + d - 10) as char
  }

  function HexValue(h: char): (d: int)
    requires IsHexDigit(h)
    ensures 0 <= d < 16 && HexDigit(d) == h
  {
    if h <= '9' then h as int - '0' as int else h as int - 'a' as int + 10
  }

  /** How one character appears inside a JSON string literal: the two-letter
      escapes for the quote, the backslash and the five named control
      characters, `\u00XX` for the other control characters, and the
      character itself otherwise. */
  function EscapeChar(c: char): (r: string)
    ensures NeedsEscape(c) ==> |r| >= 2 && r[0] == '\\'
    ensures !NeedsEscape(c) ==> r == [c]
    ensures forall i :: 0 <= i < |r| ==> r[i] >= ' '
  {
    if c == '"' then "\\\""
    else if c == '\\' then "\\\\"
    else if c == '\U{0008}' then "\\b"
    else if c == '\U{0009}' then "\\t"
    else if c == '\U{000A}' then "\\n"
    else if c == '\U{000C}' then "\\f"
    else if c == '\U{000D}' then "\\r"
    else if c < ' ' then "\\u00" + [HexDigit(c as int / 16), HexDigit(c as int % 16)]
    else [c]
  }

  /** The body of a JSON string literal for `s`, without the quotes. Text
      without special characters is written unchanged. */
  function Escape(s: string): (r: string)
    ensures |r| >= |s|
    ensures (forall i :: 0 <= i < |s| ==> !NeedsEscape(s[i])) ==> r == s
  {
    if |s| == 0 then ""
    else EscapeChar(s[0]) + Escape(s[1..])
  }

  /** No character below U+0020 appears as itself. */
  predicate Printable(s: string)
  {
    forall i :: 0 <= i < |s| ==> s[i] >= ' '
  }

  /** The literal body never holds a raw control character, which
      `JSON.parse` would refuse. */
  lemma {:induction false} EscapePrintable(s: string)
    ensures Printable(Escape(s))
    decreases |s|
  {
    if |s| > 0 {
      EscapePrintable(s[1..]);
      var e := EscapeChar(s[0]);
      var r := Escape(s[1..]);
      forall i | 0 <= i < |e + r| ensures (e + r)[i] >= ' ' {
        if i >= |e| { assert (e + r)[i] == r[i - |e|]; }
      }
    }
  }

  /** Reads the escape sequence that follows a backslash: the character it
      stands for and how many characters it spans. Only the sequences that
      `EscapeChar` writes are accepted. */
  function Unescape(t: string): (r: Option<(char, nat)>)
    ensures r.Some? ==> 1 <= r.value.1 <= |t|
  {
    if |t| == 0 then None
    else if t[0] == '"' || t[0] == '\\' then Some((t[0], 1))
    else if t[0] == 'b' then Some(('\U{0008}', 1))
    else if t[0] == 't' then Some(('\U{0009}', 1))
    else if t[0] == 'n' then Some(('\U{000A}', 1))
    else if t[0] == 'f' then Some(('\U{000C}', 1))
    else if t[0] == 'r' then Some(('\U{000D}', 1))
    else if t[0] == 'u' && |t| >= 5 && t[1] == '0' && t[2] == '0' && (t[3] == '0' || t[3] == '1') && IsHexDigit(t[4]) then
      var c := ((t[3] as int - '0' as int) * 16 + HexValue(t[4])) as char;
      if EscapeChar(c) == "\\" + t[..5] then Some((c, 5)) else None
    else None
  }

  /** Every escape `EscapeChar` writes is read back as its character. */
  lemma UnescapeEscapeChar(c: char, rest: string)
    requires NeedsEscape(c)
    ensures Unescape(EscapeChar(c)[1..] + rest) == Some((c, |EscapeChar(c)| - 1))
  {
    var e := EscapeChar(c)[1..];
    var t := e + rest;
    if c != '"' && c != '\\' && c != '\U{0008}' && c != '\U{0009}' && c != '\U{000A}'
       && c != '\U{000C}' && c != '\U{000D}' {
      var hi := c as int / 16;
      var lo := c as int % 16;
      assert e == "u00" + [HexDigit(hi), HexDigit(lo)];
      assert t[..5] == e;
      assert HexValue(t[4]) == lo;
      assert (t[3] as int - '0' as int) == hi;
    } else {
      assert t[0] == e[0];
    }
  }

  /** Whatever `Unescape` accepts is exactly the escape of its character. */
  lemma UnescapeCanonical(t: string)
    requires Unescape(t).Some?
    ensures NeedsEscape(Unescape(t).value.0)
    ensures EscapeChar(Unescape(t).value.0) == "\\" + t[..Unescape(t).value.1]
  {
  }

  /** Prepends `c` to the text of a successful read. */
  function Prepend(c: char, o: Option<(string, string)>): Option<(string, string)>
  {
    match o
    case None => None
    case Some((t, rest)) => Some(([c] + t, rest))
  }

  /** Reads a string literal body up to its closing quote; yields the decoded
      text and what follows the quote. A raw control character, an escape
      `EscapeChar` never writes, or a missing quote yields None. */
  function ReadString(s: string): Option<(string, string)>
    decreases |s|
  {
    if |s| == 0 then None
    else if s[0] == '"' then Some(("", s[1..]))
    else if s[0] == '\\' then
      match Unescape(s[1..])
      case None => None
      case Some((c, k)) => Prepend(c, ReadString(s[1 + k..]))
    else if s[0] < ' ' then None
    else Prepend(s[0], ReadString(s[1..]))
  }

  /** Reading one escaped character hands on to the rest of the text. */
  lemma ReadChar(c: char, rest: string)
    ensures ReadString(EscapeChar(c) + rest) == Prepend(c, ReadString(rest))
  {
    var s := EscapeChar(c) + rest;
    if NeedsEscape(c) {
      var e := EscapeChar(c)[1..];
      assert s == ['\\'] + (e + rest);
      assert s[1..] == e + rest;
      UnescapeEscapeChar(c, rest);
      assert s[1 + |e|..] == rest;
    } else {
      assert s[1..] == rest;
    }
  }

  /** Escaping then reading back yields the original text and leaves the
      remainder after the closing quote untouched. */
  lemma {:induction false} ReadEscaped(s: string, rest: string)
    ensures ReadString(Escape(s) + "\"" + rest) == Some((s, rest))
    decreases |s|
  {
    if |s| == 0 {
      assert Escape(s) + "\"" + rest == ['"'] + rest;
    } else {
      var tail := Escape(s[1..]) + "\"" + rest;
      assert Escape(s) + "\"" + rest == EscapeChar(s[0]) + tail;
      ReadChar(s[0], tail);
      ReadEscaped(s[1..], rest);
      assert [s[0]] + s[1..] == s;
    }
  }

  lemma EscapeCons(c: char, t: string)
    ensures Escape([c] + t) == EscapeChar(c) + Escape(t)
  {
    assert ([c] + t)[1..] == t;
  }

  /** One step of the converse: an escape followed by canonical text. */
  lemma EscapedStep(s: string, c: char, k: nat, t: string, rest: string)
    requires |s| > 0 && s[0] == '\\'
    requires Unescape(s[1..]) == Some((c, k))
    requires s[1 + k..] == Escape(t) + "\"" + rest
    ensures s == Escape([c] + t) + "\"" + rest
  {
    UnescapeCanonical(s[1..]);
    EscapeCons(c, t);
    assert s == "\\" + s[1..][..k] + s[1 + k..];
  }

  /** One step of the converse: a plain character followed by canonical text. */
  lemma PlainStep(s: string, t: string, rest: string)
    requires |s| > 0 && !NeedsEscape(s[0])
    requires s[1..] == Escape(t) + "\"" + rest
    ensures s == Escape([s[0]] + t) + "\"" + rest
  {
    EscapeCons(s[0], t);
    assert s == [s[0]] + s[1..];
  }

  /** A successful read consumed exactly the escaped text and its quote. */
  lemma {:induction false} ReadStringCanonical(s: string)
    requires ReadString(s).Some?
    ensures s == Escape(ReadString(s).value.0) + "\"" + ReadString(s).value.1
    decreases |s|
  {
    if s[0] == '"' {
      assert s == ['"'] + s[1..];
    } else if s[0] == '\\' {
      var (c, k) := Unescape(s[1..]).value;
      ReadStringCanonical(s[1 + k..]);
      var (t, rest) := ReadString(s[1 + k..]).value;
      EscapedStep(s, c, k, t, rest);
    } else {
      ReadStringCanonical(s[1..]);
      var (t, rest) := ReadString(s[1..]).value;
      PlainStep(s, t, rest);
    }
  }

  const IdKey: string := "{\"id\":\""
  const NameKey: string := ",\"name\":\""
  const EmailKey: string := ",\"email\":\""

  /** `"key":"<escaped value>"` with the separator that precedes the key. */
  function Field(key: string, value: string): string
  {
    key + Escape(value) + "\""
  }

  /** `JSON.stringify` of a profile built as `{ id, name, email }`. */
  function Encode(u: User): (text: string)
    ensures |text| > |IdKey| && text[..|IdKey|] == IdKey && text[|text| - 1] == '}'
  {
    Field(IdKey, u.id) + Field(NameKey, u.name) + Field(EmailKey, u.email) + "}"
  }

  /** Strips a literal prefix, if present. */
  function After(prefix: string, s: string): Option<string>
  {
    if |prefix| <= |s| && s[..|prefix|] == prefix then Some(s[|prefix|..]) else None
  }

  /** Reads one `key` followed by a string literal. */
  function ReadField(key: string, s: string): Option<(string, string)>
  {
    match After(key, s)
    case None => None
    case Some(t) => ReadString(t)
  }

  lemma ReadFieldRoundTrip(key: string, value: string, rest: string)
    ensures ReadField(key, Field(key, value) + rest) == Some((value, rest))
  {
    var tail := Escape(value) + "\"" + rest;
    assert Field(key, value) + rest == key + tail;
    assert (key + tail)[..|key|] == key;
    assert (key + tail)[|key|..] == tail;
    ReadEscaped(value, rest);
  }

  /** A successful field read consumed exactly the field's text. */
  lemma ReadFieldCanonical(key: string, s: string)
    requires ReadField(key, s).Some?
    ensures s == Field(key, ReadField(key, s).value.0) + ReadField(key, s).value.1
  {
    var t := After(key, s).value;
    assert s == key + t;
    ReadStringCanonical(t);
  }

  /** `JSON.parse` of stored profile text; None for any other text. */
  function Decode(text: string): Option<User>
  {
    match ReadField(IdKey, text)
    case None => None
    case Some((id, t1)) =>
      match ReadField(NameKey, t1)
      case None => None
      case Some((name, t2)) =>
        match ReadField(EmailKey, t2)
        case None => None
        case Some((email, t3)) =>
          if t3 == "}" then Some(User(id, email, name)) else None
  }

  /** `JSON.parse(JSON.stringify(u))` gives back `u`. */
  lemma DecodeEncode(u: User)
    ensures Decode(Encode(u)) == Some(u)
  {
    var r2 := Field(EmailKey, u.email) + "}";
    var r1 := Field(NameKey, u.name) + r2;
    assert Encode(u) == Field(IdKey, u.id) + r1;
    ReadFieldRoundTrip(IdKey, u.id, r1);
    ReadFieldRoundTrip(NameKey, u.name, r2);
    ReadFieldRoundTrip(EmailKey, u.email, "}");
  }

  /** The converse: the only text that decodes to a profile is that
      profile's encoding. */
  lemma EncodeDecode(text: string)
    requires Decode(text).Some?
    ensures Encode(Decode(text).value) == text
  {
    var (id, t1) := ReadField(IdKey, text).value;
    var (name, t2) := ReadField(NameKey, t1).value;
    var (email, t3) := ReadField(EmailKey, t2).value;
    assert t3 == "}" && Decode(text) == Some(User(id, email, name));
    ReadFieldCanonical(IdKey, text);
    ReadFieldCanonical(NameKey, t1);
    ReadFieldCanonical(EmailKey, t2);
    assert text == Field(IdKey, id) + (Field(NameKey, name) + (Field(EmailKey, email) + "}"));
  }

  /** Distinct profiles are stored as distinct text. */
  lemma EncodeInjective(u: User, v: User)
    requires Encode(u) == Encode(v)
    ensures u == v
  {
    DecodeEncode(u);
    DecodeEncode(v);
  }

  /** A stored profile is never the empty string, so the store's
      `user ? JSON.parse(user) : null` always takes the parse branch. */
  lemma EncodeNonEmpty(u: User)
    ensures Encode(u) != ""
  {
    assert |Encode(u)| >= |IdKey|;
  }
}
