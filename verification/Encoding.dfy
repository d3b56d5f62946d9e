/** Strings as bytes, and tokens in links. */
module Encoding {
  import opened Datastore

  /** The UTF-8 bytes of one character (section 3 of RFC 3629). */
  function Utf8(c: char): (bytes: Bytes)
    ensures bytes != []
  {
    var n := c as int;
    if n < 0x80 then [n as byte]
    else if n < 0x800 then [(0xC0 + n / 64) as byte, (0x80 + n % 64) as byte]
    else if n < 0x1_0000 then
      [(0xE0 + n / 4096) as byte, (0x80 + n / 64 % 64) as byte, (0x80 + n % 64) as byte]
    else
      [(0xF0 + n / 262144) as byte, (0x80 + n / 4096 % 64) as byte,
       (0x80 + n / 64 % 64) as byte, (0x80 + n % 64) as byte]
  }

  function Utf8Bytes(s: string): (bytes: Bytes)
    ensures |bytes| >= |s|
  {
    if s == [] then [] else Utf8(s[0]) + Utf8Bytes(s[1..])
  }

  /** How many bytes a character takes, by its first one. */
  function Width(b: byte): nat {
    if b < 0x80 then 1 else if b < 0xE0 then 2 else if b < 0xF0 then 3 else 4
  }

  lemma WidthOfUtf8(c: char)
    ensures |Utf8(c)| == Width(Utf8(c)[0])
  {
  }

  /** The number of the character these bytes stand for. */
  function Number(b: Bytes): int {
    if |b| == 1 then b[0] as int
    else if |b| == 2 then 64 * (b[0] as int - 0xC0) + (b[1] as int - 0x80)
    else if |b| == 3 then 64 * (64 * (b[0] as int - 0xE0) + (b[1] as int - 0x80)) + (b[2] as int - 0x80)
    else if |b| == 4 then
      64 * (64 * (64 * (b[0] as int - 0xF0) + (b[1] as int - 0x80)) + (b[2] as int - 0x80)) + (b[3] as int - 0x80)
    else 0
  }

  lemma Shifts(n: nat)
    ensures n == 64 * (n / 64) + n % 64
    ensures n / 64 == 64 * (n / 4096) + n / 64 % 64
    ensures n / 4096 == 64 * (n / 262144) + n / 4096 % 64
  {
    assert n / 4096 == n / 64 / 64 && n / 262144 == n / 4096 / 64;
  }

  /** Round trip of one character. */
  lemma Utf8Decodes(c: char)
    ensures Number(Utf8(c)) == c as int
  {
    Shifts(c as int);
  }

  lemma Utf8Decides(c: char, d: char)
    requires Utf8(c) == Utf8(d)
    ensures c == d
  {
    hide Utf8, Number;
    Utf8Decodes(c);
    Utf8Decodes(d);
  }

  lemma Utf8IsPrefixFree(c: char, d: char, x: Bytes, y: Bytes)
    requires Utf8(c) + x == Utf8(d) + y
    ensures c == d && x == y
  {
    WidthOfUtf8(c);
    WidthOfUtf8(d);
    var all := Utf8(c) + x;
    assert all[0] == Utf8(c)[0] == Utf8(d)[0];
    hide Utf8;
    var w := |Utf8(c)|;
    assert all[..w] == Utf8(c) == Utf8(d) && all[w..] == x == y;
    Utf8Decides(c, d);
  }

  /** Different strings have different bytes. */
  lemma {:induction false} Utf8IsInjective(s: string, t: string)
    requires Utf8Bytes(s) == Utf8Bytes(t)
    ensures s == t
  {
    hide Utf8;
    if s == [] || t == [] {
    } else {
      Utf8IsPrefixFree(s[0], t[0], Utf8Bytes(s[1..]), Utf8Bytes(t[1..]));
      Utf8IsInjective(s[1..], t[1..]);
      assert s == [s[0]] + s[1..] && t == [t[0]] + t[1..];
    }
  }

  // ---- url.QueryEscape

  /** The upper-case hexadecimal digit of a value below 16. */
  function HexDigit(n: nat): char
    requires n < 16
  {
    if n < 10 then ('0' as int + n) as char else ('A' as int + n - 10) as char
  }

  /** The bytes that url.QueryEscape leaves alone. */
  predicate Unreserved(b: byte) {
    || 'A' as int <= b as int <= 'Z' as int || 'a' as int <= b as int <= 'z' as int
    || '0' as int <= b as int <= '9' as int
    || b as int == '-' as int || b as int == '_' as int || b as int == '.' as int || b as int == '~' as int
  }

  function Escape(b: byte): string {
    if Unreserved(b) then [b as char]
    else if b as int == ' ' as int then "+"
    else ['%', HexDigit(b as int / 16), HexDigit(b as int % 16)]
  }

  function EscapeAll(bytes: Bytes): string {
    if bytes == [] then [] else Escape(bytes[0]) + EscapeAll(bytes[1..])
  }

  function QueryEscape(s: string): string { EscapeAll(Utf8Bytes(s)) }

  /** The value of a hexadecimal digit. */
  function Digit(c: char): nat {
    if '0' <= c <= '9' then c as int - '0' as int
    else if 'A' <= c <= 'F' then c as int - 'A' as int + 10
    else 0
  }

  /** Reading an escaped string back, byte by byte. */
  function Unescape(s: string): Bytes {
    if s == [] then []
    else if s[0] == '%' && |s| >= 3 then [(16 * Digit(s[1]) + Digit(s[2])) as byte] + Unescape(s[3..])
    else [if s[0] == '+' then ' ' as byte else (s[0] as int % 256) as byte] + Unescape(s[1..])
  }

  lemma HexReadsBack(b: byte)
    ensures 16 * Digit(HexDigit(b as int / 16)) + Digit(HexDigit(b as int % 16)) == b as int
  {
    assert b as int == 16 * (b as int / 16) + b as int % 16;
  }

  lemma TripleReadsBack(high: char, low: char, rest: string)
    ensures Unescape(['%', high, low] + rest) == [(16 * Digit(high) + Digit(low)) as byte] + Unescape(rest)
  {
    var all := ['%', high, low] + rest;
    assert all[0] == '%' && all[1] == high && all[2] == low && all[3..] == rest;
    hide Digit;
  }

  lemma CharReadsBack(c: char, rest: string)
    requires c != '%'
    ensures Unescape([c] + rest)
         == [if c == '+' then ' ' as byte else (c as int % 256) as byte] + Unescape(rest)
  {
    var all := [c] + rest;
    assert all[0] == c && all[1..] == rest;
    hide Digit;
  }

  lemma OneByteBack(b: byte, rest: string)
    ensures Unescape(Escape(b) + rest) == [b] + Unescape(rest)
  {
    if |Escape(b)| == 3 {
      HexReadsBack(b);
      var high, low := HexDigit(b as int / 16), HexDigit(b as int % 16);
      assert Escape(b) == ['%', high, low];
      hide Escape, Unescape, Digit, HexDigit;
      TripleReadsBack(high, low, rest);
    } else {
      var c := Escape(b)[0];
      assert Escape(b) == [c] && c != '%';
      CharReadsBack(c, rest);
    }
  }

  lemma NothingIsNothing()
    ensures Unescape("") == []
  {
  }

  /** Round trip of the escaping. */
  lemma {:induction false} EscapingIsUndone(bytes: Bytes)
    ensures Unescape(EscapeAll(bytes)) == bytes
  {
    hide Escape, Unescape;
    if bytes == [] {
      NothingIsNothing();
    } else {
      OneByteBack(bytes[0], EscapeAll(bytes[1..]));
      EscapingIsUndone(bytes[1..]);
    }
  }

  /** No two tokens are written the same in a link. */
  lemma QueryEscapeIsInjective(s: string, t: string)
    requires QueryEscape(s) == QueryEscape(t)
    ensures s == t
  {
    EscapingIsUndone(Utf8Bytes(s));
    EscapingIsUndone(Utf8Bytes(t));
    Utf8IsInjective(s, t);
  }

  /** The characters of a UUID. */
  predicate IsUuid(s: string) {
    s != "" && forall i :: 0 <= i < |s| ==> '0' <= s[i] <= '9' || 'a' <= s[i] <= 'f' || s[i] == '-'
  }

  /** A UUID is written in a link as it is. */
  lemma {:induction false} UuidsStayPlain(s: string)
    requires s == "" || IsUuid(s)
    ensures QueryEscape(s) == s
  {
    if s == "" {
    } else {
      var b := s[0] as int as byte;
      assert Utf8(s[0]) == [b] && Escape(b) == [s[0]];
      UuidsStayPlain(s[1..]);
      assert Utf8Bytes(s) == [b] + Utf8Bytes(s[1..]) && s == [s[0]] + s[1..];
    }
  }
}
