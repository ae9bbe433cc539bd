/** The `{:?}` rendering of a Rust string: the characters between double quotes, with quote,
    backslash and the ASCII control characters escaped as `<str as Debug>::fmt` writes them.
    `Unescape` reads such a rendering back and is the partner the round trip is proved against. */
module Debug {
  import opened Wrappers

  /** An ASCII control character other than the four with a short escape. */
  predicate IsOtherControl(c: char) {
    (c as int < 0x20 || c as int == 0x7F) && c != '\n' && c != '\r' && c != '\t' && c != '\0'
  }

  /** A character that `{:?}` writes as it is. */
  predicate IsPlain(c: char) {
    c != '"' && c != '\\' && c != '\n' && c != '\r' && c != '\t' && c != '\0' && !IsOtherControl(c)
  }

  predicate IsHexDigit(c: char) {
    '0' <= c <= '9' || 'a' <= c <= 'f'
  }

  /** A lower-case hexadecimal digit, as `{:x}` writes it. */
  function HexDigit(d: nat): (c: char)
    requires d < 16
    ensures IsHexDigit(c)
  {
    if d < 10 then ('0' as int + d) as char else ('a' as int + d - 10) as char
  }

  function HexValue(c: char): (d: nat)
    requires IsHexDigit(c)
    ensures d < 16
  {
    if c <= '9' then c as int - '0' as int else c as int - 'a' as int + 10
  }

  lemma HexDigitValue(d: nat)
    requires d < 16
    ensures HexValue(HexDigit(d)) == d
  {
  }

  /** `{:x}` of a code below 0x80: one digit below 16, else two, never a leading zero. */
  function Hex(n: nat): (h: string)
    requires n < 0x80
    ensures 1 <= |h| <= 2 && forall i :: 0 <= i < |h| ==> IsHexDigit(h[i])
  {
    if n < 16 then [HexDigit(n)] else [HexDigit(n / 16), HexDigit(n % 16)]
  }

  /** What `{:?}` writes for one character of a string. */
  function EscapeChar(c: char): (e: string)
    ensures e != [] && (e[0] == '\\' <==> !IsPlain(c))
    ensures IsPlain(c) ==> e == [c]
  {
    if c == '"' then "\\\""
    else if c == '\\' then "\\\\"
    else if c == '\n' then "\\n"
    else if c == '\r' then "\\r"
    else if c == '\t' then "\\t"
    else if c == '\0' then "\\0"
    else if IsOtherControl(c) then "\\u{" + Hex(c as int) + "}"
    else [c]
  }

  /** The characters `{:?}` writes between the quotes for `s[i..]`. */
  function EscapeFrom(s: string, i: nat): (e: string)
    requires i <= |s|
    ensures |e| >= |s| - i
    decreases |s| - i
  {
    if i == |s| then [] else EscapeChar(s[i]) + EscapeFrom(s, i + 1)
  }

  /** `c` in front of a read-back string, or the failure passed on. */
  function Prepend(c: char, rest: Option<string>): Option<string> {
    match rest
    case None => None
    case Some(t) => Some([c] + t)
  }

  /** The character a short escape `\x` stands for, when `x` is one. */
  function ShortEscape(x: char): Option<char> {
    if x == '"' then Some('"')
    else if x == '\\' then Some('\\')
    else if x == 'n' then Some('\n')
    else if x == 'r' then Some('\r')
    else if x == 't' then Some('\t')
    else if x == '0' then Some('\0')
    else None
  }

  /** Reads the text between the quotes of a `{:?}` rendering back into the string; None when
      it holds a bare quote or an escape `{:?}` does not write. */
  function Unescape(t: string): Option<string>
    decreases |t|
  {
    if t == [] then Some([])
    else if t[0] == '"' then None
    else if t[0] != '\\' then Prepend(t[0], Unescape(t[1..]))
    else if |t| >= 2 && ShortEscape(t[1]).Some? then Prepend(ShortEscape(t[1]).value, Unescape(t[2..]))
    else if |t| >= 5 && t[1] == 'u' && t[2] == '{' && IsHexDigit(t[3]) && t[4] == '}' then
      Prepend(HexValue(t[3]) as char, Unescape(t[5..]))
    else if |t| >= 6 && t[1] == 'u' && t[2] == '{' && IsHexDigit(t[3]) && t[3] != '0' && IsHexDigit(t[4]) && t[5] == '}' then
      Prepend((16 * HexValue(t[3]) + HexValue(t[4])) as char, Unescape(t[6..]))
    else None
  }

  /** Reading back one escaped character yields that character in front of the rest. */
  lemma UnescapeChar(c: char, t: string)
    ensures Unescape(EscapeChar(c) + t) == Prepend(c, Unescape(t))
  {
    var e := EscapeChar(c);
    if IsOtherControl(c) {
      var n := c as int;
      if n < 16 {
        HexDigitValue(n);
        assert (e + t)[5..] == t;
      } else {
        HexDigitValue(n / 16);
        HexDigitValue(n % 16);
        assert (e + t)[6..] == t;
      }
    } else if !IsPlain(c) {
      assert (e + t)[2..] == t;
    } else {
      assert (e + t)[1..] == t;
    }
  }

  /** `Unescape` undoes the escaping of every suffix. */
  lemma {:induction false} EscapeRoundTrip(s: string, i: nat)
    requires i <= |s|
    ensures Unescape(EscapeFrom(s, i)) == Some(s[i..])
    decreases |s| - i
  {
    if i < |s| {
      EscapeRoundTrip(s, i + 1);
      UnescapeChar(s[i], EscapeFrom(s, i + 1));
      assert [s[i]] + s[i + 1..] == s[i..];
    } else {
      assert s[i..] == [];
    }
  }

  /** A suffix with nothing to escape is written as it is. */
  lemma {:induction false} EscapePlain(s: string, i: nat)
    requires i <= |s|
    ensures (forall k :: i <= k < |s| ==> IsPlain(s[k])) ==> EscapeFrom(s, i) == s[i..]
    decreases |s| - i
  {
    if i < |s| && forall k :: i <= k < |s| ==> IsPlain(s[k]) {
      EscapePlain(s, i + 1);
      assert [s[i]] + s[i + 1..] == s[i..];
    }
  }

  /** `format!("{:?}", s)` for a string `s`: quoted, and read back by `Unescape`. */
  function Quoted(s: string): (q: string)
    ensures |q| >= |s| + 2 && q[0] == '"' && q[|q| - 1] == '"'
    ensures Unescape(q[1..|q| - 1]) == Some(s)
    ensures (forall i :: 0 <= i < |s| ==> IsPlain(s[i])) ==> q[1..|q| - 1] == s
  {
    EscapeRoundTrip(s, 0);
    EscapePlain(s, 0);
    var q := "\"" + EscapeFrom(s, 0) + "\"";
    assert q[1..|q| - 1] == EscapeFrom(s, 0);
    assert s[0..] == s;
    q
  }
}
