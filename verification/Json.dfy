/** The compact JSON that encoding/json writes, and a reader for it (RFC 8259). */
module Json {
  import opened Text

  function HexDigit(n: int): char
    requires 0 <= n < 16
  {
    "0123456789abcdef"[n]
  }

  function HexValue(c: char): (digit: Option<int>)
    ensures digit.Some? ==> 0 <= digit.value < 16
  {
    if '0' <= c <= '9' then Some(c as int - '0' as int)
    else if 'a' <= c <= 'f' then Some(c as int - 'a' as int + 10)
    else if 'A' <= c <= 'F' then Some(c as int - 'A' as int + 10)
    else None
  }

  function Hex4(n: int): string
    requires 0 <= n < 0x1_0000
  {
    [HexDigit(n / 0x1000), HexDigit(n / 0x100 % 16), HexDigit(n / 16 % 16), HexDigit(n % 16)]
  }

  function ParseHex4(s: string): (n: Option<int>)
    requires |s| == 4
    ensures n.Some? ==> 0 <= n.value < 0x1_0000
  {
    hide HexValue;
    match (HexValue(s[0]), HexValue(s[1]), HexValue(s[2]), HexValue(s[3]))
    case (Some(a), Some(b), Some(c), Some(d)) => Some(a * 0x1000 + b * 0x100 + c * 16 + d)
    case _ => None
  }

  lemma {:induction false} HexDigitValue(n: int)
    requires 0 <= n < 16
    ensures HexValue(HexDigit(n)) == Some(n)
  {
  }

  /** One place of a number in base 16. */
  lemma {:induction false} LastDigit(n: nat)
    ensures n == n / 16 * 16 + n % 16 && 0 <= n % 16 < 16
  {
  }

  lemma {:induction false} DivideOn(n: nat)
    ensures n / 16 / 16 == n / 0x100 && n / 0x100 / 16 == n / 0x1000
  {
  }

  lemma {:induction false} Hex4RoundTrip(n: int)
    requires 0 <= n < 0x1_0000
    ensures ParseHex4(Hex4(n)) == Some(n)
  {
    hide HexDigit, HexValue;
    DivideOn(n);
    LastDigit(n);
    LastDigit(n / 16);
    LastDigit(n / 0x100);
    HexDigitValue(n / 0x1000);
    HexDigitValue(n / 0x100 % 16);
    HexDigitValue(n / 16 % 16);
    HexDigitValue(n % 16);
  }

  /** Characters that encoding/json replaces by a six-character \u escape: other control characters,
      the three HTML characters and the two line separators. */
  predicate NeedsUnicodeEscape(c: char) {
    c < ' ' || c in "<>&" || c == '\U{2028}' || c == '\U{2029}'
  }

  function Escape(c: char): string {
    match c
    case '"' => "\\\""
    case '\\' => "\\\\"
    case '\U{8}' => "\\b"
    case '\U{C}' => "\\f"
    case '\n' => "\\n"
    case '\r' => "\\r"
    case '\t' => "\\t"
    case _ => if NeedsUnicodeEscape(c) then "\\u" + Hex4(c as int) else [c]
  }

  /** The character a two-character escape stands for (section 7 of RFC 8259). */
  function Unescape(c: char): Option<char> {
    match c
    case '"' => Some('"')
    case '\\' => Some('\\')
    case '/' => Some('/')
    case 'b' => Some('\U{8}')
    case 'f' => Some('\U{C}')
    case 'n' => Some('\n')
    case 'r' => Some('\r')
    case 't' => Some('\t')
    case _ => None
  }

  function EncodeChars(s: string): string {
    if s == "" then "" else Escape(s[0]) + EncodeChars(s[1..])
  }

  function EncodeString(s: string): string {
    "\"" + EncodeChars(s) + "\""
  }

  function Prepend(c: char, tail: Option<(string, string)>): Option<(string, string)> {
    match tail
    case None => None
    case Some((s, rest)) => Some(([c] + s, rest))
  }

  /** Reads the inside of a string up to its closing quote; gives the string and what follows it. */
  function ParseChars(s: string): Option<(string, string)> {
    if s == "" then None
    else if s[0] == '"' then Some(("", s[1..]))
    else if s[0] != '\\' then Prepend(s[0], ParseChars(s[1..]))
    else if |s| < 2 then None
    else if s[1] == 'u' then
      if |s| < 6 then None
      else
        match ParseHex4(s[2..6])
        case None => None
        case Some(n) => if 0xD800 <= n < 0xE000 then None else Prepend(n as char, ParseChars(s[6..]))
    else
      match Unescape(s[1])
      case None => None
      case Some(c) => Prepend(c, ParseChars(s[2..]))
  }

  function ParseString(s: string): Option<(string, string)> {
    if s == "" || s[0] != '"' then None else ParseChars(s[1..])
  }

  lemma {:induction false} ParseEscaped(c: char, tail: string)
    ensures ParseChars(Escape(c) + tail) == Prepend(c, ParseChars(tail))
  {
    if |Escape(c)| == 6 {
      ParseLongEscape(c, tail);
    } else if |Escape(c)| == 2 {
      ParseShortEscape(c, tail);
    } else {
      assert (Escape(c) + tail)[1..] == tail;
    }
  }

  lemma {:induction false} ParseLongEscape(c: char, tail: string)
    requires |Escape(c)| == 6
    ensures ParseChars(Escape(c) + tail) == Prepend(c, ParseChars(tail))
  {
    hide Hex4, ParseHex4, Unescape;
    var s := "\\u" + Hex4(c as int) + tail;
    Hex4RoundTrip(c as int);
    assert s == Escape(c) + tail && s[2..6] == Hex4(c as int) && s[6..] == tail;
  }

  lemma {:induction false} ParseShortEscape(c: char, tail: string)
    requires |Escape(c)| == 2
    ensures ParseChars(Escape(c) + tail) == Prepend(c, ParseChars(tail))
  {
    hide ParseHex4;
    var s := Escape(c) + tail;
    assert s[0] == '\\' && s[1] != 'u' && Unescape(s[1]) == Some(c) && s[2..] == tail;
  }

  lemma {:induction false} ParseCharsRoundTrip(s: string, rest: string)
    ensures ParseChars(EncodeChars(s) + "\"" + rest) == Some((s, rest))
  {
    if s == "" {
      assert EncodeChars(s) + "\"" + rest == "\"" + rest;
    } else {
      var tail := EncodeChars(s[1..]) + "\"" + rest;
      assert EncodeChars(s) + "\"" + rest == Escape(s[0]) + tail;
      ParseEscaped(s[0], tail);
      ParseCharsRoundTrip(s[1..], rest);
      assert [s[0]] + s[1..] == s;
    }
  }

  lemma {:induction false} StringRoundTrip(s: string, rest: string)
    ensures ParseString(EncodeString(s) + rest) == Some((s, rest))
  {
    ParseCharsRoundTrip(s, rest);
    assert (EncodeString(s) + rest)[1..] == EncodeChars(s) + "\"" + rest;
  }

  function EncodeMember(key: string, value: string): string {
    EncodeString(key) + ":" + EncodeString(value)
  }

  function EncodeMembers(keys: seq<string>, m: map<string, string>): string
    requires forall k :: k in keys ==> k in m
  {
    if keys == [] then ""
    else if |keys| == 1 then EncodeMember(keys[0], m[keys[0]])
    else EncodeMember(keys[0], m[keys[0]]) + ("," + EncodeMembers(keys[1..], m))
  }

  /** An object of strings, its keys sorted. */
  function EncodeMap(m: map<string, string>): string {
    "{" + EncodeMembers(SortedKeys(m.Keys), m) + "}"
  }

  function Strip(literal: string, s: string): Option<string> {
    if literal <= s then Some(s[|literal|..]) else None
  }

  lemma {:induction false} StripLiteral(literal: string, rest: string)
    ensures Strip(literal, literal + rest) == Some(rest)
  {
  }

  /** Reads one `"k":"v"` pair; gives the pair and what follows it. */
  function ParseMember(s: string): (r: Option<(string, string, string)>)
    ensures r.Some? ==> |r.value.2| < |s|
  {
    match ParseString(s)
    case None => None
    case Some((key, afterKey)) =>
      match Strip(":", afterKey)
      case None => None
      case Some(beforeValue) =>
        match ParseString(beforeValue)
        case None => None
        case Some((value, afterValue)) =>
          ParseShrinks(s);
          ParseShrinks(beforeValue);
          Some((key, value, afterValue))
  }

  /** Reads pairs up to the closing brace. */
  function ParseMembers(s: string): Option<(map<string, string>, string)>
    decreases |s|
  {
    match ParseMember(s)
    case None => None
    case Some((key, value, afterValue)) =>
      if Strip(",", afterValue).Some? then
        match ParseMembers(afterValue[1..])
        case None => None
        case Some((m, rest)) => Some((map[key := value] + m, rest))
      else if Strip("}", afterValue).Some? then Some((map[key := value], afterValue[1..]))
      else None
  }

  lemma {:induction false} ParseCharsShrinks(s: string)
    ensures ParseChars(s).Some? ==> |ParseChars(s).value.1| < |s|
  {
    if s == "" || s[0] == '"' {
    } else if s[0] != '\\' {
      ParseCharsShrinks(s[1..]);
    } else if |s| >= 2 {
      ParseCharsShrinks(s[2..]);
      if |s| >= 6 {
        ParseCharsShrinks(s[6..]);
      }
    }
  }

  lemma {:induction false} ParseShrinks(s: string)
    ensures ParseString(s).Some? ==> |ParseString(s).value.1| < |s|
  {
    if s != "" {
      ParseCharsShrinks(s[1..]);
    }
  }

  function Restrict(m: map<string, string>, keys: seq<string>): map<string, string> {
    map k | k in m && k in keys :: m[k]
  }

  lemma {:induction false} MemberRoundTrip(key: string, value: string, rest: string)
    ensures ParseMember(EncodeMember(key, value) + rest) == Some((key, value, rest))
  {
    Regroup(EncodeString(key), ":", EncodeString(value), rest);
    StringRoundTrip(key, ":" + (EncodeString(value) + rest));
    StripLiteral(":", EncodeString(value) + rest);
    StringRoundTrip(value, rest);
  }

  lemma {:induction false} Regroup(a: string, b: string, c: string, d: string)
    ensures (a + b + c) + d == a + (b + (c + d))
    ensures (a + (b + c)) + d == a + (b + (c + d))
  {
  }

  lemma {:induction false} ParseMoreMembers(key: string, value: string, tail: string)
    ensures ParseMembers(EncodeMember(key, value) + ("," + tail))
            == match ParseMembers(tail)
               case None => None
               case Some((m, rest)) => Some((map[key := value] + m, rest))
  {
    MemberRoundTrip(key, value, "," + tail);
    assert ("," + tail)[1..] == tail;
  }

  lemma {:induction false} ParseLastMember(key: string, value: string, rest: string)
    ensures ParseMembers(EncodeMember(key, value) + ("}" + rest)) == Some((map[key := value], rest))
  {
    MemberRoundTrip(key, value, "}" + rest);
    assert ("}" + rest)[0] == '}' && ("}" + rest)[1..] == rest;
  }

  lemma {:induction false} MembersRoundTrip(keys: seq<string>, m: map<string, string>, rest: string)
    requires keys != []
    requires forall k :: k in keys ==> k in m
    ensures ParseMembers(EncodeMembers(keys, m) + ("}" + rest)) == Some((Restrict(m, keys), rest))
    decreases |keys|
  {
    RestrictCons(keys, m);
    if |keys| == 1 {
      ParseLastMember(keys[0], m[keys[0]], rest);
    } else {
      var tail := EncodeMembers(keys[1..], m) + ("}" + rest);
      Regroup(EncodeMember(keys[0], m[keys[0]]), ",", EncodeMembers(keys[1..], m), "}" + rest);
      ParseMoreMembers(keys[0], m[keys[0]], tail);
      MembersRoundTrip(keys[1..], m, rest);
    }
  }

  lemma {:induction false} RestrictCons(keys: seq<string>, m: map<string, string>)
    requires keys != [] && keys[0] in m
    ensures Restrict(m, keys) == map[keys[0] := m[keys[0]]] + Restrict(m, keys[1..])
    ensures |keys| == 1 ==> Restrict(m, keys) == map[keys[0] := m[keys[0]]]
  {
  }

  lemma {:induction false} RestrictSorted(m: map<string, string>)
    ensures Restrict(m, SortedKeys(m.Keys)) == m
    ensures m != map[] ==> SortedKeys(m.Keys) != []
  {
    var keys := SortedKeys(m.Keys);
    assert forall k :: k in m ==> k in keys;
  }

  lemma {:induction false} MapRoundTrip(m: map<string, string>, rest: string)
    requires m != map[]
    ensures EncodeMap(m) + rest == "{" + (EncodeMembers(SortedKeys(m.Keys), m) + ("}" + rest))
    ensures ParseMembers(EncodeMembers(SortedKeys(m.Keys), m) + ("}" + rest)) == Some((m, rest))
  {
    RestrictSorted(m);
    MembersRoundTrip(SortedKeys(m.Keys), m, rest);
    Regroup("{", EncodeMembers(SortedKeys(m.Keys), m), "}", rest);
  }

  /** Decimal digits of an integer, as encoding/json writes a Go int. */
  function Decimal(n: int): string
    decreases if n < 0 then 1 else 0, if n < 0 then -n else n
  {
    if n < 0 then "-" + Decimal(-n)
    else if n < 10 then ["0123456789"[n]]
    else Decimal(n / 10) + ["0123456789"[n % 10]]
  }

  /** Text that encoding/json copies unchanged, one byte a character. */
  predicate PlainAscii(s: string) {
    forall i :: 0 <= i < |s| ==> ' ' <= s[i] < '\U{7F}' && s[i] !in "\"\\<>&"
  }

  lemma {:induction false} EncodePlain(s: string)
    requires PlainAscii(s)
    ensures EncodeChars(s) == s
    ensures ByteLen(EncodeString(s)) == |s| + 2
  {
    if s != "" {
      EncodePlain(s[1..]);
      assert Escape(s[0]) == [s[0]];
      assert [s[0]] + s[1..] == s;
    }
    ByteLenAscii(EncodeString(s));
  }
}
