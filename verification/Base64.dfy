/** Base64 (section 4 of RFC 4648) as the two ends use it: the encoder, Go's decoder and Node's forgiving one. */
module Base64 {
  import opened Text

  type Byte = x: int | 0 <= x < 256
  type Sextet = x: int | 0 <= x < 64

  function SymbolOf(v: Sextet): (c: char)
    ensures ValueOf(c) == Some(v) && NodeValueOf(c) == Some(v)
  {
    if v < 26 then 'A' + v as char
    else if v < 52 then 'a' + (v - 26) as char
    else if v < 62 then '0' + (v - 52) as char
    else if v == 62 then '+' else '/'
  }

  function ValueOf(c: char): Option<Sextet> {
    if 'A' <= c <= 'Z' then Some((c - 'A') as int)
    else if 'a' <= c <= 'z' then Some((c - 'a') as int + 26)
    else if '0' <= c <= '9' then Some((c - '0') as int + 52)
    else if c == '+' then Some(62)
    else if c == '/' then Some(63)
    else None
  }

  function Encode(bytes: seq<Byte>): string {
    if bytes == [] then ""
    else if |bytes| == 1 then
      [SymbolOf(bytes[0] / 4), SymbolOf(bytes[0] % 4 * 16), '=', '=']
    else if |bytes| == 2 then
      [SymbolOf(bytes[0] / 4), SymbolOf(bytes[0] % 4 * 16 + bytes[1] / 16), SymbolOf(bytes[1] % 16 * 4), '=']
    else
      [SymbolOf(bytes[0] / 4), SymbolOf(bytes[0] % 4 * 16 + bytes[1] / 16), SymbolOf(bytes[1] % 16 * 4 + bytes[2] / 64),
       SymbolOf(bytes[2] % 64)] + Encode(bytes[3..])
  }

  /** The alphabet of table 1 of RFC 4648. */
  lemma {:induction false} StandardAlphabet(v: Sextet)
    ensures SymbolOf(v)
            == if v < 32 then "ABCDEFGHIJKLMNOPQRSTUVWXYZabcdef"[v] else "ghijklmnopqrstuvwxyz0123456789+/"[v - 32]
  {
  }

  function ByteAt(bytes: seq<Byte>, i: nat): Byte {
    if i < |bytes| then bytes[i] else 0
  }

  /** The i-th group of four characters stands for these four sextets; characters without any bit are padding. */
  predicate GroupAt(bytes: seq<Byte>, text: string, i: nat, a: Sextet, b: Sextet, c: Sextet, d: Sextet) {
    && 4 * i + 4 <= |text| && text[4 * i] == SymbolOf(a) && text[4 * i + 1] == SymbolOf(b)
    && text[4 * i + 2] == (if 3 * i + 1 < |bytes| then SymbolOf(c) else '=')
    && text[4 * i + 3] == (if 3 * i + 2 < |bytes| then SymbolOf(d) else '=')
  }

  lemma {:induction false} SextetsSum(x: Byte, y: Byte, z: Byte)
    ensures x / 4 * 262144 + (x % 4 * 16 + y / 16) * 4096 + (y % 16 * 4 + z / 64) * 64 + z % 64
            == x * 65536 + y * 256 + z
  {
  }

  /** The i-th group of four characters holds the 24 bits of the i-th three bytes, the first ones first; what is missing
      at the end counts as zero. */
  lemma {:induction false} EncodesGroups(bytes: seq<Byte>, i: nat) returns (a: Sextet, b: Sextet, c: Sextet, d: Sextet)
    requires 3 * i < |bytes|
    ensures GroupAt(bytes, Encode(bytes), i, a, b, c, d)
    ensures a * 262144 + b * 4096 + c * 64 + d
            == ByteAt(bytes, 3 * i) * 65536 + ByteAt(bytes, 3 * i + 1) * 256 + ByteAt(bytes, 3 * i + 2)
    decreases |bytes|
  {
    hide SymbolOf, GroupAt, Encode;
    if i == 0 {
      a, b, c, d := FirstGroup(bytes);
    } else {
      var rest := bytes[3..];
      a, b, c, d := EncodesGroups(rest, i - 1);
      GroupShift(bytes, i, a, b, c, d);
    }
  }

  lemma {:induction false} FirstGroup(bytes: seq<Byte>) returns (a: Sextet, b: Sextet, c: Sextet, d: Sextet)
    requires bytes != []
    ensures GroupAt(bytes, Encode(bytes), 0, a, b, c, d)
    ensures a * 262144 + b * 4096 + c * 64 + d
            == ByteAt(bytes, 0) * 65536 + ByteAt(bytes, 1) * 256 + ByteAt(bytes, 2)
  {
    var x, y, z := ByteAt(bytes, 0), ByteAt(bytes, 1), ByteAt(bytes, 2);
    a, b, c, d := x / 4, x % 4 * 16 + y / 16, y % 16 * 4 + z / 64, z % 64;
    SextetsSum(x, y, z);
    GroupWritten(bytes);
  }

  lemma {:induction false} GroupWritten(bytes: seq<Byte>)
    requires bytes != []
    ensures var x, y, z := ByteAt(bytes, 0), ByteAt(bytes, 1), ByteAt(bytes, 2);
            GroupAt(bytes, Encode(bytes), 0, x / 4, x % 4 * 16 + y / 16, y % 16 * 4 + z / 64, z % 64)
  {
    hide SymbolOf;
  }

  lemma {:induction false} GroupShift(bytes: seq<Byte>, i: nat, a: Sextet, b: Sextet, c: Sextet, d: Sextet)
    requires 0 < i && 3 * i < |bytes| && GroupAt(bytes[3..], Encode(bytes[3..]), i - 1, a, b, c, d)
    ensures GroupAt(bytes, Encode(bytes), i, a, b, c, d)
  {
    hide SymbolOf, Encode;
    var text, rest := Encode(bytes), Encode(bytes[3..]);
    EncodeOn(bytes);
    assert forall j: nat :: j < |rest| ==> text[j + 4] == rest[j];
  }

  lemma {:induction false} EncodeOn(bytes: seq<Byte>)
    requires |bytes| > 3
    ensures |Encode(bytes)| == |Encode(bytes[3..])| + 4 && Encode(bytes)[4..] == Encode(bytes[3..])
  {
    hide SymbolOf;
  }

  // ----- Go -----

  /** Go's decoder skips line breaks wherever they stand. */
  function StripBreaks(s: string): string {
    if s == "" then ""
    else if s[0] == '\n' || s[0] == '\r' then StripBreaks(s[1..])
    else [s[0]] + StripBreaks(s[1..])
  }

  function First(a: Sextet, b: Sextet): Byte {
    a * 4 + b / 16
  }

  function Second(b: Sextet, c: Sextet): Byte {
    b % 16 * 16 + c / 4
  }

  function Third(c: Sextet, d: Sextet): Byte {
    c % 4 * 64 + d
  }

  /** Groups of four; only the last may be padded, and the spare bits of a padded group are not looked at. */
  function DecodeGroups(s: string): Option<seq<Byte>> {
    if s == "" then Some([])
    else if |s| < 4 then None
    else
      var a, b, c, d := ValueOf(s[0]), ValueOf(s[1]), ValueOf(s[2]), ValueOf(s[3]);
      if a.None? || b.None? then None
      else if c.None? then
        if s[2..] == "==" then Some([First(a.value, b.value)]) else None
      else if d.None? then
        if s[3..] == "=" then Some([First(a.value, b.value), Second(b.value, c.value)]) else None
      else
        match DecodeGroups(s[4..])
        case None => None
        case Some(rest) => Some([First(a.value, b.value), Second(b.value, c.value), Third(c.value, d.value)] + rest)
  }

  /** base64.StdEncoding.DecodeString */
  function GoDecode(s: string): Option<seq<Byte>> {
    DecodeGroups(StripBreaks(s))
  }

  // ----- Node -----

  /** Buffer.from(s, "base64") also reads the URL-safe alphabet. */
  function NodeValueOf(c: char): Option<Sextet> {
    if c == '-' then Some(62) else if c == '_' then Some(63) else ValueOf(c)
  }

  /** It skips whatever is not in its alphabet. */
  function Legible(s: string): seq<Sextet> {
    if s == "" then []
    else LegibleChar(s[0]) + Legible(s[1..])
  }

  function LegibleChar(c: char): seq<Sextet> {
    if NodeValueOf(c).Some? then [NodeValueOf(c).value] else []
  }

  /** The whole bytes in a run of sextets. */
  function Whole(v: seq<Sextet>): seq<Byte> {
    if |v| < 2 then []
    else if |v| == 2 then [First(v[0], v[1])]
    else if |v| == 3 then [First(v[0], v[1]), Second(v[1], v[2])]
    else [First(v[0], v[1]), Second(v[1], v[2]), Third(v[2], v[3])] + Whole(v[4..])
  }

  function NodeDecode(s: string): seq<Byte> {
    Whole(Legible(s))
  }

  // ----- round trips -----

  lemma {:induction false} EncodedPlain(bytes: seq<Byte>)
    ensures StripBreaks(Encode(bytes)) == Encode(bytes)
    ensures bytes != [] ==> Encode(bytes) != ""
  {
    PlainStrips(Encode(bytes)) by {
      EncodedSymbols(bytes);
    }
  }

  lemma {:induction false} EncodedSymbols(bytes: seq<Byte>)
    ensures forall i :: 0 <= i < |Encode(bytes)| ==> Encode(bytes)[i] != '\n' && Encode(bytes)[i] != '\r'
  {
    if |bytes| > 2 {
      EncodedSymbols(bytes[3..]);
    }
  }

  lemma {:induction false} PlainStrips(s: string)
    requires forall i :: 0 <= i < |s| ==> s[i] != '\n' && s[i] != '\r'
    ensures StripBreaks(s) == s
  {
    if s != "" {
      PlainStrips(s[1..]);
    }
  }

  lemma {:induction false} StripsApart(s: string, t: string)
    ensures StripBreaks(s + t) == StripBreaks(s) + StripBreaks(t)
  {
    if s == "" {
      assert s + t == t;
    } else {
      assert (s + t)[1..] == s[1..] + t;
      StripsApart(s[1..], t);
    }
  }

  /** To Go it makes no difference where the text is broken into lines, and how. */
  lemma {:induction false} BreaksIgnored(s: string, t: string, ending: string)
    requires ending in {"\n", "\r", "\r\n"}
    ensures GoDecode(s + ending + t) == GoDecode(s + t)
  {
    hide DecodeGroups;
    StripsApart(s + ending, t);
    StripsApart(s, ending);
    StripsApart(s, t);
    assert "\r\n"[1..] == "\n" && "\n"[1..] == "" && "\r"[1..] == "";
    assert StripBreaks("\n") == "";
    assert StripBreaks(ending) == "";
    assert StripBreaks(s + ending) == StripBreaks(s);
    assert StripBreaks(s + ending + t) == StripBreaks(s + t);
  }

  /** Only the symbols of the alphabet have values. */
  lemma {:induction false} ValueOfSymbols(c: char)
    ensures ValueOf(c).Some? ==> SymbolOf(ValueOf(c).value) == c
  {
  }

  /** Whole groups of symbols, the last of which may end in one or two characters of padding. */
  predicate Padded(s: string) {
    var n := |s|;
    && n % 4 == 0 && (forall i :: 0 <= i < n - 2 ==> ValueOf(s[i]).Some?)
    && (n > 0 ==>
          || (ValueOf(s[n - 2]).Some? && (ValueOf(s[n - 1]).Some? || s[n - 1] == '='))
          || (s[n - 2] == '=' && s[n - 1] == '='))
  }

  /** Go refuses every other text. */
  lemma {:induction false} GoAccepts(s: string)
    ensures DecodeGroups(s).Some? <==> Padded(s)
  {
    hide First, Second, Third, ValueOf;
    EqualsNoSymbol();
    if |s| > 4 {
      GoAccepts(s[4..]);
      PaddedOn(s);
    } else if |s| == 4 {
      assert s[4..] == "";
      assert s[2..] == [s[2], s[3]] && s[3..] == [s[3]];
    }
  }

  lemma {:induction false} EqualsNoSymbol()
    ensures ValueOf('=').None?
  {
  }

  lemma {:induction false} PaddedOn(s: string)
    requires |s| > 4
    ensures Padded(s) <==> Padded(s[4..]) && forall i :: 0 <= i < 4 ==> ValueOf(s[i]).Some?
  {
    hide ValueOf;
    var t := s[4..];
    assert forall i :: 0 <= i < |t| ==> t[i] == s[i + 4];
    if Padded(s) {
      forall i | 0 <= i < |t| - 2 ensures ValueOf(t[i]).Some? {
        assert t[i] == s[i + 4];
      }
    }
    if Padded(t) && forall i :: 0 <= i < 4 ==> ValueOf(s[i]).Some? {
      forall i | 0 <= i < |s| - 2 ensures ValueOf(s[i]).Some? {
        assert i >= 4 ==> s[i] == t[i - 4];
      }
    }
  }

  /** Worker to client: Go reads back what was encoded. */
  lemma {:induction false} GoRoundTrip(bytes: seq<Byte>)
    ensures GoDecode(Encode(bytes)) == Some(bytes)
  {
    EncodedPlain(bytes);
    GroupsRoundTrip(bytes);
  }

  /** Three bytes are four sextets; with fewer, the missing ones count as zero. */
  lemma {:induction false} GroupBytes(x: Byte, y: Byte, z: Byte)
    ensures First(x / 4, x % 4 * 16 + y / 16) == x
    ensures Second(x % 4 * 16 + y / 16, y % 16 * 4 + z / 64) == y
    ensures Third(y % 16 * 4 + z / 64, z % 64) == z
  {
  }

  lemma {:induction false} GroupsRoundTrip(bytes: seq<Byte>)
    ensures DecodeGroups(Encode(bytes)) == Some(bytes)
  {
    hide First, Second, Third, SymbolOf, ValueOf;
    if 0 < |bytes| < 3 {
      ShortGroupsRoundTrip(bytes);
    } else if |bytes| > 2 {
      var s := Encode(bytes);
      GroupBytes(bytes[0], bytes[1], bytes[2]);
      GroupsRoundTrip(bytes[3..]);
      assert s[4..] == Encode(bytes[3..]);
      assert bytes == [bytes[0], bytes[1], bytes[2]] + bytes[3..];
    }
  }

  lemma {:induction false} ShortGroupsRoundTrip(bytes: seq<Byte>)
    requires 0 < |bytes| < 3
    ensures DecodeGroups(Encode(bytes)) == Some(bytes)
  {
    hide First, Second, Third, SymbolOf;
    var s := Encode(bytes);
    if |bytes| == 1 {
      GroupBytes(bytes[0], 0, 0);
      assert s[2..] == "==" && bytes == [bytes[0]];
    } else {
      var c: Sextet := bytes[1] % 16 * 4;
      GroupBytes(bytes[0], bytes[1], 0);
      assert s[2] == SymbolOf(c) && s[3..] == "=";
      assert bytes == [bytes[0], bytes[1]];
    }
  }

  /** Client to worker: Node reads back what was encoded. */
  lemma {:induction false} NodeRoundTrip(bytes: seq<Byte>)
    ensures NodeDecode(Encode(bytes)) == bytes
  {
    hide First, Second, Third, SymbolOf, ValueOf;
    if bytes != [] {
      LegibleGroup(Encode(bytes));
    }
    if 0 < |bytes| < 3 {
      ShortNodeRoundTrip(bytes);
    } else if |bytes| > 2 {
      var s := Encode(bytes);
      GroupBytes(bytes[0], bytes[1], bytes[2]);
      NodeRoundTrip(bytes[3..]);
      assert s[4..] == Encode(bytes[3..]);
      assert Legible(s)[4..] == Legible(s[4..]);
      assert bytes == [bytes[0], bytes[1], bytes[2]] + bytes[3..];
    }
  }

  lemma {:induction false} ShortNodeRoundTrip(bytes: seq<Byte>)
    requires 0 < |bytes| < 3
    ensures NodeDecode(Encode(bytes)) == bytes
  {
    hide First, Second, Third, SymbolOf;
    var s := Encode(bytes);
    LegibleGroup(s);
    assert Legible(s[4..]) == [];
    assert LegibleChar('=') == [];
    if |bytes| == 1 {
      GroupBytes(bytes[0], 0, 0);
      assert bytes == [bytes[0]];
    } else {
      var c: Sextet := bytes[1] % 16 * 4;
      GroupBytes(bytes[0], bytes[1], 0);
      assert s[2] == SymbolOf(c);
      assert bytes == [bytes[0], bytes[1]];
    }
  }

  lemma {:induction false} LegibleGroup(s: string)
    requires |s| >= 4
    ensures Legible(s) == LegibleChar(s[0]) + LegibleChar(s[1]) + LegibleChar(s[2]) + LegibleChar(s[3])
            + Legible(s[4..])
  {
    hide LegibleChar;
    assert s[1..][1..] == s[2..] && s[2..][1..] == s[3..] && s[3..][1..] == s[4..];
    assert Legible(s) == LegibleChar(s[0]) + Legible(s[1..]);
    assert Legible(s[1..]) == LegibleChar(s[1]) + Legible(s[2..]);
    assert Legible(s[2..]) == LegibleChar(s[2]) + Legible(s[3..]);
  }

  lemma {:induction false} OneGroupMore(n: nat)
    ensures (n + 3 + 2) / 3 == (n + 2) / 3 + 1
  {
  }

  /** The encoded length, and with it the share of the batch limit that a body takes. */
  lemma {:induction false} EncodedLength(bytes: seq<Byte>)
    ensures |Encode(bytes)| == (|bytes| + 2) / 3 * 4
  {
    hide SymbolOf;
    if |bytes| > 2 {
      EncodedLength(bytes[3..]);
      OneGroupMore(|bytes| - 3);
    }
  }
}
