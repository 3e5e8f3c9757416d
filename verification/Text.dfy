/** Strings as Go and JavaScript see them: blank tests, substring search, UTF-8 length and sorted keys. */
module Text {
  datatype Option<+T> = None | Some(value: T)
  {
    function GetOr(default: T): T {
      if Some? then value else default
    }
  }

  /** White space for Go's strings.TrimSpace (unicode.IsSpace). */
  predicate IsGoSpace(c: char) {
    c in "\t\n\U{B}\U{C}\r \U{85}" || IsSharedSpace(c)
  }

  /** White space for JavaScript's String.prototype.trim. */
  predicate IsJsSpace(c: char) {
    c in "\t\n\U{B}\U{C}\r \U{FEFF}" || IsSharedSpace(c)
  }

  predicate IsSharedSpace(c: char) {
    c in "\U{A0}\U{1680}\U{2028}\U{2029}\U{202F}\U{205F}\U{3000}" || '\U{2000}' <= c <= '\U{200A}'
  }

  /** The characters in question, by code point. */
  ghost predicate IsCommonSpace(code: int) {
    9 <= code <= 13 || code in {0x20, 0xA0, 0x1680, 0x2028, 0x2029, 0x202F, 0x205F, 0x3000} || 0x2000 <= code <= 0x200A
  }

  /** The two ends agree on what is white space but for U+0085, which only Go takes for it, and U+FEFF, which only
      JavaScript does. */
  lemma {:induction false} SpacesApart(c: char)
    ensures IsGoSpace(c) <==> IsCommonSpace(c as int) || c as int == 0x85
    ensures IsJsSpace(c) <==> IsCommonSpace(c as int) || c as int == 0xFEFF
  {
  }

  /** strings.TrimSpace(s) == "" */
  predicate GoBlank(s: string) {
    forall i :: 0 <= i < |s| ==> IsGoSpace(s[i])
  }

  /** value.trim() === "" */
  predicate JsBlank(s: string) {
    forall i :: 0 <= i < |s| ==> IsJsSpace(s[i])
  }

  predicate OccursAt(s: string, part: string, i: nat) {
    i + |part| <= |s| && s[i..i + |part|] == part
  }

  /** strings.Contains */
  predicate Contains(s: string, part: string) {
    exists i :: 0 <= i <= |s| && OccursAt(s, part, i)
  }

  function Utf8Len(c: char): nat {
    if c as int < 0x80 then 1 else if c as int < 0x800 then 2 else if c as int < 0x1_0000 then 3 else 4
  }

  /** len() of the Go string that holds these characters. */
  function ByteLen(s: string): nat {
    if s == "" then 0 else Utf8Len(s[0]) + ByteLen(s[1..])
  }

  lemma {:induction false} ByteLenConcat(s: string, t: string)
    ensures ByteLen(s + t) == ByteLen(s) + ByteLen(t)
  {
    if s == "" {
      assert s + t == t;
    } else {
      assert (s + t)[1..] == s[1..] + t;
      ByteLenConcat(s[1..], t);
    }
  }

  lemma {:induction false} ByteLenAscii(s: string)
    requires forall i :: 0 <= i < |s| ==> s[i] as int < 0x80
    ensures ByteLen(s) == |s|
  {
    if s != "" {
      ByteLenAscii(s[1..]);
    }
  }

  /** Code point order, which is also the byte order of the UTF-8 forms. */
  predicate LexLeq(s: string, t: string) {
    if s == "" then true
    else if t == "" then false
    else if s[0] != t[0] then s[0] < t[0]
    else LexLeq(s[1..], t[1..])
  }

  ghost predicate FirstDifference(s: string, t: string, i: int) {
    0 <= i < |s| && i < |t| && s[..i] == t[..i] && s[i] != t[i]
  }

  /** The smaller of two strings has the smaller character where they first differ, or is a prefix of the other. */
  lemma {:induction false} LexByFirstDifference(s: string, t: string)
    ensures LexLeq(s, t) <==> s <= t || exists i :: FirstDifference(s, t, i) && s[i] < t[i]
  {
    if s != "" && t != "" {
      if s[0] == t[0] {
        LexByFirstDifference(s[1..], t[1..]);
        forall i: int ensures FirstDifference(s, t, i + 1) <==> FirstDifference(s[1..], t[1..], i) {
          DifferenceShift(s, t, i);
        }
        if exists i :: FirstDifference(s, t, i) && s[i] < t[i] {
          var i :| FirstDifference(s, t, i) && s[i] < t[i];
          assert FirstDifference(s[1..], t[1..], i - 1) by {
            DifferenceShift(s, t, i - 1);
          }
        }
        assert s <= t <==> s[1..] <= t[1..] by {
          assert s == [s[0]] + s[1..] && t == [t[0]] + t[1..];
        }
      } else {
        assert FirstDifference(s, t, 0);
        forall i | FirstDifference(s, t, i) ensures i == 0 {
          if i > 0 {
            NoPrefix(s, t, i);
          }
        }
      }
    }
  }

  lemma {:induction false} NoPrefix(s: string, t: string, i: nat)
    requires 0 < i <= |s| && i <= |t| && s[..i] == t[..i]
    ensures s[0] == t[0]
  {
    assert s[..i][0] == t[..i][0];
  }

  lemma {:induction false} DifferenceShift(s: string, t: string, i: int)
    requires s != "" && t != "" && s[0] == t[0]
    ensures FirstDifference(s, t, i + 1) <==> FirstDifference(s[1..], t[1..], i)
  {
    if 0 <= i && i + 1 < |s| && i + 1 < |t| {
      assert s[..i + 1] == [s[0]] + s[1..][..i] && t[..i + 1] == [t[0]] + t[1..][..i];
      assert s[..i + 1] == t[..i + 1] ==> s[1..][..i] == s[..i + 1][1..] && t[1..][..i] == t[..i + 1][1..];
    }
  }

  lemma {:induction false} LexTotal(s: string, t: string)
    ensures LexLeq(s, t) || LexLeq(t, s)
    ensures LexLeq(s, t) && LexLeq(t, s) ==> s == t
  {
    if s != "" && t != "" && s[0] == t[0] {
      LexTotal(s[1..], t[1..]);
      assert s == [s[0]] + s[1..] && t == [t[0]] + t[1..];
    }
  }

  lemma {:induction false} LexTransitive(s: string, t: string, u: string)
    requires LexLeq(s, t) && LexLeq(t, u)
    ensures LexLeq(s, u)
  {
    if s != "" && t != "" && u != "" && s[0] == t[0] == u[0] {
      LexTransitive(s[1..], t[1..], u[1..]);
    }
  }

  predicate IsLeastKey(k: string, keys: set<string>) {
    k in keys && forall other :: other in keys ==> LexLeq(k, other)
  }

  lemma {:induction false} LeastKeyExists(keys: set<string>)
    requires keys != {}
    ensures exists k :: IsLeastKey(k, keys)
  {
    var k :| k in keys;
    LexTotal(k, k);
    if keys == {k} {
      assert IsLeastKey(k, keys);
    } else {
      LeastKeyExists(keys - {k});
      var least :| IsLeastKey(least, keys - {k});
      LexTotal(k, least);
      if LexLeq(k, least) {
        forall other | other in keys ensures LexLeq(k, other) {
          if other != k {
            LexTransitive(k, least, other);
          }
        }
        assert IsLeastKey(k, keys);
      } else {
        assert IsLeastKey(least, keys);
      }
    }
  }

  lemma {:induction false} LeastKeyUnique(keys: set<string>)
    ensures forall k, l :: IsLeastKey(k, keys) && IsLeastKey(l, keys) ==> k == l
  {
    forall k, l | IsLeastKey(k, keys) && IsLeastKey(l, keys) ensures k == l {
      LexTotal(k, l);
    }
  }

  /** The order in which encoding/json writes the keys of a map. */
  function SortedKeys(keys: set<string>): (r: seq<string>)
    ensures forall k :: k in r <==> k in keys
    ensures forall i, j :: 0 <= i < j < |r| ==> r[i] != r[j] && LexLeq(r[i], r[j])
  {
    if keys == {} then []
    else
      LeastKeyExists(keys);
      LeastKeyUnique(keys);
      var k :| IsLeastKey(k, keys);
      [k] + SortedKeys(keys - {k})
  }
}
