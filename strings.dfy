/** String helpers shared by the services: case folding, ordinal substring search,
    `string.Join`, integer rendering, `char.IsWhiteSpace` and ordinal string order. */
module Strings {

  /** Lower-case mapping of one character, as `ToLowerInvariant` maps the letters the bot
      deals with: ASCII, Latin-1, basic Cyrillic and the additional Tatar letters. */
  function FoldChar(c: char): (d: char)
    ensures 'A' <= c <= 'Z' ==> d as int == c as int + 32
    ensures 'a' <= c <= 'z' ==> d == c
    ensures '\U{0410}' <= c <= '\U{042F}' ==> d as int == c as int + 32
    ensures '\U{C0}' <= c <= '\U{DE}' && c != '\U{D7}' ==> d as int == c as int + 32
    ensures '\U{0400}' <= c <= '\U{040F}' ==> d as int == c as int + 80
    ensures c in {'\U{0496}', '\U{04A2}', '\U{04AE}', '\U{04BA}', '\U{04D8}', '\U{04E8}'} ==> d as int == c as int + 1
  {
    if 'A' <= c <= 'Z' then (c as int + 32) as char
    else if '\U{C0}' <= c <= '\U{DE}' && c != '\U{D7}' then (c as int + 32) as char
    else if '\U{0410}' <= c <= '\U{042F}' then (c as int + 32) as char
    else if '\U{0400}' <= c <= '\U{040F}' then (c as int + 80) as char
    else if c == '\U{0496}' || c == '\U{04A2}' || c == '\U{04AE}' || c == '\U{04BA}'
         || c == '\U{04D8}' || c == '\U{04E8}' then (c as int + 1) as char
    else c
  }

  /** Folding a character that is already folded changes nothing. */
  lemma FoldCharIdempotent(c: char)
    ensures FoldChar(FoldChar(c)) == FoldChar(c)
  {
  }

  /** Case folding of a whole string, one character at a time. */
  function Fold(s: string): (r: string)
    ensures |r| == |s|
  {
    seq(|s|, i requires 0 <= i < |s| => FoldChar(s[i]))
  }

  lemma {:induction false} FoldIdempotent(s: string)
    ensures Fold(Fold(s)) == Fold(s)
  {
    forall i | 0 <= i < |s|
      ensures Fold(Fold(s))[i] == Fold(s)[i]
    {
      FoldCharIdempotent(s[i]);
    }
  }

  /** Ordinal substring test, as `string.Contains(string)`: the empty needle occurs everywhere. */
  predicate Contains(hay: string, needle: string): (found: bool)
    ensures found ==> |needle| <= |hay|
  {
    exists i | 0 <= i <= |hay| - |needle| :: OccursAt(hay, needle, i)
  }

  /** `needle` occurs in `hay` starting at position `i`. */
  predicate OccursAt(hay: string, needle: string, i: int)
  {
    0 <= i <= |hay| - |needle| && hay[i..i + |needle|] == needle
  }

  lemma ContainsEmpty(hay: string)
    ensures Contains(hay, "")
  {
    assert OccursAt(hay, "", 0);
  }

  /** `Contains` with `StringComparison.OrdinalIgnoreCase`. */
  predicate ContainsIgnoreCase(hay: string, needle: string): (found: bool)
    ensures |needle| == 0 ==> found
    ensures found ==> |needle| <= |hay|
  {
    ContainsEmpty(Fold(hay));
    Contains(Fold(hay), Fold(needle))
  }

  /** `string.Join(sep, parts)`. */
  function Join(sep: string, parts: seq<string>): (r: string)
    ensures |parts| == 0 ==> r == ""
    ensures |parts| > 0 ==> |parts[0]| <= |r| && r[..|parts[0]|] == parts[0]
    decreases |parts|
  {
    if |parts| == 0 then ""
    else if |parts| == 1 then parts[0]
    else parts[0] + sep + Join(sep, parts[1..])
  }

  /** The concatenation of `sep + p` for every part `p`, in order. */
  function Prefixed(sep: string, parts: seq<string>): (r: string)
    decreases |parts|
  {
    if |parts| == 0 then "" else sep + parts[0] + Prefixed(sep, parts[1..])
  }

  /** Joining a non-empty list puts the separator before every part but the first. */
  lemma {:induction false} JoinUnfold(sep: string, first: string, rest: seq<string>)
    ensures Join(sep, [first] + rest) == first + Prefixed(sep, rest)
    decreases |rest|
  {
    if |rest| > 0 {
      JoinUnfold(sep, rest[0], rest[1..]);
      assert ([first] + rest)[1..] == [rest[0]] + rest[1..];
    }
  }

  /** Number of occurrences of `c` in `s`. */
  function Count(c: char, s: string): (n: nat)
    ensures n <= |s|
  {
    if |s| == 0 then 0 else (if s[0] == c then 1 else 0) + Count(c, s[1..])
  }

  lemma {:induction false} CountAppend(c: char, a: string, b: string)
    ensures Count(c, a + b) == Count(c, a) + Count(c, b)
  {
    if |a| > 0 {
      assert (a + b)[1..] == a[1..] + b;
      CountAppend(c, a[1..], b);
    } else {
      assert a + b == b;
    }
  }

  /** `Count` over four concatenated parts. */
  lemma CountAppend4(c: char, a: string, b: string, d: string, e: string)
    ensures Count(c, a + b + d + e) == Count(c, a) + Count(c, b) + Count(c, d) + Count(c, e)
  {
    CountAppend(c, a, b);
    CountAppend(c, a + b, d);
    CountAppend(c, a + b + d, e);
  }

  lemma {:induction false} CountAbsent(c: char, s: string)
    requires c !in s
    ensures Count(c, s) == 0
  {
    if |s| > 0 {
      assert s[0] != c;
      CountAbsent(c, s[1..]);
    }
  }

  function DigitChar(d: nat): (c: char)
    requires d < 10
    ensures '0' <= c <= '9'
  {
    ('0' as int + d) as char
  }

  /** Decimal rendering of a natural number, most significant digit first. */
  function NatToString(n: nat): (s: string)
    ensures |s| > 0
    ensures forall i :: 0 <= i < |s| ==> '0' <= s[i] <= '9'
    ensures n < 10 ==> |s| == 1
    decreases n
  {
    if n < 10 then [DigitChar(n)] else NatToString(n / 10) + [DigitChar(n % 10)]
  }

  /** Decimal value of a string of digits. */
  function DigitsValue(s: string): (n: nat)
    requires forall i :: 0 <= i < |s| ==> '0' <= s[i] <= '9'
    decreases |s|
  {
    if |s| == 0 then 0 else DigitsValue(s[..|s| - 1]) * 10 + (s[|s| - 1] as int - '0' as int)
  }

  /** Reading the rendered digits back gives the number. */
  lemma {:induction false} NatToStringRoundTrip(n: nat)
    ensures DigitsValue(NatToString(n)) == n
    decreases n
  {
    var s := NatToString(n);
    if n >= 10 {
      NatToStringRoundTrip(n / 10);
      assert s[..|s| - 1] == NatToString(n / 10);
    }
  }

  /** `int.ToString()` with the invariant culture: an optional minus sign, then digits. */
  function IntToString(n: int): (s: string)
    ensures |s| > 0
    ensures forall i :: 0 <= i < |s| ==> ('0' <= s[i] <= '9' || s[i] == '-')
    ensures (s[0] == '-') <==> n < 0
  {
    if n < 0 then "-" + NatToString(-n) else NatToString(n)
  }

  /** `char.IsWhiteSpace`: the Unicode space separators, line and paragraph separators,
      and the control characters U+0009 to U+000D and U+0085. */
  predicate IsWhiteSpace(c: char): (ws: bool)
    ensures c == ' ' || c == '\t' || c == '\n' || c == '\r' ==> ws
    ensures 'a' <= c <= 'z' || 'A' <= c <= 'Z' || '0' <= c <= '9' || '\U{0400}' <= c <= '\U{04FF}' ==> !ws
  {
    ('\U{09}' <= c <= '\U{0D}') || c == ' ' || c == '\U{85}' || c == '\U{A0}'
    || c == '\U{1680}' || ('\U{2000}' <= c <= '\U{200A}') || c == '\U{2028}'
    || c == '\U{2029}' || c == '\U{202F}' || c == '\U{205F}' || c == '\U{3000}'
  }

  /** `string.IsNullOrWhiteSpace` for a non-null string. */
  predicate IsBlank(s: string): (blank: bool)
    ensures |s| == 0 ==> blank
    ensures |s| > 0 && !IsWhiteSpace(s[0]) ==> !blank
  {
    forall i | 0 <= i < |s| :: IsWhiteSpace(s[i])
  }

  /** Strict ordinal (character-code) lexicographic order on strings. */
  predicate Less(a: string, b: string): (less: bool)
    ensures less ==> a != b
    decreases |a|
  {
    if |a| == 0 then |b| > 0
    else if |b| == 0 then false
    else a[0] < b[0] || (a[0] == b[0] && Less(a[1..], b[1..]))
  }

  lemma {:induction false} LessTransitive(a: string, b: string, c: string)
    requires Less(a, b) && Less(b, c)
    ensures Less(a, c)
    decreases |a|
  {
    if |a| > 0 && a[0] == b[0] && b[0] == c[0] {
      LessTransitive(a[1..], b[1..], c[1..]);
    }
  }

  lemma {:induction false} LessTotal(a: string, b: string)
    requires a != b
    ensures Less(a, b) || Less(b, a)
    decreases |a|
  {
    if |a| > 0 && |b| > 0 && a[0] == b[0] {
      assert a == [a[0]] + a[1..] && b == [b[0]] + b[1..];
      LessTotal(a[1..], b[1..]);
    }
  }
}
