/** The Kotlin string operations the screens rely on: blankness, digits,
    case folding, case-insensitive `contains`, `split`/`joinToString` on one
    separator, and `capitalize`. Case mappings cover ASCII letters only. */
module Text {

  /** Kotlin's `Char.isWhitespace()`: Java whitespace or a Unicode space
      separator, i.e. the controls 9..13 and 28..31 plus categories Zs, Zl, Zp. */
  predicate IsWhitespace(c: char) {
    || c == ' ' || c == '\t' || c == '\n' || c == '\r'
    || c == '\U{000B}' || c == '\U{000C}'
    || ('\U{001C}' <= c <= '\U{001F}')
    || c == '\U{00A0}' || c == '\U{1680}'
    || ('\U{2000}' <= c <= '\U{200A}')
    || c == '\U{2028}' || c == '\U{2029}' || c == '\U{202F}'
    || c == '\U{205F}' || c == '\U{3000}'
  }

  /** Kotlin's `CharSequence.isBlank()`: empty or only whitespace. */
  predicate IsBlank(s: string) {
    forall i :: 0 <= i < |s| ==> IsWhitespace(s[i])
  }

  predicate IsDigit(c: char) {
    '0' <= c <= '9'
  }

  function Upper(c: char): (r: char)
    ensures 'a' <= c <= 'z' ==> 'A' <= r <= 'Z'
    ensures !('a' <= c <= 'z') ==> r == c
  {
    if 'a' <= c <= 'z' then (c as int - 32) as char else c
  }

  function Lower(c: char): (r: char)
    ensures 'A' <= c <= 'Z' ==> 'a' <= r <= 'z'
    ensures !('A' <= c <= 'Z') ==> r == c
  {
    if 'A' <= c <= 'Z' then (c as int + 32) as char else c
  }

  /** Kotlin's `Char.equals(other, ignoreCase = true)`. */
  predicate CharEqualsIgnoreCase(a: char, b: char) {
    a == b || Upper(a) == Upper(b) || Lower(Upper(a)) == Lower(Upper(b))
  }

  /** Two characters agree ignoring case exactly when their lower-case forms agree. */
  lemma CharEqualsIgnoreCaseIsLowerEquality(a: char, b: char)
    ensures CharEqualsIgnoreCase(a, b) <==> Lower(a) == Lower(b)
  {
  }

  function LowerAll(s: string): (r: string)
    ensures |r| == |s|
    ensures forall i :: 0 <= i < |s| ==> r[i] == Lower(s[i])
  {
    if |s| == 0 then "" else [Lower(s[0])] + LowerAll(s[1..])
  }

  /** `needle` occurs in `hay` at offset `i`, comparing characters ignoring case. */
  predicate RegionMatches(hay: string, i: int, needle: string)
    requires 0 <= i && i + |needle| <= |hay|
  {
    forall j :: 0 <= j < |needle| ==> CharEqualsIgnoreCase(hay[i + j], needle[j])
  }

  /** Kotlin's `hay.contains(needle, ignoreCase = true)`. */
  predicate ContainsIgnoreCase(hay: string, needle: string) {
    exists i :: 0 <= i && i + |needle| <= |hay| && RegionMatches(hay, i, needle)
  }

  /** `needle` occurs in `hay` at offset `i`, character for character. */
  predicate OccursAt(hay: string, i: int, needle: string)
    requires 0 <= i && i + |needle| <= |hay|
  {
    hay[i..i + |needle|] == needle
  }

  /** Plain, case-sensitive substring containment. */
  predicate Contains(hay: string, needle: string) {
    exists i :: 0 <= i && i + |needle| <= |hay| && OccursAt(hay, i, needle)
  }

  /** The empty query occurs in every string. */
  lemma EmptyNeedleIsContained(hay: string)
    ensures ContainsIgnoreCase(hay, "")
  {
    assert RegionMatches(hay, 0, "");
  }

  /** Case-insensitive containment is containment after lower-casing both sides. */
  lemma ContainsIgnoreCaseIsLoweredContains(hay: string, needle: string)
    ensures ContainsIgnoreCase(hay, needle) <==> Contains(LowerAll(hay), LowerAll(needle))
  {
    var h, n := LowerAll(hay), LowerAll(needle);
    if ContainsIgnoreCase(hay, needle) {
      var i :| 0 <= i && i + |needle| <= |hay| && RegionMatches(hay, i, needle);
      forall j | 0 <= j < |needle|
        ensures h[i..i + |n|][j] == n[j]
      {
        CharEqualsIgnoreCaseIsLowerEquality(hay[i + j], needle[j]);
      }
      assert OccursAt(h, i, n);
    }
    if Contains(h, n) {
      var i :| 0 <= i && i + |n| <= |h| && OccursAt(h, i, n);
      forall j | 0 <= j < |needle|
        ensures CharEqualsIgnoreCase(hay[i + j], needle[j])
      {
        assert h[i..i + |n|][j] == n[j];
        CharEqualsIgnoreCaseIsLowerEquality(hay[i + j], needle[j]);
      }
      assert RegionMatches(hay, i, needle);
    }
  }

  /** Kotlin's `split(sep)` on a one-character delimiter: every field, empty
      ones included, in order. */
  function Split(s: string, sep: char): (r: seq<string>)
    ensures |r| >= 1
    ensures forall i :: 0 <= i < |r| ==> sep !in r[i]
    ensures sep !in s ==> r == [s]
  {
    if |s| == 0 then [""]
    else
      var rest := Split(s[1..], sep);
      if s[0] == sep then [""] + rest
      else
        assert sep !in s ==> sep !in s[1..] && s == [s[0]] + s[1..];
        [[s[0]] + rest[0]] + rest[1..]
  }

  /** Kotlin's `joinToString(sep)`. */
  function Join(parts: seq<string>, sep: char): string {
    if |parts| == 0 then ""
    else if |parts| == 1 then parts[0]
    else parts[0] + [sep] + Join(parts[1..], sep)
  }

  /** Joining the fields of a split with the same separator gives back the string. */
  lemma {:induction false} JoinSplit(s: string, sep: char)
    ensures Join(Split(s, sep), sep) == s
  {
    if |s| > 0 {
      var rest := Split(s[1..], sep);
      JoinSplit(s[1..], sep);
      if s[0] == sep {
        assert Split(s, sep) == [""] + rest;
        assert ([""] + rest)[1..] == rest;
        assert s == [sep] + s[1..];
      } else if |rest| == 1 {
        assert s == [s[0]] + s[1..];
      } else {
        var parts := Split(s, sep);
        assert parts == [[s[0]] + rest[0]] + rest[1..];
        assert parts[1..] == rest[1..];
        assert Join(rest, sep) == rest[0] + [sep] + Join(rest[1..], sep);
        assert s == [s[0]] + s[1..];
      }
    }
  }

  /** The index of the first occurrence of `c` in `s`. */
  function IndexOf(s: string, c: char): (k: nat)
    requires c in s
    ensures k < |s| && s[k] == c && c !in s[..k]
  {
    if s[0] == c then 0
    else
      assert c in s[1..];
      1 + IndexOf(s[1..], c)
  }

  /** Everything after the first separator is what the fields after the
      first one describe. */
  lemma {:induction false} SplitTail(s: string, sep: char)
    requires sep in s
    ensures Split(s, sep)[1..] == Split(s[IndexOf(s, sep) + 1..], sep)
  {
    if s[0] != sep {
      assert sep in s[1..];
      SplitTail(s[1..], sep);
      var rest := Split(s[1..], sep);
      assert |rest| >= 2;
      assert s[1..][IndexOf(s[1..], sep) + 1..] == s[IndexOf(s, sep) + 1..];
    }
  }

  /** Kotlin's `split(sep)[0]`: the text before the first separator, or all of it. */
  function BeforeFirst(s: string, sep: char): (r: string)
    ensures r == Split(s, sep)[0]
    ensures sep !in r
    ensures sep in s ==> r == s[..IndexOf(s, sep)]
    ensures sep !in s ==> r == s
  {
    var parts := Split(s, sep);
    if sep in s then
      PrefixBeforeFirst(s, sep);
      parts[0]
    else parts[0]
  }

  lemma {:induction false} PrefixBeforeFirst(s: string, sep: char)
    requires sep in s
    ensures Split(s, sep)[0] == s[..IndexOf(s, sep)]
  {
    if s[0] != sep {
      assert sep in s[1..];
      PrefixBeforeFirst(s[1..], sep);
      assert s[..IndexOf(s, sep)] == [s[0]] + s[1..][..IndexOf(s[1..], sep)];
    }
  }

  /** Kotlin's (ASCII) `capitalize()`: a lower-case first letter becomes upper case. */
  function Capitalize(s: string): (r: string)
    ensures |r| == |s|
    ensures |s| > 0 ==> r[0] == Upper(s[0]) && r[1..] == s[1..]
  {
    if |s| > 0 && 'a' <= s[0] <= 'z' then [Upper(s[0])] + s[1..] else s
  }
}
