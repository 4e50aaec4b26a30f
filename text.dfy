/**
 * The string operations the Python code relies on, written out on `seq<char>`:
 * `str.isspace`/`str.strip` emptiness, ASCII `str.lower`, the `in` substring test,
 * Python's code-point order on strings, `str(n)` for naturals and `str.split(sep)`,
 * and the integer `min` the callers share.
 */
module Text {

  /** The characters for which Python's `str.isspace()` holds. */
  predicate IsSpace(c: char)
  {
    || c == ' ' || c == '\t' || c == '\n' || c == '\r' || c == '\U{000B}' || c == '\U{000C}'
    || ('\U{001C}' <= c <= '\U{001F}') || c == '\U{0085}' || c == '\U{00A0}' || c == '\U{1680}'
    || ('\U{2000}' <= c <= '\U{200A}') || c == '\U{2028}' || c == '\U{2029}' || c == '\U{202F}'
    || c == '\U{205F}' || c == '\U{3000}'
  }

  /** `not s or not s.strip()`: the string is empty or holds only whitespace. */
  predicate IsBlank(s: string)
  {
    forall i :: 0 <= i < |s| ==> IsSpace(s[i])
  }

  /** `str.lower()` restricted to the ASCII letters. */
  function LowerChar(c: char): (r: char)
    ensures !('A' <= r <= 'Z')
    ensures !('A' <= c <= 'Z') ==> r == c
  {
    if 'A' <= c <= 'Z' then (c as int - 'A' as int + 'a' as int) as char else c
  }

  function Lower(s: string): (r: string)
    ensures |r| == |s|
    ensures forall i :: 0 <= i < |s| ==> r[i] == LowerChar(s[i])
  {
    if s == [] then [] else [LowerChar(s[0])] + Lower(s[1..])
  }

  predicate IsPrefix(p: string, s: string)
  {
    |p| <= |s| && s[..|p|] == p
  }

  /** Python's `needle in haystack` on strings. */
  predicate Contains(haystack: string, needle: string)
    decreases |haystack|
  {
    IsPrefix(needle, haystack) || (haystack != [] && Contains(haystack[1..], needle))
  }

  /** The needle occurs in the haystack at offset k. */
  predicate OccursAt(haystack: string, needle: string, k: int)
  {
    0 <= k && k + |needle| <= |haystack| && haystack[k..k + |needle|] == needle
  }

  /** Contains is the usual "occurs at some offset". */
  lemma {:induction false} ContainsAt(haystack: string, needle: string)
    ensures Contains(haystack, needle) <==> exists k :: OccursAt(haystack, needle, k)
    decreases |haystack|
  {
    if Contains(haystack, needle) {
      if IsPrefix(needle, haystack) {
        assert OccursAt(haystack, needle, 0);
      } else {
        ContainsAt(haystack[1..], needle);
        var k :| OccursAt(haystack[1..], needle, k);
        assert haystack[k + 1..k + 1 + |needle|] == haystack[1..][k..k + |needle|];
        assert OccursAt(haystack, needle, k + 1);
      }
    }
    if exists k :: OccursAt(haystack, needle, k) {
      var k :| OccursAt(haystack, needle, k);
      if k > 0 {
        assert haystack[1..][k - 1..k - 1 + |needle|] == haystack[k..k + |needle|];
        assert OccursAt(haystack[1..], needle, k - 1);
        ContainsAt(haystack[1..], needle);
      } else {
        assert IsPrefix(needle, haystack);
      }
    }
  }

  /** Every character of a contained needle occurs in the haystack. */
  lemma ContainsChar(haystack: string, needle: string, i: nat)
    requires Contains(haystack, needle) && i < |needle|
    ensures needle[i] in haystack
  {
    ContainsAt(haystack, needle);
    var k :| OccursAt(haystack, needle, k);
    assert haystack[k + i] == haystack[k..k + |needle|][i];
  }

  /** A needle found in the tail of a concatenation is found in the whole. */
  lemma {:induction false} ContainsInSuffix(a: string, b: string, needle: string)
    requires Contains(b, needle)
    ensures Contains(a + b, needle)
    decreases |a|
  {
    if a != [] {
      var ab := a + b;
      assert ab[1..] == a[1..] + b;
      ContainsInSuffix(a[1..], b, needle);
      assert Contains(ab[1..], needle);
    } else {
      assert a + b == b;
    }
  }

  /** A needle found in the head of a concatenation is found in the whole. */
  lemma {:induction false} ContainsInPrefix(a: string, b: string, needle: string)
    requires Contains(a, needle)
    ensures Contains(a + b, needle)
    decreases |a|
  {
    if IsPrefix(needle, a) {
      assert (a + b)[..|needle|] == a[..|needle|];
    } else {
      ContainsInPrefix(a[1..], b, needle);
      assert (a + b)[1..] == a[1..] + b;
    }
  }

  /** Python's `a <= b` on strings: code-point lexicographic order. */
  predicate StrLe(a: string, b: string)
  {
    if a == [] then true
    else if b == [] then false
    else if a[0] != b[0] then a[0] < b[0]
    else StrLe(a[1..], b[1..])
  }

  lemma {:induction false} StrLeTotal(a: string, b: string)
    ensures StrLe(a, b) || StrLe(b, a)
  {
    if a != [] && b != [] && a[0] == b[0] {
      StrLeTotal(a[1..], b[1..]);
    }
  }

  lemma {:induction false} StrLeTrans(a: string, b: string, c: string)
    requires StrLe(a, b) && StrLe(b, c)
    ensures StrLe(a, c)
  {
    if a != [] && b != [] && c != [] && a[0] == b[0] && b[0] == c[0] {
      StrLeTrans(a[1..], b[1..], c[1..]);
    }
  }

  lemma {:induction false} StrLeAntisym(a: string, b: string)
    requires StrLe(a, b) && StrLe(b, a)
    ensures a == b
  {
    if a != [] && b != [] {
      StrLeAntisym(a[1..], b[1..]);
    }
  }

  function DigitChar(d: nat): (c: char)
    requires d < 10
    ensures '0' <= c <= '9'
  {
    ('0' as int + d) as char
  }

  /** `str(n)` for a natural number. */
  function NatToString(n: nat): (s: string)
    ensures |s| >= 1
    ensures forall i :: 0 <= i < |s| ==> '0' <= s[i] <= '9'
    ensures n > 0 ==> s[0] != '0'
  {
    if n < 10 then [DigitChar(n)] else NatToString(n / 10) + [DigitChar(n % 10)]
  }

  function DigitValue(c: char): nat
    requires '0' <= c <= '9'
  {
    c as int - '0' as int
  }

  /** Reads a string of ASCII digits as a natural number. */
  function DigitsValue(s: string): nat
    requires forall i :: 0 <= i < |s| ==> '0' <= s[i] <= '9'
  {
    if s == [] then 0 else DigitsValue(s[..|s| - 1]) * 10 + DigitValue(s[|s| - 1])
  }

  /** `str(n)` reads back as `n`. */
  lemma {:induction false} NatToStringRoundTrip(n: nat)
    ensures DigitsValue(NatToString(n)) == n
  {
    var s := NatToString(n);
    if n >= 10 {
      NatToStringRoundTrip(n / 10);
      assert s[..|s| - 1] == NatToString(n / 10);
    }
  }

  /** `s.split(sep)` for a single-character separator. */
  function Split(s: string, sep: char): (parts: seq<string>)
    ensures |parts| >= 1
  {
    if s == [] then [""]
    else
      var rest := Split(s[1..], sep);
      if s[0] == sep then [""] + rest else [[s[0]] + rest[0]] + rest[1..]
  }

  /** A string without the separator splits into itself alone. */
  lemma {:induction false} SplitWithoutSep(s: string, sep: char)
    requires sep !in s
    ensures Split(s, sep) == [s]
  {
    if s != [] {
      SplitWithoutSep(s[1..], sep);
      assert [s[0]] + s[1..] == s;
    }
  }

  /** Splitting at the first separator: the piece before it, then the split of the rest. */
  lemma {:induction false} SplitAtFirst(p: string, sep: char, q: string)
    requires sep !in p
    ensures Split(p + [sep] + q, sep) == [p] + Split(q, sep)
  {
    var s := p + [sep] + q;
    if p == [] {
      assert s[1..] == q;
    } else {
      assert s[1..] == p[1..] + [sep] + q;
      SplitAtFirst(p[1..], sep, q);
      assert [p[0]] + p[1..] == p;
    }
  }

  /** `sep.join(parts)`. */
  function Join(parts: seq<string>, sep: char): string
  {
    if parts == [] then ""
    else if |parts| == 1 then parts[0]
    else parts[0] + [sep] + Join(parts[1..], sep)
  }

  /** No piece of a split holds the separator. */
  lemma {:induction false} SplitPiecesFree(s: string, sep: char)
    ensures forall k :: 0 <= k < |Split(s, sep)| ==> sep !in Split(s, sep)[k]
  {
    if s != [] {
      SplitPiecesFree(s[1..], sep);
    }
  }

  /** Joining the pieces of a split gives back the string. */
  lemma {:induction false} JoinSplit(s: string, sep: char)
    ensures Join(Split(s, sep), sep) == s
  {
    if s != [] {
      var rest := Split(s[1..], sep);
      JoinSplit(s[1..], sep);
      if s[0] == sep {
        assert Split(s, sep) == [""] + rest;
        assert ([""] + rest)[1..] == rest;
      } else {
        var parts := [[s[0]] + rest[0]] + rest[1..];
        assert Split(s, sep) == parts;
        if |rest| == 1 {
          assert Join(rest, sep) == rest[0];
        } else {
          assert parts[1..] == rest[1..];
          assert Join(rest, sep) == rest[0] + [sep] + Join(rest[1..], sep);
        }
      }
    }
  }

  /**
   * Python's `s[:k]`: the first `k` elements, or all but the last `-k` when `k` is
   * negative, clipped to the sequence.
   */
  function SliceTo<T>(s: seq<T>, k: int): (r: seq<T>)
    ensures r <= s
    ensures k >= 0 ==> |r| == if k < |s| then k else |s|
    ensures k < 0 ==> |r| == if |s| + k > 0 then |s| + k else 0
  {
    if k >= 0 then (if k < |s| then s[..k] else s)
    else if |s| + k > 0 then s[..|s| + k] else []
  }

  function Min(a: int, b: int): int
  {
    if a < b then a else b
  }
}
