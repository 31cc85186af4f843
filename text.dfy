/** The string operations of Python 2 that the tool relies on, each with the
    exact meaning it has there. */
module Text {
  import opened Common

  predicate IsAsciiAlnum(c: char)
  {
    'a' <= c <= 'z' || 'A' <= c <= 'Z' || '0' <= c <= '9'
  }

  /** `s.isalnum()` on a Python 2 byte string in the C locale: at least one
      character, and every character an ASCII letter or digit. */
  predicate IsAlnum(s: string)
  {
    |s| > 0 && forall i :: 0 <= i < |s| ==> IsAsciiAlnum(s[i])
  }

  predicate StartsWith(s: string, prefix: string)
  {
    |prefix| <= |s| && s[..|prefix|] == prefix
  }

  /** `needle in haystack` on two strings: a substring test. */
  predicate Contains(haystack: string, needle: string)
    decreases |haystack|
  {
    StartsWith(haystack, needle) || (|haystack| > 0 && Contains(haystack[1..], needle))
  }

  /** `Contains` holds exactly when the needle starts at some position. */
  lemma {:induction false} ContainsAt(haystack: string, needle: string)
    ensures Contains(haystack, needle) <==>
            exists i :: 0 <= i <= |haystack| && StartsWith(haystack[i..], needle)
    decreases |haystack|
  {
    if Contains(haystack, needle) {
      if StartsWith(haystack, needle) {
        assert haystack[0..] == haystack;
      } else {
        ContainsAt(haystack[1..], needle);
        var i :| 0 <= i <= |haystack| - 1 && StartsWith(haystack[1..][i..], needle);
        assert haystack[1..][i..] == haystack[i + 1..];
      }
    } else if |haystack| > 0 {
      ContainsAt(haystack[1..], needle);
      forall i | 0 <= i <= |haystack| ensures !StartsWith(haystack[i..], needle) {
        if i == 0 {
          assert haystack[0..] == haystack;
        } else {
          assert haystack[1..][i - 1..] == haystack[i..];
        }
      }
    } else {
      assert forall i :: 0 <= i <= |haystack| ==> haystack[i..] == haystack;
    }
  }

  /** `s.lstrip(c)`: drops every leading `c`. */
  function LStrip(s: string, c: char): (r: string)
    ensures |r| <= |s| && r == s[|s| - |r|..]
    ensures r == [] || r[0] != c
    ensures forall i :: 0 <= i < |s| - |r| ==> s[i] == c
  {
    if |s| > 0 && s[0] == c then LStrip(s[1..], c) else s
  }

  /** A suffix of a suffix is a suffix. */
  lemma SuffixOfSuffix(s: string, a: string, b: string)
    requires |a| <= |s| && a == s[|s| - |a|..]
    requires |b| <= |a| && b == a[|a| - |b|..]
    ensures b == s[|s| - |b|..]
  {
    assert s[|s| - |a|..][|a| - |b|..] == s[|s| - |b|..];
  }

  /** `s.rstrip(c)`: drops every trailing `c`. */
  function RStrip(s: string, c: char): (r: string)
    ensures |r| <= |s| && r == s[..|r|]
    ensures r == [] || r[|r| - 1] != c
    ensures forall i :: |r| <= i < |s| ==> s[i] == c
  {
    if |s| > 0 && s[|s| - 1] == c then RStrip(s[..|s| - 1], c) else s
  }

  /** The first position at or after `from` that holds `c`. */
  function IndexFrom(s: string, c: char, from: nat): (r: Option<nat>)
    ensures r.Some? ==> from <= r.value < |s| && s[r.value] == c
    ensures r.Some? ==> forall i :: from <= i < r.value ==> s[i] != c
    ensures r.None? ==> forall i :: from <= i < |s| ==> s[i] != c
    decreases |s| - from
  {
    if from >= |s| then None
    else if s[from] == c then Some(from)
    else IndexFrom(s, c, from + 1)
  }

  /** `re.sub('^.+?\.', '', s)`. The lazy `.+?` takes at least one character
      and no newline, so the match ends at the first '.' at position 1 or
      later, and there is no match when a newline comes before that dot. */
  function SubFirstLabel(s: string): (r: string)
    ensures r == s || (|r| < |s| && r == s[|s| - |r|..])
  {
    match IndexFrom(s, '.', 1)
    case None => s
    case Some(k) => if '\n' in s[..k] then s else s[k + 1..]
  }

  /** On a dotted name, the substitution removes the first label and its dot. */
  lemma SubFirstLabelDropsLabel(head: string, tail: string)
    requires head != [] && '.' !in head && '\n' !in head
    ensures SubFirstLabel(head + "." + tail) == tail
  {
    var s := head + "." + tail;
    assert s[|head|] == '.';
    var k := IndexFrom(s, '.', 1);
    assert k.Some? && k.value <= |head|;
    assert forall i :: 0 <= i < |head| ==> s[i] == head[i];
    assert k.value == |head|;
    assert s[..|head|] == head;
    assert s[|head| + 1..] == tail;
  }

  /** A dotted name with no leading dot and no newline loses its first label. */
  lemma SubFirstLabelShortens(s: string)
    requires '.' in s && s[0] != '.'
    requires forall i :: 0 <= i < |s| ==> s[i] != '\n'
    ensures |SubFirstLabel(s)| < |s|
  {
    var k :| 0 <= k < |s| && s[k] == '.';
    assert IndexFrom(s, '.', 1).Some?;
  }

  /** A name with no dot after its first character is left alone. */
  lemma SubFirstLabelKeepsUndotted(s: string)
    requires forall i :: 1 <= i < |s| ==> s[i] != '.'
    ensures SubFirstLabel(s) == s
  {
  }

  /** `str(n)` for a natural number. */
  function DecimalString(n: nat): (r: string)
    ensures |r| > 0 && forall i :: 0 <= i < |r| ==> '0' <= r[i] <= '9'
  {
    if n < 10 then [Digit(n)] else DecimalString(n / 10) + [Digit(n % 10)]
  }

  function Digit(d: nat): (c: char)
    requires d < 10
    ensures '0' <= c <= '9'
  {
    (48 + d) as char
  }

  /** Different numbers print differently. */
  lemma {:induction false} DecimalStringInjective(a: nat, b: nat)
    requires DecimalString(a) == DecimalString(b)
    ensures a == b
  {
    var sa, sb := DecimalString(a), DecimalString(b);
    if a < 10 && b < 10 {
      assert Digit(a) == sa[0] == sb[0] == Digit(b);
    } else if a >= 10 && b >= 10 {
      assert Digit(a % 10) == sa[|sa| - 1] == sb[|sb| - 1] == Digit(b % 10);
      assert DecimalString(a / 10) == sa[..|sa| - 1] == sb[..|sb| - 1] == DecimalString(b / 10);
      DecimalStringInjective(a / 10, b / 10);
    }
  }
}
