/** The few `System.String` operations the core relies on, over `seq<char>`. */
module Text {
  import opened Wrappers

  /** `string.IsNullOrEmpty`. */
  predicate IsNullOrEmpty(s: Option<string>) {
    s.None? || s.value == ""
  }

  /** The characters `char.IsWhiteSpace` accepts (Unicode classes Zs, Zl, Zp and the control whitespace). */
  predicate IsWhiteSpace(c: char) {
    c == ' ' || ('\t' <= c <= '\r') || c == '\U{0085}' || c == '\U{00A0}' || c == '\U{1680}'
    || ('\U{2000}' <= c <= '\U{200A}') || c == '\U{2028}' || c == '\U{2029}' || c == '\U{202F}'
    || c == '\U{205F}' || c == '\U{3000}'
  }

  /** `string.IsNullOrWhiteSpace`. */
  predicate IsNullOrWhiteSpace(s: Option<string>) {
    s.None? || forall i :: 0 <= i < |s.value| ==> IsWhiteSpace(s.value[i])
  }

  /** Upper-case mapping used by ordinal, case-insensitive comparison (ASCII letters only). */
  function AsciiUpper(c: char): (u: char)
    ensures 'a' <= c <= 'z' ==> u as int == c as int - 32
    ensures !('a' <= c <= 'z') ==> u == c
  {
    if 'a' <= c <= 'z' then (c as int - 32) as char else c
  }

  /** `s.StartsWith(prefix, StringComparison.OrdinalIgnoreCase)`. */
  predicate StartsWithIgnoreCase(s: string, prefix: string) {
    |prefix| <= |s| && forall i :: 0 <= i < |prefix| ==> AsciiUpper(s[i]) == AsciiUpper(prefix[i])
  }

  /** `s.Replace(from, to)` for one-character strings: every `from` becomes `to`. */
  function Replace(s: string, from: char, to: char): (r: string)
    ensures |r| == |s|
    ensures forall i :: 0 <= i < |s| ==> r[i] == (if s[i] == from then to else s[i])
  {
    seq(|s|, i requires 0 <= i < |s| => if s[i] == from then to else s[i])
  }

  /** `s.Replace(c, "")`: every occurrence of `c` removed, the rest kept in order. */
  function Remove(s: string, c: char): (r: string)
    ensures |r| <= |s|
    ensures forall x :: x in r <==> x in s && x != c
    ensures c !in s ==> r == s
  {
    if s == [] then [] else (if s[0] == c then [] else [s[0]]) + Remove(s[1..], c)
  }

  /** Removing a character from a concatenation removes it from each part, keeping the parts in order. */
  lemma {:induction false} RemoveSplit(s: string, t: string, c: char)
    ensures Remove(s + t, c) == Remove(s, c) + Remove(t, c)
  {
    if s != [] {
      assert (s + t)[1..] == s[1..] + t;
      RemoveSplit(s[1..], t, c);
    } else {
      assert s + t == t;
    }
  }

  /** Number of occurrences of `c` in `s`. */
  function Count(s: string, c: char): nat {
    if s == [] then 0 else (if s[0] == c then 1 else 0) + Count(s[1..], c)
  }

  lemma {:induction false} CountAbsent(s: string, c: char)
    requires c !in s
    ensures Count(s, c) == 0
  {
    if s != [] {
      assert forall x :: x in s[1..] ==> x in s;
      CountAbsent(s[1..], c);
    }
  }

  /** `prefix + s.Replace(c, "")` with a one-character prefix `c` holds exactly one `c`, at index 0. */
  lemma PrefixedRemoveHasSingleMark(s: string, c: char)
    ensures var r := [c] + Remove(s, c);
            r[0] == c && Count(r, c) == 1 && forall i :: 0 < i < |r| ==> r[i] != c
  {
    var r := [c] + Remove(s, c);
    assert r[1..] == Remove(s, c);
    CountAbsent(Remove(s, c), c);
    forall i | 0 < i < |r| ensures r[i] != c {
      assert r[i] == Remove(s, c)[i - 1];
      assert r[i] in Remove(s, c);
    }
  }
}
