/**
 * The three operations on Rust `str` values that the provisioning logic relies on:
 * substring search (`contains`), splitting into lines (`lines`) and stripping
 * white space from both ends (`trim`). Strings are sequences of Unicode scalar values.
 */
module Text {

  /**
   * `str::contains`: `pat` occurs in `s`, trying each start position in turn. The
   * empty pattern occurs in every string, and no string contains a longer one.
   */
  function Contains(s: string, pat: string): (r: bool)
    ensures pat == [] ==> r
    ensures r ==> |pat| <= |s|
    decreases |s|
  {
    pat <= s || (s != [] && Contains(s[1..], pat))
  }

  /** `Contains` holds exactly when `pat` starts at some position of `s`; the empty pattern occurs everywhere. */
  lemma {:induction false} ContainsIff(s: string, pat: string)
    ensures Contains(s, pat) <==> exists i | 0 <= i <= |s| :: pat <= s[i..]
    decreases |s|
  {
    if pat <= s {
      assert s[0..] == s;
    } else if s != [] {
      ContainsIff(s[1..], pat);
      if exists i | 0 <= i <= |s| :: pat <= s[i..] {
        var i :| 0 <= i <= |s| && pat <= s[i..];
        assert i != 0;
        assert s[1..][i - 1..] == s[i..];
      }
      if Contains(s[1..], pat) {
        var i :| 0 <= i <= |s| - 1 && pat <= s[1..][i..];
        assert s[1..][i..] == s[i + 1..];
      }
    }
  }

  /** A pattern whose first character does not occur in `s` is not contained in `s`. */
  lemma {:induction false} FirstCharAbsent(s: string, pat: string)
    requires pat != [] && pat[0] !in s
    ensures !Contains(s, pat)
    decreases |s|
  {
    if s != [] {
      FirstCharAbsent(s[1..], pat);
    }
  }

  /** A pattern found at position `i` of `s` is contained in `s`. */
  lemma {:induction false} ContainsAt(s: string, pat: string, i: nat)
    requires i <= |s| && pat <= s[i..]
    ensures Contains(s, pat)
  {
    ContainsIff(s, pat);
  }

  /** Characters with the Unicode White_Space property, which is what `char::is_whitespace` tests. */
  predicate IsWhitespace(c: char) {
    ('\t' <= c <= '\r') || c == ' ' || c == '\U{85}' || c == '\U{A0}' || c == '\U{1680}'
    || ('\U{2000}' <= c <= '\U{200A}') || c == '\U{2028}' || c == '\U{2029}'
    || c == '\U{202F}' || c == '\U{205F}' || c == '\U{3000}'
  }

  predicate AllWhitespace(s: string) {
    forall k | 0 <= k < |s| :: IsWhitespace(s[k])
  }

  /** The number of white-space characters at the start of `s`. */
  function LeadingSpace(s: string): (n: nat)
    ensures n <= |s| && AllWhitespace(s[..n])
    ensures n < |s| ==> !IsWhitespace(s[n])
  {
    if s == [] || !IsWhitespace(s[0]) then 0
    else
      var n := 1 + LeadingSpace(s[1..]);
      assert s[..n] == [s[0]] + s[1..][..n - 1];
      n
  }

  /** The number of white-space characters at the end of `s`. */
  function TrailingSpace(s: string): (n: nat)
    ensures n <= |s| && AllWhitespace(s[|s| - n..])
    ensures n < |s| ==> !IsWhitespace(s[|s| - n - 1])
  {
    if s == [] || !IsWhitespace(s[|s| - 1]) then 0
    else
      var init := s[..|s| - 1];
      var m := TrailingSpace(init);
      assert s[|s| - m - 1..] == init[|init| - m..] + [s[|s| - 1]];
      m + 1
  }

  /**
   * `str::trim`: `s` with its leading and trailing white space removed. The result is
   * the slice of `s` after the leading white space, and it neither starts nor ends
   * with white space.
   */
  function Trim(s: string): (r: string)
    ensures LeadingSpace(s) + |r| <= |s| && r == s[LeadingSpace(s)..LeadingSpace(s) + |r|]
    ensures r != [] ==> !IsWhitespace(r[0]) && !IsWhitespace(r[|r| - 1])
  {
    var t := s[LeadingSpace(s)..];
    t[..|t| - TrailingSpace(t)]
  }

  /** What `Trim` removes: everything cut off at either end of `s` is white space. */
  lemma {:induction false} TrimSpec(s: string)
    ensures AllWhitespace(s[..LeadingSpace(s)]) && AllWhitespace(s[LeadingSpace(s) + |Trim(s)|..])
  {
  }

  /** Trimming a string that neither starts nor ends with white space leaves it unchanged. */
  lemma {:induction false} TrimKeepsTrimmed(s: string)
    requires s != [] ==> !IsWhitespace(s[0]) && !IsWhitespace(s[|s| - 1])
    ensures Trim(s) == s
  {
  }

  /** `str::trim` is idempotent. */
  lemma {:induction false} TrimIdempotent(s: string)
    ensures Trim(Trim(s)) == Trim(s)
  {
  }

  /** The first index of `c` in `s`, or `|s|` when `c` does not occur. */
  function IndexOf(s: string, c: char): (i: nat)
    ensures i <= |s| && c !in s[..i]
    ensures i < |s| ==> s[i] == c
  {
    if s == [] then 0
    else if s[0] == c then 0
    else
      var i := 1 + IndexOf(s[1..], c);
      assert s[..i] == [s[0]] + s[1..][..i - 1];
      i
  }

  /** `line` without one trailing carriage return. */
  function StripCr(line: string): (r: string)
    ensures r == line || line == r + ['\r']
  {
    if line != [] && line[|line| - 1] == '\r' then line[..|line| - 1] else line
  }

  /**
   * `str::lines` as the Rust standard library of the pinned 2019 toolchain defines it:
   * the pieces of `s` between line feeds, each without one trailing carriage return,
   * the last piece included even when no line feed ends it (later releases keep a
   * carriage return that no line feed follows). A final line feed does not start an
   * extra empty line, the empty string has no lines, and a non-empty string without
   * a line feed is a single line.
   */
  function Lines(s: string): (r: seq<string>)
    ensures forall k | 0 <= k < |r| :: '\n' !in r[k]
    ensures s == [] <==> r == []
    ensures s != [] && '\n' !in s ==> r == [StripCr(s)]
    decreases |s|
  {
    if s == [] then []
    else
      var n := IndexOf(s, '\n');
      if n == |s| then [StripCr(s)]
      else [StripCr(s[..n])] + Lines(s[n + 1..])
  }

  /** Listing `s` followed by a line feed and `t` gives the lines of `s` then those of `t`. */
  lemma {:induction false} LinesAppend(s: string, t: string)
    requires '\n' !in s
    ensures Lines(s + "\n" + t) == [StripCr(s)] + Lines(t)
  {
    var u := s + "\n" + t;
    var n := IndexOf(u, '\n');
    assert u[..|s|] == s && u[|s|] == '\n';
    assert n == |s|;
    assert u[|s| + 1..] == t;
  }
}
