/**
 * The few JavaScript string operations the core relies on, over `seq<char>`:
 * `startsWith`, `split(sep)[i]`, `split(".").pop()` and `toLowerCase`.
 */
module JsStrings {

  import opened Wrappers

  /** `s.startsWith(p)`. */
  predicate StartsWith(s: string, p: string)
    ensures StartsWith(s, p) <==> |p| <= |s| && forall i :: 0 <= i < |p| ==> s[i] == p[i]
  {
    |p| <= |s| && s[..|p|] == p
  }

  /** `s.endsWith(p)`. */
  predicate EndsWith(s: string, p: string) {
    |p| <= |s| && s[|s| - |p|..] == p
  }

  /** `sep` occurs in `s` starting at index `i`. */
  predicate OccursAt(s: string, sep: string, i: nat) {
    i + |sep| <= |s| && s[i..i + |sep|] == sep
  }

  /**
   * The first index at or after `from` where `sep` occurs in `s`, as the
   * left-to-right scan of `String.prototype.split` finds it.
   */
  function IndexOf(s: string, sep: string, from: nat): (r: Option<nat>)
    requires |sep| > 0
    decreases |s| - from
    ensures r.Some? ==> from <= r.value && OccursAt(s, sep, r.value)
    ensures forall j: nat :: from <= j && (r.None? || j < r.value) ==> !OccursAt(s, sep, j)
  {
    if from + |sep| > |s| then None
    else if OccursAt(s, sep, from) then Some(from)
    else IndexOf(s, sep, from + 1)
  }

  /**
   * `s.split(sep)[0]`: the text before the first occurrence of `sep`, or all
   * of `s` when `sep` does not occur.
   */
  function SplitHead(s: string, sep: string): (r: string)
    requires |sep| > 0
    ensures StartsWith(s, r)
    ensures |r| == |s| || OccursAt(s, sep, |r|)
    ensures forall j: nat :: j < |r| ==> !OccursAt(s, sep, j)
  {
    match IndexOf(s, sep, 0)
    case Some(i) => s[..i]
    case None => s
  }

  /**
   * `s.split(c).pop()`: the text after the last occurrence of `c`, or all of
   * `s` when `c` does not occur.
   */
  function AfterLast(s: string, c: char): (r: string)
    ensures EndsWith(s, r)
    ensures c !in r
    ensures |r| == |s| || s[|s| - |r| - 1] == c
  {
    if |s| == 0 then ""
    else if s[|s| - 1] == c then ""
    else AfterLast(s[..|s| - 1], c) + [s[|s| - 1]]
  }

  /**
   * The three facts `AfterLast` ensures pin its result down: any suffix of
   * `s` free of `c` and preceded by `c` (or by nothing) is that result.
   */
  lemma AfterLastUnique(s: string, c: char, e: string)
    requires EndsWith(s, e) && c !in e
    requires |e| == |s| || s[|s| - |e| - 1] == c
    ensures e == AfterLast(s, c)
  {
  }

  /** A one-character separator occurs exactly where that character is. */
  lemma OccursAtChar(s: string, c: char, i: nat)
    ensures OccursAt(s, [c], i) <==> i < |s| && s[i] == c
  {
    if i < |s| {
      assert s[i..i + 1] == [s[i]];
    }
  }

  /** `toLowerCase` on one character; only the ASCII letters are mapped. */
  function LowerChar(ch: char): char {
    if 'A' <= ch <= 'Z' then (ch as int + 32) as char else ch
  }

  /** `s.toLowerCase()`, restricted to ASCII letters. */
  function ToLower(s: string): (r: string)
    ensures |r| == |s|
  {
    seq(|s|, i requires 0 <= i < |s| => LowerChar(s[i]))
  }

  /**
   * Each upper-case ASCII letter becomes its lower-case letter, every other
   * character is kept, and no upper-case ASCII letter remains.
   */
  lemma ToLowerChars(s: string)
    ensures forall i :: 0 <= i < |s| && 'A' <= s[i] <= 'Z' ==> ToLower(s)[i] as int == s[i] as int + 32
    ensures forall i :: 0 <= i < |s| && !('A' <= s[i] <= 'Z') ==> ToLower(s)[i] == s[i]
    ensures forall i :: 0 <= i < |s| ==> !('A' <= ToLower(s)[i] <= 'Z')
  {
  }

  /** Lower-casing twice is lower-casing once. */
  lemma ToLowerIdempotent(s: string)
    ensures ToLower(ToLower(s)) == ToLower(s)
  {
  }

  /** Lower-casing commutes with taking the text after the last `.`, since `.` is not a letter. */
  lemma {:induction false} AfterLastToLower(s: string)
    ensures AfterLast(ToLower(s), '.') == ToLower(AfterLast(s, '.'))
  {
    if |s| > 0 {
      var init := s[..|s| - 1];
      assert ToLower(s)[..|s| - 1] == ToLower(init);
      AfterLastToLower(init);
      if s[|s| - 1] != '.' {
        assert ToLower(AfterLast(init, '.') + [s[|s| - 1]])
            == ToLower(AfterLast(init, '.')) + [LowerChar(s[|s| - 1])];
      }
    }
  }
}
