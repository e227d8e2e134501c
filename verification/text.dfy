/**
 * String predicates that stand in for the regular expressions and path
 * conditions of the configuration: prefix, suffix and substring tests, and
 * the ASCII case folding that a regular expression's `i` flag performs.
 */
module Text {

  /** `s` begins with `t` (a webpack string condition: "the path starts with"). */
  predicate StartsWith(s: string, t: string) {
    |t| <= |s| && s[..|t|] == t
  }

  /** `s` ends with `t` (a regular expression of the form `\.ext$`). */
  predicate EndsWith(s: string, t: string) {
    |t| <= |s| && s[|s| - |t|..] == t
  }

  /** `t` occurs somewhere in `s` (an unanchored regular expression without alternatives). */
  predicate Contains(s: string, t: string)
    decreases |s|
  {
    StartsWith(s, t) || (|s| > 0 && Contains(s[1..], t))
  }

  /** Case folding of a regular expression with the `i` flag; only ASCII letters fold to ASCII. */
  function LowerChar(c: char): char {
    if 'A' <= c <= 'Z' then (c as int + 32) as char else c
  }

  function Lower(s: string): string {
    seq(|s|, i requires 0 <= i < |s| => LowerChar(s[i]))
  }

  /** A JavaScript `.` does not match a line terminator. */
  predicate IsLineTerminator(c: char) {
    c == '\n' || c == '\r' || c == '\U{2028}' || c == '\U{2029}'
  }

  /** An occurrence in the tail of a string is an occurrence in the whole string. */
  lemma {:induction false} ContainsInSuffix(a: string, b: string, t: string)
    requires Contains(b, t)
    ensures Contains(a + b, t)
  {
    if |a| > 0 {
      assert (a + b)[1..] == a[1..] + b;
      ContainsInSuffix(a[1..], b, t);
    } else {
      assert a + b == b;
    }
  }

  /** `pre + t + post` contains `t`. */
  lemma ContainsBetween(pre: string, t: string, post: string)
    ensures Contains(pre + t + post, t)
  {
    assert StartsWith(t + post, t);
    assert pre + t + post == pre + (t + post);
    ContainsInSuffix(pre, t + post, t);
  }

  /** Whatever contains `t + u` contains `t`. */
  lemma {:induction false} ContainsShorter(s: string, t: string, u: string)
    requires Contains(s, t + u)
    ensures Contains(s, t)
  {
    if StartsWith(s, t + u) {
      assert s[..|t|] == (t + u)[..|t|] == t;
    } else {
      ContainsShorter(s[1..], t, u);
    }
  }

  /** A string in which the first character of `t` never occurs does not contain `t`. */
  lemma {:induction false} MissingHeadNotContained(s: string, t: string)
    requires |t| > 0 && t[0] !in s
    ensures !Contains(s, t)
  {
    if |s| > 0 {
      assert forall c :: c in s[1..] ==> c in s;
      MissingHeadNotContained(s[1..], t);
    }
  }

  /** `t` occurs in `s` starting at index `i`. */
  predicate OccursAt(s: string, t: string, i: int) {
    0 <= i <= |s| - |t| && s[i..i + |t|] == t
  }

  /** `Contains` means an occurrence of `t` at some index of `s`. */
  lemma {:induction false} ContainsIffOccurrence(s: string, t: string)
    ensures Contains(s, t) <==> exists i :: OccursAt(s, t, i)
  {
    if StartsWith(s, t) {
      assert OccursAt(s, t, 0);
    } else if |s| > 0 {
      ContainsIffOccurrence(s[1..], t);
      if exists i :: OccursAt(s, t, i) {
        var i :| OccursAt(s, t, i);
        assert i != 0;
        assert OccursAt(s[1..], t, i - 1);
      }
      if Contains(s[1..], t) {
        var i :| OccursAt(s[1..], t, i);
        assert OccursAt(s, t, i + 1);
      }
    } else {
      assert forall i :: OccursAt(s, t, i) ==> i == 0 && |t| == 0;
    }
  }

  /** A name followed by an extension ends with that extension. */
  lemma EndsWithAppended(name: string, ext: string)
    ensures EndsWith(name + ext, ext)
  {
    assert (name + ext)[|name|..] == ext;
  }

  lemma LowerAppend(a: string, b: string)
    ensures Lower(a + b) == Lower(a) + Lower(b)
  {
  }

  /** Case folding turns no other character into a dot or a line terminator. */
  lemma LowerKeepsPunctuation(s: string)
    ensures ('.' in Lower(s)) <==> ('.' in s)
    ensures forall i :: 0 <= i < |s| ==> (IsLineTerminator(Lower(s)[i]) <==> IsLineTerminator(s[i]))
    ensures |s| > 0 && s[0] == '?' ==> Lower(s)[0] == '?'
  {
    if '.' in s {
      var i :| 0 <= i < |s| && s[i] == '.';
      assert Lower(s)[i] == '.';
    }
    if '.' in Lower(s) {
      var i :| 0 <= i < |s| && Lower(s)[i] == '.';
      assert s[i] == '.';
    }
  }
}
