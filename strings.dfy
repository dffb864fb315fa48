/** The two string operations the column detection of app.py relies on:
    Python's `str.lower()` and the substring test `keyword in text`. */
module Strings {

  /** Lower-cases one character (ASCII letters only; see README). */
  function ToLower(c: char): char
  {
    if 'A' <= c <= 'Z' then (c as int + 32) as char else c
  }

  /** `s.lower()` */
  function LowerCase(s: string): string
  {
    seq(|s|, i requires 0 <= i < |s| => ToLower(s[i]))
  }

  /** `w in s`: some window of `s` spells `w` (the empty word occurs everywhere). */
  predicate Contains(s: string, w: string)
    decreases |s|
  {
    |w| <= |s| && (s[..|w|] == w || Contains(s[1..], w))
  }

  /** `w` is the window of `s` that starts at position `i`. */
  predicate OccursAt(s: string, w: string, i: nat)
  {
    i + |w| <= |s| && s[i..i + |w|] == w
  }

  /** The recursive test agrees with the positional reading of Python's `in`. */
  lemma {:induction false} ContainsIff(s: string, w: string)
    ensures Contains(s, w) <==> exists i: nat :: OccursAt(s, w, i)
  {
    if |w| > |s| {
      forall i: nat ensures !OccursAt(s, w, i) { }
    } else if s[..|w|] == w {
      assert OccursAt(s, w, 0);
    } else {
      ContainsIff(s[1..], w);
      if Contains(s[1..], w) {
        var i: nat :| OccursAt(s[1..], w, i);
        assert s[i + 1..i + 1 + |w|] == s[1..][i..i + |w|];
        assert OccursAt(s, w, i + 1);
      } else {
        forall i: nat | OccursAt(s, w, i) ensures false {
          assert i != 0;
          assert s[1..][i - 1..i - 1 + |w|] == s[i..i + |w|];
          assert OccursAt(s[1..], w, i - 1);
        }
      }
    }
  }

  /** A word whose first letter the text lacks does not occur in it. */
  lemma {:induction false} MissingLetter(s: string, w: string)
    requires w != [] && forall k :: 0 <= k < |s| ==> s[k] != w[0]
    ensures !Contains(s, w)
  {
    if |w| <= |s| {
      assert s[..|w|][0] != w[0];
      MissingLetter(s[1..], w);
    }
  }

  /** Lower-casing commutes with slicing: a window of `s.lower()` is the
      lower-cased window of `s`. */
  lemma LowerCaseSlice(s: string, i: nat, j: nat)
    requires i <= j <= |s|
    ensures LowerCase(s)[i..j] == LowerCase(s[i..j])
  {
  }
}
