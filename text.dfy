/** The few Python string operations the two services use: `rstrip` of one
    character, ASCII `lower`, `startswith` and the `in` substring test. */
module Text {

  /** `n` copies of the character `c`. */
  function Repeat(c: char, n: nat): (r: string)
    ensures |r| == n && forall i :: 0 <= i < n ==> r[i] == c
  {
    seq(n, _ => c)
  }

  /** Python's `s.rstrip(c)` for a one-character argument: every trailing `c`
      is removed. The contract characterises the result completely: a prefix
      of `s`, followed in `s` only by copies of `c`, and not itself ending in `c`. */
  function RStrip(s: string, c: char): (r: string)
    ensures |r| <= |s| && r == s[..|r|]
    ensures forall i :: |r| <= i < |s| ==> s[i] == c
    ensures r == [] || r[|r| - 1] != c
    decreases |s|
  {
    if |s| > 0 && s[|s| - 1] == c then RStrip(s[..|s| - 1], c) else s
  }

  /** Appending copies of the stripped character does not change what `rstrip` gives. */
  lemma {:induction false} RStripAbsorbs(s: string, c: char, n: nat)
    ensures RStrip(s + Repeat(c, n), c) == RStrip(s, c)
    decreases n
  {
    if n > 0 {
      var t := s + Repeat(c, n);
      assert t[|t| - 1] == c;
      assert t[..|t| - 1] == s + Repeat(c, n - 1);
      RStripAbsorbs(s, c, n - 1);
    } else {
      assert s + Repeat(c, 0) == s;
    }
  }

  /** Python's `str.lower()` on one character, restricted to ASCII letters. */
  function LowerChar(ch: char): char
  {
    if 'A' <= ch <= 'Z' then (ch as int + 32) as char else ch
  }

  /** Python's `str.lower()`, ASCII letters only. */
  function Lower(s: string): string
  {
    seq(|s|, i requires 0 <= i < |s| => LowerChar(s[i]))
  }

  /** Python's `s.startswith(prefix)`. */
  predicate StartsWith(s: string, prefix: string)
  {
    |prefix| <= |s| && s[..|prefix|] == prefix
  }

  /** `sub` occurs in `s` starting at index `i`. */
  predicate OccursAt(s: string, sub: string, i: nat)
  {
    i + |sub| <= |s| && s[i..i + |sub|] == sub
  }

  /** Python's `sub in s`. */
  predicate Contains(s: string, sub: string)
  {
    exists i: nat :: i <= |s| && OccursAt(s, sub, i)
  }

  /** `x` is the character `y` or, when `y` is a lower-case ASCII letter, its
      upper-case form: case-insensitive equality against a lower-case pattern,
      stated without `lower`. */
  predicate SameIgnoringCase(x: char, y: char)
  {
    x == y || ('a' <= y <= 'z' && x as int == y as int - 32)
  }

  /** `a` spells the lower-case word `word`, with any mix of letter cases. */
  predicate MatchesIgnoringCase(a: string, word: string)
  {
    |a| == |word| && forall i :: 0 <= i < |a| ==> SameIgnoringCase(a[i], word[i])
  }

  /** `s` holds `word`, in some mix of cases, starting at index `i`. */
  predicate MatchesAt(s: string, word: string, i: nat)
  {
    i + |word| <= |s| && MatchesIgnoringCase(s[i..i + |word|], word)
  }

  /** Every character of `word` is already lower case (so `lower` leaves it alone). */
  predicate IsLowerWord(word: string)
  {
    forall i :: 0 <= i < |word| ==> !('A' <= word[i] <= 'Z')
  }

  /** Lower-casing and then comparing with a lower-case word is the same as
      matching that word in any mix of cases. */
  lemma LowerEqualsIff(a: string, word: string)
    requires IsLowerWord(word)
    ensures Lower(a) == word <==> MatchesIgnoringCase(a, word)
  {
    if MatchesIgnoringCase(a, word) {
      forall i | 0 <= i < |a| ensures Lower(a)[i] == word[i] {
        assert SameIgnoringCase(a[i], word[i]);
      }
    }
    if Lower(a) == word {
      forall i | 0 <= i < |a| ensures SameIgnoringCase(a[i], word[i]) {
        assert LowerChar(a[i]) == word[i];
      }
    }
  }

  /** Lower-casing commutes with taking a slice. */
  lemma LowerSlice(s: string, i: nat, j: nat)
    requires i <= j <= |s|
    ensures Lower(s)[i..j] == Lower(s[i..j])
  {
  }

  /** `word in s.lower()` holds exactly when `s` contains `word` in some mix of cases. */
  lemma ContainsLowerIff(s: string, word: string)
    requires IsLowerWord(word)
    ensures Contains(Lower(s), word) <==> exists i: nat :: MatchesAt(s, word, i)
  {
    var k := |word|;
    if Contains(Lower(s), word) {
      var i: nat :| i <= |s| && OccursAt(Lower(s), word, i);
      LowerSlice(s, i, i + k);
      LowerEqualsIff(s[i..i + k], word);
      assert MatchesAt(s, word, i);
    }
    if exists i: nat :: MatchesAt(s, word, i) {
      var i: nat :| MatchesAt(s, word, i);
      LowerSlice(s, i, i + k);
      LowerEqualsIff(s[i..i + k], word);
      assert OccursAt(Lower(s), word, i);
    }
  }
}
