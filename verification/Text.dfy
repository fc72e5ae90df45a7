/** ASCII case folding and substring search, as the engines use them on metadata. */
module Text {

  function LowerChar(c: char): char {
    if 'A' <= c <= 'Z' then ((c as int) + 32) as char else c
  }

  function Lower(s: string): (r: string)
    ensures |r| == |s|
  {
    seq(|s|, i requires 0 <= i < |s| => LowerChar(s[i]))
  }

  function UpperChar(c: char): char {
    if 'a' <= c <= 'z' then ((c as int) - 32) as char else c
  }

  function Upper(s: string): (r: string)
    ensures |r| == |s|
  {
    seq(|s|, i requires 0 <= i < |s| => UpperChar(s[i]))
  }

  predicate Contains(s: string, needle: string) {
    needle <= s || (s != [] && Contains(s[1..], needle))
  }

  // ----- searching -----

  predicate SliceAt(s: string, needle: string, i: int) {
    0 <= i <= |s| - |needle| && s[i..i + |needle|] == needle
  }

  lemma SliceOfTail(s: string, needle: string, i: int)
    requires s != [] && i > 0
    ensures SliceAt(s, needle, i) <==> SliceAt(s[1..], needle, i - 1)
  {
    if i <= |s| - |needle| {
      assert s[1..][i - 1..i - 1 + |needle|] == s[i..i + |needle|];
    }
  }

  lemma {:induction false} ContainedHasSlice(s: string, needle: string) returns (i: int)
    requires Contains(s, needle)
    ensures SliceAt(s, needle, i)
  {
    if needle <= s {
      i := 0;
    } else {
      i := ContainedHasSlice(s[1..], needle);
      SliceOfTail(s, needle, i + 1);
      i := i + 1;
    }
  }

  lemma {:induction false} SliceIsContained(s: string, needle: string, i: int)
    requires SliceAt(s, needle, i)
    ensures Contains(s, needle)
  {
    if i > 0 {
      SliceOfTail(s, needle, i);
      SliceIsContained(s[1..], needle, i - 1);
    }
  }

  lemma ContainsIsSlice(s: string, needle: string)
    ensures Contains(s, needle) <==> exists i :: SliceAt(s, needle, i)
  {
    if Contains(s, needle) {
      var i := ContainedHasSlice(s, needle);
    }
    if i :| SliceAt(s, needle, i) {
      SliceIsContained(s, needle, i);
    }
  }

  // ----- case -----

  const CAPITALS := "ABCDEFGHIJKLMNOPQRSTUVWXYZ"
  const SMALLS := "abcdefghijklmnopqrstuvwxyz"

  predicate LetterPair(capital: char, small: char, i: int) {
    0 <= i < 26 && CAPITALS[i] == capital && SMALLS[i] == small
  }

  /** The same character, or the capital and the small form of one letter. */
  ghost predicate SameLetter(c: char, d: char) {
    c == d || exists i :: LetterPair(c, d, i) || LetterPair(d, c, i)
  }

  ghost predicate SameLetters(s: string, t: string) {
    |s| == |t| && forall i :: 0 <= i < |s| ==> SameLetter(s[i], t[i])
  }

  lemma LetterCodes(i: int)
    requires 0 <= i < 26
    ensures CAPITALS[i] as int == 'A' as int + i && SMALLS[i] as int == 'a' as int + i
  {
    var first := "ABCDEFGHIJKLM";
    assert i < 13 ==> CAPITALS[i] == first[i];
  }

  lemma PairCodes(capital: char, small: char)
    ensures (exists i :: LetterPair(capital, small, i)) <==>
            'A' <= capital <= 'Z' && small as int == capital as int + 32
  {
    if i :| LetterPair(capital, small, i) {
      LetterCodes(i);
    }
    if 'A' <= capital <= 'Z' && small as int == capital as int + 32 {
      LetterCodes(capital as int - 'A' as int);
      assert LetterPair(capital, small, capital as int - 'A' as int);
    }
  }

  lemma LowerIgnoresCase(c: char, d: char)
    ensures LowerChar(c) == LowerChar(d) <==> SameLetter(c, d)
    ensures UpperChar(c) == UpperChar(d) <==> SameLetter(c, d)
  {
    PairCodes(c, d);
    PairCodes(d, c);
  }

  /** Folded texts are equal exactly when they differ in the case of letters only. */
  lemma FoldingIgnoresCase(s: string, t: string)
    ensures Lower(s) == Lower(t) <==> SameLetters(s, t)
    ensures Upper(s) == Upper(t) <==> SameLetters(s, t)
  {
    forall i | 0 <= i < |s| && i < |t|
      ensures LowerChar(s[i]) == LowerChar(t[i]) <==> SameLetter(s[i], t[i])
      ensures UpperChar(s[i]) == UpperChar(t[i]) <==> SameLetter(s[i], t[i])
    {
      LowerIgnoresCase(s[i], t[i]);
    }
    if Lower(s) == Lower(t) {
      forall i | 0 <= i < |s| ensures SameLetter(s[i], t[i]) {
        assert Lower(s)[i] == Lower(t)[i];
      }
    }
    if Upper(s) == Upper(t) {
      forall i | 0 <= i < |s| ensures SameLetter(s[i], t[i]) {
        assert Upper(s)[i] == Upper(t)[i];
      }
    }
  }
}
