/** `strings.Contains` from the Go standard library: exact, case-sensitive substring search. */
module GoStrings {

  predicate HasPrefix(s: string, prefix: string) {
    |prefix| <= |s| && s[..|prefix|] == prefix
  }

  /** Reports whether `substr` is within `s`. */
  predicate Contains(s: string, substr: string)
    decreases |s|
  {
    HasPrefix(s, substr) || (|s| > 0 && Contains(s[1..], substr))
  }

  /** `substr` occurs in `s` starting at index `i`. */
  ghost predicate OccursAt(s: string, substr: string, i: int) {
    0 <= i && i + |substr| <= |s| && s[i..i + |substr|] == substr
  }

  /** `Contains` finds exactly the substrings that occur at some position, so the empty
      keyword is contained in every text. */
  lemma {:induction false} ContainsIffOccurs(s: string, substr: string)
    ensures Contains(s, substr) <==> exists i :: OccursAt(s, substr, i)
    decreases |s|
  {
    if HasPrefix(s, substr) {
      assert OccursAt(s, substr, 0);
    } else if |s| > 0 {
      ContainsIffOccurs(s[1..], substr);
      if Contains(s[1..], substr) {
        var i :| OccursAt(s[1..], substr, i);
        assert s[1..][i..i + |substr|] == s[i + 1..i + 1 + |substr|];
        assert OccursAt(s, substr, i + 1);
      } else {
        forall i | 0 < i && i + |substr| <= |s|
          ensures OccursAt(s, substr, i) <==> OccursAt(s[1..], substr, i - 1)
        {
          assert s[1..][i - 1..i - 1 + |substr|] == s[i..i + |substr|];
        }
      }
    } else {
      assert |substr| > 0;
    }
  }
}
