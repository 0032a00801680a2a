/** Letters and their cases. */
module Letters {
  const UPPER_CASE := "ABCDEFGHIJKLMNOPQRSTUVWXYZ"
  const LOWER_CASE := "abcdefghijklmnopqrstuvwxyz"

  /** The two cases of one letter. */
  predicate AreCases(lower: char, upper: char) {
    exists i :: 0 <= i < 26 && LOWER_CASE[i] == lower && UPPER_CASE[i] == upper
  }

  lemma LetterAt(i: nat)
    requires i < 26
    ensures UPPER_CASE[i] == (65 + i) as char && LOWER_CASE[i] == (97 + i) as char
  {
  }

  lemma CasesIff(lower: char, upper: char)
    ensures AreCases(lower, upper) <==> 'a' <= lower <= 'z' && lower as int == upper as int + 32
  {
    if 'a' <= lower <= 'z' {
      LetterAt(lower as int - 97);
    }
    if i :| 0 <= i < 26 && LOWER_CASE[i] == lower && UPPER_CASE[i] == upper {
      LetterAt(i);
    }
  }
}
