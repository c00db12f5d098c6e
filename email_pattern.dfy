/** The email check of the lead form: the regular expression `^\S+@\S+\.\S+$`,
    applied to the email exactly as typed. */
module EmailPattern {
  import opened Text

  /** `\S+`: one or more characters, none of them white space. */
  predicate NonSpaceRun(s: string)
  {
    |s| > 0 && NoSpace(s)
  }

  /** The language of `^\S+@\S+\.\S+$`, read off the expression piece by piece:
      `s` splits at an `@` (index `i`) and a later `.` (index `j`) into three
      non-empty runs of non-white-space characters. Since `\S` also matches
      `@` and `.`, the runs may contain further `@` and `.` characters. */
  predicate MatchesRegex(s: string)
  {
    exists i, j | 0 <= i < j < |s| ::
      s[i] == '@' && s[j] == '.' &&
      NonSpaceRun(s[..i]) && NonSpaceRun(s[i + 1..j]) && NonSpaceRun(s[j + 1..])
  }

  /** The same language stated on the whole string: no white space at all, an
      `@` that is not the first character, and a `.` after it with at least one
      character between the two and at least one character after the `.`. */
  predicate EmailShape(s: string)
  {
    NoSpace(s) &&
    exists i, j | 0 <= i < j < |s| :: 1 <= i && i + 1 < j < |s| - 1 && s[i] == '@' && s[j] == '.'
  }

  /** Splitting `s` at `i` and `j` puts every character of `s` into one of the
      five pieces, so `s` is free of white space exactly when the three runs are. */
  lemma NoSpaceSplit(s: string, i: int, j: int)
    requires 0 <= i < j < |s|
    requires s[i] == '@' && s[j] == '.'
    ensures NoSpace(s) <==> NoSpace(s[..i]) && NoSpace(s[i + 1..j]) && NoSpace(s[j + 1..])
  {
    if NoSpace(s[..i]) && NoSpace(s[i + 1..j]) && NoSpace(s[j + 1..]) {
      forall k | 0 <= k < |s| ensures !IsSpace(s[k]) {
        if k < i {
          assert s[k] == s[..i][k];
        } else if i < k < j {
          assert s[k] == s[i + 1..j][k - i - 1];
        } else if j < k {
          assert s[k] == s[j + 1..][k - j - 1];
        }
      }
    }
  }

  /** The flat description and the piece-by-piece reading of the regular
      expression accept exactly the same strings. */
  lemma EmailShapeIffRegex(s: string)
    ensures EmailShape(s) <==> MatchesRegex(s)
  {
    if EmailShape(s) {
      var i, j :| 0 <= i < j < |s| && 1 <= i && i + 1 < j < |s| - 1 && s[i] == '@' && s[j] == '.';
      NoSpaceSplit(s, i, j);
      assert NonSpaceRun(s[..i]) && NonSpaceRun(s[i + 1..j]) && NonSpaceRun(s[j + 1..]);
    }
    if MatchesRegex(s) {
      var i, j :| 0 <= i < j < |s| && s[i] == '@' && s[j] == '.' &&
        NonSpaceRun(s[..i]) && NonSpaceRun(s[i + 1..j]) && NonSpaceRun(s[j + 1..]);
      NoSpaceSplit(s, i, j);
      assert 1 <= i && i + 1 < j < |s| - 1;
    }
  }

  /** A matching email contains no white space, so trimming it changes nothing:
      the email in the payload is the email that was validated. */
  lemma MatchingEmailIsTrimmed(s: string)
    requires EmailShape(s)
    ensures Trim(s) == s
  {
    TrimNoSpace(s);
  }

  /** A matching email has at least five characters: one before the `@`, the
      `@`, one between, the `.`, and one after. */
  lemma MatchingEmailLength(s: string)
    requires MatchesRegex(s)
    ensures |s| >= 5 && '@' in s && '.' in s
  {
    var i, j :| 0 <= i < j < |s| && s[i] == '@' && s[j] == '.' &&
      NonSpaceRun(s[..i]) && NonSpaceRun(s[i + 1..j]) && NonSpaceRun(s[j + 1..]);
    assert |s[j + 1..]| > 0;
  }
}
