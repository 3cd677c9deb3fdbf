/** The music test of utils.py: re.search(r"\bmusic\b", text, re.IGNORECASE).
    A match is the five letters of "music" under the letter folds Python's
    regular expressions apply, with a word boundary on both sides. Word
    characters are the ASCII letters, digits and the underscore. */
module Matcher {
  import opened Text
  import opened Wrappers

  const Word: string := "music"

  /** The characters that the pattern letter p matches under re.IGNORECASE,
      for the letters of "music": besides the two ASCII cases, 's' also
      matches LATIN SMALL LETTER LONG S and 'i' also matches the dotted
      capital and the dotless small I. */
  predicate Folds(c: char, p: char) {
    if p == 's' then c == 's' || c == 'S' || c == '\U{17F}'
    else if p == 'i' then c == 'i' || c == 'I' || c == '\U{130}' || c == '\U{131}'
    else c == p || c == LowerUpper(p)
  }

  /** The ASCII capital of a lower-case letter. */
  function LowerUpper(p: char): char {
    if IsAsciiLower(p) then (p as int - 'a' as int + 'A' as int) as char else p
  }

  /** \b before position i: at the start, or after a non-word character. */
  predicate BoundaryBefore(t: string, i: int)
    requires 0 <= i <= |t|
  {
    i == 0 || !IsWordChar(t[i - 1])
  }

  /** \b at position j: at the end, or before a non-word character. */
  predicate BoundaryAt(t: string, j: int)
    requires 0 <= j <= |t|
  {
    j == |t| || !IsWordChar(t[j])
  }

  /** The pattern matches the text at position i. */
  predicate MatchAt(t: string, i: int) {
    0 <= i && i + |Word| <= |t|
    && (forall k :: 0 <= k < |Word| ==> Folds(t[i + k], Word[k]))
    && BoundaryBefore(t, i) && BoundaryAt(t, i + |Word|)
  }

  /** re.search: try every start position from i onwards, left to right. */
  function SearchFrom(t: string, i: nat): (found: bool)
    requires i <= |t|
    ensures found <==> exists j :: i <= j && MatchAt(t, j)
    decreases |t| - i
  {
    if i + |Word| > |t| then false
    else MatchAt(t, i) || SearchFrom(t, i + 1)
  }

  /** job_matches_music: None and "" are searched as "". */
  function JobMatchesMusic(text: Option<string>): (found: bool)
    ensures found <==> exists j :: MatchAt(text.GetOr(""), j)
  {
    SearchFrom(text.GetOr(""), 0)
  }

  /** Nothing to search, nothing found. */
  lemma EmptyNeverMatches()
    ensures !JobMatchesMusic(None) && !JobMatchesMusic(Some(""))
  {
  }

  /** "Music Director" mentions music. */
  lemma MusicDirectorMatches()
    ensures JobMatchesMusic(Some("Music Director"))
  {
    assert MatchAt("Music Director", 0);
  }

  /** "musically" does not: the word goes on after "music". */
  lemma MusicallyDoesNotMatch()
    ensures !JobMatchesMusic(Some("musically"))
  {
    var t := "musically";
    forall j ensures !MatchAt(t, j) {
      if 0 <= j && j + |Word| <= |t| {
        if j == 0 {
          assert IsWordChar(t[5]);
        } else {
          assert !Folds(t[j], Word[0]);
        }
      }
    }
  }

  /** A character keeps its word-character status and its folds under ASCII lower-casing. */
  lemma LowerCharKeepsClass(c: char)
    ensures IsWordChar(LowerChar(c)) == IsWordChar(c)
    ensures forall p :: p in Word ==> (Folds(LowerChar(c), p) <==> Folds(c, p))
  {
  }

  /** The match is case-insensitive: lower-casing the text does not change the answer. */
  lemma {:induction false} LowerDoesNotMatter(t: string)
    ensures JobMatchesMusic(Some(Lower(t))) == JobMatchesMusic(Some(t))
  {
    var l := Lower(t);
    forall j ensures MatchAt(l, j) <==> MatchAt(t, j) {
      if 0 <= j && j + |Word| <= |t| {
        forall k | 0 <= k < |Word| ensures Folds(l[j + k], Word[k]) <==> Folds(t[j + k], Word[k]) {
          LowerCharKeepsClass(t[j + k]);
        }
        if j > 0 {
          LowerCharKeepsClass(t[j - 1]);
        }
        if j + |Word| < |t| {
          LowerCharKeepsClass(t[j + |Word|]);
        }
      }
    }
  }

  /** The fetchers search title, location and description joined by line
      feeds; a match in any one part is a match in the joined text. */
  lemma {:induction false} MatchInPart(a: string, b: string)
    ensures JobMatchesMusic(Some(a)) ==> JobMatchesMusic(Some(a + "\n" + b))
    ensures JobMatchesMusic(Some(b)) ==> JobMatchesMusic(Some(a + "\n" + b))
  {
    if JobMatchesMusic(Some(a)) {
      var j :| MatchAt(a, j);
      MatchBeforeBreak(a, b, j);
    }
    if JobMatchesMusic(Some(b)) {
      var j :| MatchAt(b, j);
      MatchAfterBreak(a, b, j);
    }
  }

  lemma {:induction false} MatchBeforeBreak(a: string, b: string, j: int)
    requires MatchAt(a, j)
    ensures MatchAt(a + "\n" + b, j)
  {
    var t := a + "\n" + b;
    assert forall k :: 0 <= k < |a| ==> t[k] == a[k];
    assert t[|a|] == '\n';
  }

  lemma {:induction false} MatchAfterBreak(a: string, b: string, j: int)
    requires MatchAt(b, j)
    ensures MatchAt(a + "\n" + b, |a| + 1 + j)
  {
    var t := a + "\n" + b;
    var d := |a| + 1;
    assert forall k :: 0 <= k < |b| ==> t[d + k] == b[k];
    assert t[d - 1] == '\n';
  }
}
