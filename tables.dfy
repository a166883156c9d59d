/**
 * The four relations of the dataset, already parsed: every non-key column
 * is text, and the null token `\N` is `None`.
 */
module Tables {
  import opened Wrappers

  /** A row of the Name table (columns nconst, primaryName, primaryProfession). */
  datatype Person = Person(nconst: string, primaryName: Option<string>, primaryProfession: Option<string>)

  /** A row of the Title table (columns tconst, primaryTitle, titleType). */
  datatype Title = Title(tconst: string, primaryTitle: Option<string>, titleType: Option<string>)

  /** A row of the Credit table (columns tconst, nconst, category). */
  datatype Credit = Credit(tconst: string, nconst: string, category: Option<string>)

  /** A row of the Rating table (columns tconst, averageRating, numVotes), still as text. */
  datatype Rating = Rating(tconst: string, averageRating: Option<string>, numVotes: Option<string>)

  /** `sub` occurs in `s` at position `i`. */
  ghost predicate OccursAt(s: string, sub: string, i: int)
  {
    0 <= i && i + |sub| <= |s| && s[i..i + |sub|] == sub
  }

  /** Case-sensitive substring search, the test behind pandas' `str.contains`. */
  function ContainsSubstring(s: string, sub: string): (r: bool)
    ensures r <==> exists i :: OccursAt(s, sub, i)
    decreases |s|
  {
    if |sub| > |s| then false
    else if s[..|sub|] == sub then
      assert OccursAt(s, sub, 0);
      true
    else
      var rest := ContainsSubstring(s[1..], sub);
      assert rest <==> exists i :: OccursAt(s, sub, i) by {
        if rest {
          var j :| OccursAt(s[1..], sub, j);
          assert s[j + 1..j + 1 + |sub|] == s[1..][j..j + |sub|];
          assert OccursAt(s, sub, j + 1);
        }
        forall i | OccursAt(s, sub, i) ensures i > 0 && OccursAt(s[1..], sub, i - 1) {
          if i > 0 { assert s[1..][i - 1..i - 1 + |sub|] == s[i..i + |sub|]; }
        }
      }
      rest
  }
}
