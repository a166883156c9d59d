/** Worked examples on small synthetic tables. */
module Scenarios {
  import opened Wrappers
  import opened Tables
  import opened PreFilter
  import opened Resolver
  import opened Filmography
  import opened Aggregator
  import opened Comparison

  /** Numeric coercion that understands exactly the ratings used below. */
  function ParseSample(text: string): Option<real>
  {
    if text == "7.5" then Some(7.5)
    else if text == "8.0" then Some(8.0)
    else if text == "6.0" then Some(6.0)
    else if text == "4.0" then Some(4.0)
    else None
  }

  /** A missing and a non-numeric rating are ignored: mean 7.5 over one title. */
  lemma MissingAndGarbageRatingsIgnored()
    ensures var r := CalculateAverageRating({"tt1", "tt2", "tt3"},
                       [Rating("tt1", Some("7.5"), Some("10")), Rating("tt2", None, None), Rating("tt3", Some("n/a"), Some("3"))],
                       [], ParseSample);
            r.mean == 7.5 && r.count == 1
  {
    var rows := [Rating("tt1", Some("7.5"), Some("10")), Rating("tt2", None, None), Rating("tt3", Some("n/a"), Some("3"))];
    var s: set<string> := {"tt1", "tt2", "tt3"};
    assert RatingsOf(rows, s) == rows;
    assert NumericRatings(rows, ParseSample) == [7.5];
    assert Sum([7.5]) == 7.5 + Sum([]);
  }

  /** A text without the letter 'a' contains no word starting with it. */
  lemma NoLetterNoOccurrence(s: string, word: string)
    requires |word| > 0 && word[0] == 'a'
    requires forall i :: 0 <= i < |s| ==> s[i] != 'a'
    ensures !ContainsSubstring(s, word)
  {
  }

  /** Of two people with the same name, the one whose profession says actor is chosen. */
  lemma ActorPreferredOverDirector()
    ensures FindActorNconst([Person("nm2", Some("Ann Lee"), Some("director")), Person("nm1", Some("Ann Lee"), Some("actor"))],
                            "Ann Lee") == Success("nm1")
  {
    var people := [Person("nm2", Some("Ann Lee"), Some("director")), Person("nm1", Some("Ann Lee"), Some("actor"))];
    assert OccursAt("actor", "actor", 0);
    NoLetterNoOccurrence("director", "actor");
    NoLetterNoOccurrence("director", "actress");
    AmbiguousNamePrefersFirstActor(people, "Ann Lee", 1, 0);
  }

  /** An unknown name fails, and the message names it. */
  lemma UnknownNameFails()
    ensures FindActorNconst([Person("nm1", Some("Ann Lee"), Some("actor"))], "Bo Sun") == Failure(NotFound("Bo Sun"))
    ensures ContainsSubstring(NotFound("Bo Sun").Message(), "Bo Sun")
  {
  }

  const SamplePeople := [Person("nm1", Some("X"), Some("actor")), Person("nm2", Some("Y"), Some("actor"))]
  const SampleTitles := [Title("tt1", Some("One"), Some("movie")), Title("tt2", Some("Two"), Some("movie")),
                         Title("tt3", Some("Three"), Some("movie"))]
  const SampleCredits := [Credit("tt1", "nm1", Some("actor")), Credit("tt2", "nm1", Some("actor")),
                          Credit("tt2", "nm2", Some("actor")), Credit("tt3", "nm2", Some("actor"))]
  const SampleRatings := [Rating("tt1", Some("8.0"), Some("100")), Rating("tt2", Some("6.0"), Some("100")),
                          Rating("tt3", Some("4.0"), Some("100"))]

  /** In the sample every title is a movie and every credit an acting credit on one. */
  lemma SamplePreFilters()
    ensures Movies(SampleTitles) == SampleTitles
    ensures ActingCredits(SampleCredits, TitleIds(Movies(SampleTitles))) == SampleCredits
  {
    MoviesOfMovies(SampleTitles);
    var ids := TitleIds(SampleTitles);
    assert SampleTitles[0] in SampleTitles && SampleTitles[1] in SampleTitles && SampleTitles[2] in SampleTitles;
    assert "tt1" in ids && "tt2" in ids && "tt3" in ids;
    ActingCreditsOfActing(SampleCredits, ids);
  }

  /** The sample filmographies: nm1 in tt1 and tt2, nm2 in tt2 and tt3. */
  lemma SampleFilmographies()
    ensures ActorTitles(SampleCredits, "nm1") == {"tt1", "tt2"}
    ensures ActorTitles(SampleCredits, "nm2") == {"tt2", "tt3"}
  {
  }

  /**
   * Two actors sharing one of three movies rated 8.0, 6.0 and 4.0:
   * together 6.0 over one movie, solo 8.0 and 4.0 over one movie each.
   */
  lemma TwoActorsOneSharedMovie()
    ensures var r := Compare(SamplePeople, SampleTitles, SampleCredits, SampleRatings, "X", "Y", ParseSample);
            && r.Success?
            && r.value.split == Split({"tt2"}, {"tt1"}, {"tt3"})
            && r.value.together.mean == 6.0 && r.value.together.count == 1
            && r.value.solo1.mean == 8.0 && r.value.solo1.count == 1
            && r.value.solo2.mean == 4.0 && r.value.solo2.count == 1
            && r.value.verdict == Mixed
  {
    var together := CalculateAverageRating({"tt2"}, SampleRatings, SampleTitles, ParseSample);
    var solo1 := CalculateAverageRating({"tt1"}, SampleRatings, SampleTitles, ParseSample);
    var solo2 := CalculateAverageRating({"tt3"}, SampleRatings, SampleTitles, ParseSample);
    SampleAggregate(0);
    SampleAggregate(1);
    SampleAggregate(2);
    assert together.mean == 6.0 && solo1.mean == 8.0 && solo2.mean == 4.0;
    assert Classify(together.mean, solo1.mean, solo2.mean) == Mixed;
    SampleReport();
  }

  /** The sample run succeeds and averages the three singleton title sets. */
  lemma SampleReport()
    ensures Compare(SamplePeople, SampleTitles, SampleCredits, SampleRatings, "X", "Y", ParseSample)
         == Success(Report({"tt1", "tt2"}, {"tt2", "tt3"}, Split({"tt2"}, {"tt1"}, {"tt3"}),
                           CalculateAverageRating({"tt2"}, SampleRatings, SampleTitles, ParseSample),
                           CalculateAverageRating({"tt1"}, SampleRatings, SampleTitles, ParseSample),
                           CalculateAverageRating({"tt3"}, SampleRatings, SampleTitles, ParseSample),
                           Classify(CalculateAverageRating({"tt2"}, SampleRatings, SampleTitles, ParseSample).mean,
                                    CalculateAverageRating({"tt1"}, SampleRatings, SampleTitles, ParseSample).mean,
                                    CalculateAverageRating({"tt3"}, SampleRatings, SampleTitles, ParseSample).mean)))
  {
    SamplePreFilters();
    SampleResolution();
    SampleFilmographies();
    SamplePartition();
  }

  /** The sample filmographies share tt2 only. */
  lemma SamplePartition()
    ensures Partition({"tt1", "tt2"}, {"tt2", "tt3"}) == Split({"tt2"}, {"tt1"}, {"tt3"})
  {
  }

  /** Each sample name belongs to exactly one person. */
  lemma SampleResolution()
    ensures FindActorNconst(SamplePeople, "X") == Success("nm1")
    ensures FindActorNconst(SamplePeople, "Y") == Success("nm2")
  {
    UniqueMatchIsReturned(SamplePeople, "X", 0);
    UniqueMatchIsReturned(SamplePeople, "Y", 1);
  }

  /** Each sample title, on its own, averages to its one rating (8.0, 6.0, 4.0). */
  lemma SampleAggregate(k: nat)
    requires k < 3
    ensures var r := CalculateAverageRating({SampleRatings[k].tconst}, SampleRatings, SampleTitles, ParseSample);
            r.mean == [8.0, 6.0, 4.0][k] && r.count == 1
  {
    SingleRating(SampleRatings, SampleTitles, SampleRatings[k].tconst, k, [8.0, 6.0, 4.0][k]);
  }

  /** The average over one title whose single rating row parses to `v` is `v`. */
  lemma SingleRating(ratings: seq<Rating>, titles: seq<Title>, t: string, i: nat, v: real)
    requires i < |ratings| && ratings[i].tconst == t && Coerce(ratings[i].averageRating, ParseSample) == Some(v)
    requires forall j :: 0 <= j < |ratings| && j != i ==> ratings[j].tconst != t
    ensures CalculateAverageRating({t}, ratings, titles, ParseSample).mean == v
    ensures CalculateAverageRating({t}, ratings, titles, ParseSample).count == 1
  {
    AverageOfCountedRows({t}, ratings, titles, ParseSample);
    var rows := CountedRows(ratings, {t}, ParseSample);
    assert rows == {i};
    CountedValuesSingle(ratings, {t}, i, v);
    assert Sum([v]) == v + Sum([]);
  }

  /** A single counted row contributes its value and nothing else. */
  lemma {:induction false} CountedValuesSingle(ratings: seq<Rating>, tconsts: set<string>, i: nat, v: real)
    requires i < |ratings| && Counted(ratings[i], tconsts, ParseSample) && Coerce(ratings[i].averageRating, ParseSample) == Some(v)
    requires forall j :: 0 <= j < |ratings| && j != i ==> !Counted(ratings[j], tconsts, ParseSample)
    ensures CountedValues(ratings, tconsts, ParseSample) == [v]
  {
    if i == 0 {
      assert CountedValues(ratings[1..], tconsts, ParseSample) == [] by {
        NoneCounted(ratings[1..], tconsts);
      }
    } else {
      CountedValuesSingle(ratings[1..], tconsts, i - 1, v);
    }
  }

  lemma {:induction false} NoneCounted(ratings: seq<Rating>, tconsts: set<string>)
    requires forall j :: 0 <= j < |ratings| ==> !Counted(ratings[j], tconsts, ParseSample)
    ensures CountedValues(ratings, tconsts, ParseSample) == []
  {
    if ratings != [] {
      NoneCounted(ratings[1..], tconsts);
    }
  }
}
