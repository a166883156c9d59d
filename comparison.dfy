/**
 * The comparison run by `main`: pre-filter the tables, resolve both actors,
 * extract and partition their filmographies, aggregate the three title
 * sets and classify the together average against the two solo averages.
 */
module Comparison {
  import opened Wrappers
  import opened Tables
  import opened PreFilter
  import opened Resolver
  import opened Filmography
  import opened Aggregator

  /** The qualitative verdict on the together average. */
  datatype Verdict = Higher | Lower | Mixed

  /** HIGHER when strictly above both solo averages, LOWER when strictly below both, Mixed otherwise. */
  function Classify(together: real, solo1: real, solo2: real): (v: Verdict)
    ensures v == Higher <==> together > solo1 && together > solo2
    ensures v == Lower <==> together < solo1 && together < solo2
    ensures v == Mixed <==> !(together > solo1 && together > solo2) && !(together < solo1 && together < solo2)
  {
    if together > solo1 && together > solo2 then Higher
    else if together < solo1 && together < solo2 then Lower
    else Mixed
  }

  /** The verdict does not depend on which actor is named first. */
  lemma ClassifySymmetric(together: real, solo1: real, solo2: real)
    ensures Classify(together, solo1, solo2) == Classify(together, solo2, solo1)
  {
  }

  /** Everything the report is built from. */
  datatype Report = Report(
    titles1: set<string>, titles2: set<string>, split: Split,
    together: Aggregate, solo1: Aggregate, solo2: Aggregate, verdict: Verdict)

  /**
   * The whole comparison. Fails with the first actor name (in the order the
   * two are looked up) that no Name row carries.
   */
  function Compare(people: seq<Person>, titles: seq<Title>, credits: seq<Credit>, ratings: seq<Rating>,
                   actor1: string, actor2: string, parse: string -> Option<real>): (r: Result<Report, NotFound>)
    ensures r.Failure? <==> FindActorNconst(people, actor1).Failure? || FindActorNconst(people, actor2).Failure?
    ensures r.Failure? ==> r.error == NotFound(if FindActorNconst(people, actor1).Failure? then actor1 else actor2)
    ensures r.Success? ==>
              var rep := r.value;
              && rep.split == Partition(rep.titles1, rep.titles2)
              && rep.split.both + rep.split.only1 + rep.split.only2 == rep.titles1 + rep.titles2
              && rep.split.only1 == rep.titles1 - rep.titles2 && rep.split.only2 == rep.titles2 - rep.titles1
              && rep.split.both !! rep.split.only1 && rep.split.both !! rep.split.only2 && rep.split.only1 !! rep.split.only2
              && rep.split.both == rep.titles1 * rep.titles2
              && (forall t :: t in rep.titles1 + rep.titles2 ==> exists m :: m in titles && IsMovie(m) && m.tconst == t)
              && rep.verdict == Classify(rep.together.mean, rep.solo1.mean, rep.solo2.mean)
    ensures r.Success? ==>
              var rep := r.value;
              var acting := ActingCredits(credits, TitleIds(Movies(titles)));
              && rep.titles1 == ActorTitles(acting, FindActorNconst(people, actor1).value)
              && rep.titles2 == ActorTitles(acting, FindActorNconst(people, actor2).value)
              && rep.together == CalculateAverageRating(rep.split.both, ratings, Movies(titles), parse)
              && rep.solo1 == CalculateAverageRating(rep.split.only1, ratings, Movies(titles), parse)
              && rep.solo2 == CalculateAverageRating(rep.split.only2, ratings, Movies(titles), parse)
  {
    var movies := Movies(titles);
    var acting := ActingCredits(credits, TitleIds(movies));
    match FindActorNconst(people, actor1)
    case Failure(e) => Failure(e)
    case Success(n1) =>
      match FindActorNconst(people, actor2)
      case Failure(e) => Failure(e)
      case Success(n2) =>
        var titles1 := ActorTitles(acting, n1);
        var titles2 := ActorTitles(acting, n2);
        FilmographyIsMovies(titles, credits, n1);
        FilmographyIsMovies(titles, credits, n2);
        var split := Partition(titles1, titles2);
        var together := CalculateAverageRating(split.both, ratings, movies, parse);
        var solo1 := CalculateAverageRating(split.only1, ratings, movies, parse);
        var solo2 := CalculateAverageRating(split.only2, ratings, movies, parse);
        Success(Report(titles1, titles2, split, together, solo1, solo2,
                       Classify(together.mean, solo1.mean, solo2.mean)))
  }

  /**
   * Two actors with no movie in common get the sentinel 0.0 as their
   * together average, so any two positive solo averages read as LOWER.
   */
  lemma NoSharedMovieReadsAsLower(people: seq<Person>, titles: seq<Title>, credits: seq<Credit>, ratings: seq<Rating>,
                                  actor1: string, actor2: string, parse: string -> Option<real>)
    requires Compare(people, titles, credits, ratings, actor1, actor2, parse).Success?
    requires var rep := Compare(people, titles, credits, ratings, actor1, actor2, parse).value;
             rep.titles1 !! rep.titles2 && rep.solo1.mean > 0.0 && rep.solo2.mean > 0.0
    ensures Compare(people, titles, credits, ratings, actor1, actor2, parse).value.verdict == Lower
  {
    var rep := Compare(people, titles, credits, ratings, actor1, actor2, parse).value;
    assert rep.split.both == {};
  }
}
