/**
 * The two pre-filters applied in `main` before any actor is looked up:
 * titles are restricted to movies, and credits to acting roles in movies.
 */
module PreFilter {
  import opened Wrappers
  import opened Tables

  /** A title row whose titleType is exactly "movie" (a null type is not). */
  predicate IsMovie(t: Title)
  {
    t.titleType == Some("movie")
  }

  /** A credit whose category is "actor" or "actress" (a null category is neither). */
  predicate IsActingCategory(category: Option<string>)
  {
    category == Some("actor") || category == Some("actress")
  }

  /** The Title table restricted to movies, in table order. */
  function Movies(titles: seq<Title>): (r: seq<Title>)
    ensures |r| <= |titles|
    ensures forall t :: t in r <==> t in titles && IsMovie(t)
  {
    if titles == [] then []
    else (if IsMovie(titles[0]) then [titles[0]] else []) + Movies(titles[1..])
  }

  /** The identifiers of a set of title rows. */
  function TitleIds(titles: seq<Title>): (r: set<string>)
    ensures forall id :: id in r <==> exists i :: 0 <= i < |titles| && titles[i].tconst == id
  {
    set t | t in titles :: t.tconst
  }

  /** The Credit table restricted to acting credits on the given titles, in table order. */
  function ActingCredits(credits: seq<Credit>, movieIds: set<string>): (r: seq<Credit>)
    ensures |r| <= |credits|
    ensures forall c :: c in r <==> c in credits && IsActingCategory(c.category) && c.tconst in movieIds
  {
    if credits == [] then []
    else
      var c := credits[0];
      (if IsActingCategory(c.category) && c.tconst in movieIds then [c] else []) + ActingCredits(credits[1..], movieIds)
  }

  /** A table of movies only passes the movie filter unchanged. */
  lemma {:induction false} MoviesOfMovies(titles: seq<Title>)
    requires forall i :: 0 <= i < |titles| ==> IsMovie(titles[i])
    ensures Movies(titles) == titles
  {
    if titles != [] {
      MoviesOfMovies(titles[1..]);
    }
  }

  /** A table of acting credits on the given titles passes the credit filter unchanged. */
  lemma {:induction false} ActingCreditsOfActing(credits: seq<Credit>, movieIds: set<string>)
    requires forall i :: 0 <= i < |credits| ==> IsActingCategory(credits[i].category) && credits[i].tconst in movieIds
    ensures ActingCredits(credits, movieIds) == credits
  {
    if credits != [] {
      ActingCreditsOfActing(credits[1..], movieIds);
    }
  }

  /** The movie filter keeps table order: filtering a concatenation filters each part. */
  lemma {:induction false} MoviesAppend(a: seq<Title>, b: seq<Title>)
    ensures Movies(a + b) == Movies(a) + Movies(b)
  {
    if a == [] {
      assert a + b == b;
    } else {
      assert (a + b)[1..] == a[1..] + b;
      MoviesAppend(a[1..], b);
    }
  }

  /** The credit filter keeps table order: filtering a concatenation filters each part. */
  lemma {:induction false} ActingCreditsAppend(a: seq<Credit>, b: seq<Credit>, movieIds: set<string>)
    ensures ActingCredits(a + b, movieIds) == ActingCredits(a, movieIds) + ActingCredits(b, movieIds)
  {
    if a == [] {
      assert a + b == b;
    } else {
      assert (a + b)[1..] == a[1..] + b;
      ActingCreditsAppend(a[1..], b, movieIds);
    }
  }

  /**
   * After both pre-filters, every retained title is a movie, and every
   * retained credit is an acting credit on a movie of the original Title table.
   */
  lemma PreFiltersInvariant(titles: seq<Title>, credits: seq<Credit>)
    ensures forall t :: t in Movies(titles) ==> t.titleType == Some("movie")
    ensures forall c :: c in ActingCredits(credits, TitleIds(Movies(titles))) ==>
              (c.category == Some("actor") || c.category == Some("actress")) &&
              exists t :: t in titles && t.titleType == Some("movie") && t.tconst == c.tconst
  {
    var movies := Movies(titles);
    forall c | c in ActingCredits(credits, TitleIds(movies))
      ensures exists t :: t in titles && t.titleType == Some("movie") && t.tconst == c.tconst
    {
      var t :| t in movies && t.tconst == c.tconst;
      assert t in titles && IsMovie(t);
    }
  }
}
