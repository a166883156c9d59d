/**
 * The filmography extractor `get_actor_titles` and the together/solo
 * partition of two filmographies.
 */
module Filmography {
  import opened Tables
  import opened PreFilter

  /** The set of titles credited to `nconst`; duplicate credits collapse. */
  function ActorTitles(credits: seq<Credit>, nconst: string): (r: set<string>)
    ensures forall t :: t in r <==> exists i :: 0 <= i < |credits| && credits[i].nconst == nconst && credits[i].tconst == t
  {
    if credits == [] then {}
    else
      var rest := ActorTitles(credits[1..], nconst);
      assert forall t :: t in rest <==> exists i :: 1 <= i < |credits| && credits[i].nconst == nconst && credits[i].tconst == t by {
        forall t | t in rest ensures exists i :: 1 <= i < |credits| && credits[i].nconst == nconst && credits[i].tconst == t {
          var j :| 0 <= j < |credits[1..]| && credits[1..][j].nconst == nconst && credits[1..][j].tconst == t;
          assert credits[j + 1] == credits[1..][j];
        }
        forall t, i | 1 <= i < |credits| && credits[i].nconst == nconst && credits[i].tconst == t ensures t in rest {
          assert credits[1..][i - 1] == credits[i];
        }
      }
      (if credits[0].nconst == nconst then {credits[0].tconst} else {}) + rest
  }

  /** Reordering or duplicating credit rows does not change a filmography. */
  lemma SameRowsSameTitles(a: seq<Credit>, b: seq<Credit>, nconst: string)
    requires forall c :: c in a <==> c in b
    ensures ActorTitles(a, nconst) == ActorTitles(b, nconst)
  {
    forall t | t in ActorTitles(a, nconst) ensures t in ActorTitles(b, nconst) {
      var i :| 0 <= i < |a| && a[i].nconst == nconst && a[i].tconst == t;
      assert a[i] in b;
    }
    forall t | t in ActorTitles(b, nconst) ensures t in ActorTitles(a, nconst) {
      var i :| 0 <= i < |b| && b[i].nconst == nconst && b[i].tconst == t;
      assert b[i] in a;
    }
  }

  /** A filmography taken from the pre-filtered credits holds only movies, each with an acting credit. */
  lemma FilmographyIsMovies(titles: seq<Title>, credits: seq<Credit>, nconst: string)
    ensures forall t :: t in ActorTitles(ActingCredits(credits, TitleIds(Movies(titles))), nconst) ==>
              (exists m :: m in titles && IsMovie(m) && m.tconst == t) &&
              (exists c :: c in credits && c.nconst == nconst && c.tconst == t && IsActingCategory(c.category))
  {
    var cs := ActingCredits(credits, TitleIds(Movies(titles)));
    forall t | t in ActorTitles(cs, nconst)
      ensures (exists m :: m in titles && IsMovie(m) && m.tconst == t)
      ensures exists c :: c in credits && c.nconst == nconst && c.tconst == t && IsActingCategory(c.category)
    {
      var i :| 0 <= i < |cs| && cs[i].nconst == nconst && cs[i].tconst == t;
      assert cs[i] in cs;
      var m :| m in Movies(titles) && m.tconst == t;
    }
  }

  /** Titles two people made together, and the titles each made without the other. */
  datatype Split = Split(both: set<string>, only1: set<string>, only2: set<string>)

  /** The together/solo partition of two filmographies. */
  function Partition(titles1: set<string>, titles2: set<string>): (s: Split)
    ensures s.both <= titles1 && s.both <= titles2
    ensures s.only1 <= titles1 && s.only2 <= titles2
    ensures s.both !! s.only1 && s.both !! s.only2 && s.only1 !! s.only2
    ensures s.both + s.only1 + s.only2 == titles1 + titles2
    ensures s.only1 == titles1 - titles2 && s.only2 == titles2 - titles1
  {
    var both := titles1 * titles2;
    Split(both, titles1 - both, titles2 - both)
  }
}
