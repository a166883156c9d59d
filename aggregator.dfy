/**
 * The rating aggregator `calculate_average_rating`: unweighted mean and
 * sample count of the ratings of a set of titles, plus their title names.
 * Ratings are text; `parse` stands for the numeric coercion, which yields
 * `None` for text that is not a number.
 */
module Aggregator {
  import opened Wrappers
  import opened Tables

  /** Mean rating, number of ratings averaged, and the names of the titles. */
  datatype Aggregate = Aggregate(mean: real, count: nat, titleNames: seq<Option<string>>)

  /** Numeric value of a rating cell: a null cell stays null, text goes through `parse`. */
  function Coerce(cell: Option<string>, parse: string -> Option<real>): (r: Option<real>)
    ensures r.Some? <==> cell.Some? && parse(cell.value).Some?
    ensures r.Some? ==> r == parse(cell.value)
  {
    match cell
    case None => None
    case Some(text) => parse(text)
  }

  /** The rating rows of the given titles, in table order. */
  function RatingsOf(ratings: seq<Rating>, tconsts: set<string>): (r: seq<Rating>)
    ensures |r| <= |ratings|
    ensures forall x :: x in r <==> x in ratings && x.tconst in tconsts
  {
    if ratings == [] then []
    else (if ratings[0].tconst in tconsts then [ratings[0]] else []) + RatingsOf(ratings[1..], tconsts)
  }

  /** The numeric ratings of the rows, nulls and unparsable values dropped, in order. */
  function NumericRatings(rows: seq<Rating>, parse: string -> Option<real>): (r: seq<real>)
    ensures |r| <= |rows|
    ensures forall x :: x in r <==> exists i :: 0 <= i < |rows| && Coerce(rows[i].averageRating, parse) == Some(x)
  {
    if rows == [] then []
    else
      var head := Coerce(rows[0].averageRating, parse);
      (if head.Some? then [head.value] else []) + NumericRatings(rows[1..], parse)
  }

  /** The primaryTitle of every title row in the set, in table order, not deduplicated. */
  function TitleNames(titles: seq<Title>, tconsts: set<string>): (r: seq<Option<string>>)
    ensures |r| <= |titles|
    ensures forall n :: n in r <==> exists t :: t in titles && t.tconst in tconsts && t.primaryTitle == n
  {
    if titles == [] then []
    else
      var rest := TitleNames(titles[1..], tconsts);
      assert forall t :: t in titles[1..] ==> t in titles;
      (if titles[0].tconst in tconsts then [titles[0].primaryTitle] else []) + rest
  }

  /**
   * Names keep table order and duplicates: the names of a concatenation are
   * the names of each part, one per matching row.
   */
  lemma {:induction false} TitleNamesAppend(a: seq<Title>, b: seq<Title>, tconsts: set<string>)
    ensures TitleNames(a + b, tconsts) == TitleNames(a, tconsts) + TitleNames(b, tconsts)
  {
    if a == [] {
      assert a + b == b;
    } else {
      var head: seq<Option<string>> := if a[0].tconst in tconsts then [a[0].primaryTitle] else [];
      assert (a + b)[0] == a[0] && (a + b)[1..] == a[1..] + b;
      assert TitleNames(a + b, tconsts) == head + TitleNames(a[1..] + b, tconsts);
      assert TitleNames(a, tconsts) == head + TitleNames(a[1..], tconsts);
      TitleNamesAppend(a[1..], b, tconsts);
    }
  }

  /** The sum of a sequence of ratings. */
  function Sum(xs: seq<real>): real
  {
    if xs == [] then 0.0 else xs[0] + Sum(xs[1..])
  }

  /**
   * Mean, count and names for a set of titles. The empty set gives
   * (0.0, 0, []) whatever the tables hold; a set none of whose ratings is
   * numeric gives (0.0, 0, names) with the names still listed.
   */
  function CalculateAverageRating(tconsts: set<string>, ratings: seq<Rating>, titles: seq<Title>,
                                  parse: string -> Option<real>): (r: Aggregate)
    ensures tconsts == {} ==> r == Aggregate(0.0, 0, [])
    ensures tconsts != {} ==> r.titleNames == TitleNames(titles, tconsts)
    ensures r.count <= |ratings|
    ensures r.count == 0 ==> r.mean == 0.0
  {
    if tconsts == {} then Aggregate(0.0, 0, [])
    else
      var valid := NumericRatings(RatingsOf(ratings, tconsts), parse);
      var names := TitleNames(titles, tconsts);
      if |valid| == 0 then Aggregate(0.0, 0, names)
      else Aggregate(Sum(valid) / (|valid| as real), |valid|, names)
  }

  // ---------------------------------------------------------------------
  // The rating rows that are averaged, selected in one pass: the rows of the
  // set whose cell is present and numeric.

  /** The rating row belongs to the set and its cell is present and numeric. */
  predicate Counted(row: Rating, tconsts: set<string>, parse: string -> Option<real>)
  {
    row.tconst in tconsts && Coerce(row.averageRating, parse).Some?
  }

  /** The values of the counted rows, in table order. */
  function CountedValues(ratings: seq<Rating>, tconsts: set<string>, parse: string -> Option<real>): seq<real>
  {
    if ratings == [] then []
    else
      (if Counted(ratings[0], tconsts, parse) then [Coerce(ratings[0].averageRating, parse).value] else [])
      + CountedValues(ratings[1..], tconsts, parse)
  }

  /** The indices of the counted rows. */
  ghost function CountedRows(ratings: seq<Rating>, tconsts: set<string>, parse: string -> Option<real>): set<int>
  {
    set i | 0 <= i < |ratings| && Counted(ratings[i], tconsts, parse)
  }

  /** Selecting by title and then dropping nulls selects exactly the counted rows. */
  lemma {:induction false} FilterThenDropIsCounted(ratings: seq<Rating>, tconsts: set<string>, parse: string -> Option<real>)
    ensures NumericRatings(RatingsOf(ratings, tconsts), parse) == CountedValues(ratings, tconsts, parse)
  {
    if ratings != [] {
      FilterThenDropIsCounted(ratings[1..], tconsts, parse);
      var rest := RatingsOf(ratings[1..], tconsts);
      if ratings[0].tconst in tconsts {
        var s := [ratings[0]] + rest;
        assert s[0] == ratings[0] && s[1..] == rest;
        assert RatingsOf(ratings, tconsts) == s;
      } else {
        assert RatingsOf(ratings, tconsts) == rest;
      }
    }
  }

  /** The counted values of a concatenation are those of each part, in order. */
  lemma {:induction false} CountedValuesAppend(a: seq<Rating>, b: seq<Rating>, tconsts: set<string>, parse: string -> Option<real>)
    ensures CountedValues(a + b, tconsts, parse) == CountedValues(a, tconsts, parse) + CountedValues(b, tconsts, parse)
  {
    if a == [] {
      assert a + b == b;
    } else {
      assert (a + b)[1..] == a[1..] + b;
      CountedValuesAppend(a[1..], b, tconsts, parse);
    }
  }

  /** There is one counted value per counted row. */
  lemma {:induction false} CountedValuesSize(ratings: seq<Rating>, tconsts: set<string>, parse: string -> Option<real>)
    ensures |CountedValues(ratings, tconsts, parse)| == |CountedRows(ratings, tconsts, parse)|
    decreases |ratings|
  {
    if ratings != [] {
      var n := |ratings| - 1;
      var front := ratings[..n];
      assert ratings == front + [ratings[n]];
      CountedValuesAppend(front, [ratings[n]], tconsts, parse);
      CountedValuesSize(front, tconsts, parse);
      var rowsFront := CountedRows(front, tconsts, parse);
      if Counted(ratings[n], tconsts, parse) {
        assert CountedRows(ratings, tconsts, parse) == rowsFront + {n};
      } else {
        assert CountedRows(ratings, tconsts, parse) == rowsFront;
      }
    }
  }

  /**
   * For a non-empty set, the count is the number of rating rows of the set
   * whose rating is present and numeric, and the mean is the sum of those
   * ratings divided by the count.
   */
  lemma AverageOfCountedRows(tconsts: set<string>, ratings: seq<Rating>, titles: seq<Title>, parse: string -> Option<real>)
    requires tconsts != {}
    ensures var r := CalculateAverageRating(tconsts, ratings, titles, parse);
            var values := CountedValues(ratings, tconsts, parse);
            && r.count == |values| == |CountedRows(ratings, tconsts, parse)|
            && (r.count > 0 ==> r.mean == Sum(values) / (r.count as real))
  {
    FilterThenDropIsCounted(ratings, tconsts, parse);
    CountedValuesSize(ratings, tconsts, parse);
  }

  /** Rating rows of titles outside the set change nothing. */
  lemma OtherRowsIgnored(tconsts: set<string>, ratings: seq<Rating>, extra: Rating, titles: seq<Title>, parse: string -> Option<real>)
    requires extra.tconst !in tconsts
    ensures CalculateAverageRating(tconsts, ratings + [extra], titles, parse)
         == CalculateAverageRating(tconsts, ratings, titles, parse)
  {
    FilterThenDropIsCounted(ratings, tconsts, parse);
    FilterThenDropIsCounted(ratings + [extra], tconsts, parse);
    CountedValuesAppend(ratings, [extra], tconsts, parse);
    assert CountedValues([extra], tconsts, parse) == [];
    assert NumericRatings(RatingsOf(ratings + [extra], tconsts), parse)
        == NumericRatings(RatingsOf(ratings, tconsts), parse);
  }

  /** Every value lies in [lo, hi]. */
  predicate Within(xs: seq<real>, lo: real, hi: real)
  {
    forall i :: 0 <= i < |xs| ==> lo <= xs[i] <= hi
  }

  /** Each value in [lo, hi] keeps the sum within count times the bounds. */
  lemma {:induction false} SumBounds(xs: seq<real>, lo: real, hi: real)
    requires Within(xs, lo, hi)
    ensures lo * (|xs| as real) <= Sum(xs) <= hi * (|xs| as real)
  {
    if xs != [] {
      SumBounds(xs[1..], lo, hi);
    }
  }

  /**
   * The mean lies between any bounds of the counted ratings (on the dataset's
   * 1 to 10 scale, between 1 and 10).
   */
  lemma MeanWithinBounds(tconsts: set<string>, ratings: seq<Rating>, titles: seq<Title>, parse: string -> Option<real>, lo: real, hi: real)
    requires forall i :: 0 <= i < |ratings| && Counted(ratings[i], tconsts, parse) ==>
               lo <= Coerce(ratings[i].averageRating, parse).value <= hi
    ensures var r := CalculateAverageRating(tconsts, ratings, titles, parse);
            r.count > 0 ==> lo <= r.mean <= hi
  {
    var r := CalculateAverageRating(tconsts, ratings, titles, parse);
    if r.count > 0 {
      FilterThenDropIsCounted(ratings, tconsts, parse);
      var values := CountedValues(ratings, tconsts, parse);
      assert r.count == |values| && r.mean == Sum(values) / (|values| as real);
      CountedValuesInRange(ratings, tconsts, parse, lo, hi);
      MeanOfWithin(values, lo, hi);
    }
  }

  /** The mean of values in [lo, hi] is in [lo, hi]. */
  lemma MeanOfWithin(xs: seq<real>, lo: real, hi: real)
    requires |xs| > 0 && Within(xs, lo, hi)
    ensures lo <= Sum(xs) / (|xs| as real) <= hi
  {
    SumBounds(xs, lo, hi);
    DivisionWithinBounds(Sum(xs), |xs| as real, lo, hi);
  }

  /** A total within n times the bounds, divided by n, lies within the bounds. */
  lemma DivisionWithinBounds(total: real, n: real, lo: real, hi: real)
    requires n > 0.0 && lo * n <= total <= hi * n
    ensures lo <= total / n <= hi
  {
  }

  lemma {:induction false} CountedValuesInRange(ratings: seq<Rating>, tconsts: set<string>, parse: string -> Option<real>, lo: real, hi: real)
    requires forall i :: 0 <= i < |ratings| && Counted(ratings[i], tconsts, parse) ==>
               lo <= Coerce(ratings[i].averageRating, parse).value <= hi
    ensures Within(CountedValues(ratings, tconsts, parse), lo, hi)
  {
    if ratings != [] {
      assert forall i :: 0 <= i < |ratings[1..]| ==> ratings[1..][i] == ratings[i + 1];
      CountedValuesInRange(ratings[1..], tconsts, parse, lo, hi);
      var rest := CountedValues(ratings[1..], tconsts, parse);
      if Counted(ratings[0], tconsts, parse) {
        var head := Coerce(ratings[0].averageRating, parse).value;
        var values := [head] + rest;
        assert forall j :: 1 <= j < |values| ==> values[j] == rest[j - 1];
      } else {
        assert CountedValues(ratings, tconsts, parse) == rest;
      }
    }
  }
}
