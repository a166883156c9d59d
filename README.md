# IMDB actor comparison — verified model of the join/filter pipeline

`imdb_compare.py` compares the movie ratings of two actors using the IMDB
non-commercial dataset. Its decision logic is an in-memory pipeline over four
tables (Name, Title, Credit, Rating):

1. **Pre-filters** — titles are restricted to `titleType == "movie"`, credits
   to the categories `actor`/`actress` on those movies (`PreFilter`).
2. **Entity resolver** `find_actor_nconst` — exact name match, error when
   nothing matches, narrowing of an ambiguous name to rows whose profession
   mentions `actor` or `actress` (only if that leaves something), and the
   first row in table order (`Resolver`).
3. **Filmography extractor** `get_actor_titles` — the set of titles credited
   to one person (`Filmography.ActorTitles`).
4. **Set partition** into the titles made together and the titles each actor
   made alone (`Filmography.Partition`).
5. **Rating aggregator** `calculate_average_rating` — unweighted mean, count
   and title names over a set of titles, tolerating missing and non-numeric
   ratings, with the sentinel `(0.0, 0, …)` when nothing can be averaged
   (`Aggregator`).
6. **Classification** of the together average as HIGHER, LOWER or Mixed
   against the two solo averages, and the whole run of `main` without its
   printing (`Comparison`).

Tables are sequences of records in table order. Every text column that the
dataset may leave as `\N` is an `Option<string>`; the identifier columns
`nconst`/`tconst` are plain strings. The numeric coercion of the rating text
is a function parameter `parse: string -> Option<real>` (`None` for text that
is not a number), and the mean is computed over exact reals.

Files: `wrappers.dfy` (Option, Result), `tables.dfy` (records, substring
search), `prefilter.dfy`, `resolver.dfy`, `filmography.dfy`,
`aggregator.dfy`, `comparison.dfy`, `scenarios.dfy` (worked examples on small
synthetic tables).

The sentinel design has a visible consequence that the model states as
`Comparison.NoSharedMovieReadsAsLower`: two actors with no movie in common
get the together average 0.0, and `main` then reports "LOWER" whenever both
solo averages are positive. The code does this as written. The model keeps
that behaviour.

The profession column is one text field searched for the substrings `actor`
and `actress` (the regular expression `actor|actress`); so a profession such
as `factor` also counts as acting.

## Model

| member | source | states |
|---|---|---|
| Tables.ContainsSubstring | imdb_compare.py:95-97 | the profession test holds exactly when the pattern occurs at some position of the text |
| PreFilter.Movies | imdb_compare.py:172-176 | the kept titles are exactly the title rows whose type is "movie", and no more rows than the input |
| PreFilter.MoviesAppend | imdb_compare.py:174 | the movie filter keeps table order: filtering a concatenation concatenates the filtered parts |
| PreFilter.MoviesOfMovies | imdb_compare.py:174 | a table of movies only passes the movie filter unchanged |
| PreFilter.TitleIds | imdb_compare.py:176 | an identifier is among the movie ids iff some row of the (filtered) Title table carries it; `PreFiltersInvariant` ties the ids back to movie rows |
| PreFilter.ActingCredits | imdb_compare.py:183-189 | the kept credits are exactly the rows whose category is actor or actress and whose title is among the movie ids |
| PreFilter.ActingCreditsAppend | imdb_compare.py:185-188 | the credit filter keeps table order |
| PreFilter.ActingCreditsOfActing | imdb_compare.py:185-188 | a table of acting credits on movies passes the credit filter unchanged |
| PreFilter.PreFiltersInvariant | imdb_compare.py:172-189 | after both pre-filters every title is a movie and every credit is an actor/actress credit on a movie of the original Title table |
| Resolver.NotFound.Message | imdb_compare.py:90 | the error message contains the queried name |
| Resolver.Matches | imdb_compare.py:87 | the selected rows are exactly those whose name equals the query |
| Resolver.HasActingProfession | imdb_compare.py:95-97 | the mask holds iff the profession is present and "actor" or "actress" occurs in it at some position; a null profession gives false |
| Resolver.ActingRows | imdb_compare.py:94-98 | the narrowed rows are exactly those whose profession mentions actor or actress; a null profession never does |
| Resolver.FindActorNconst | imdb_compare.py:85-105 | fails with NotFound(query) iff no row has the exact name; otherwise returns the nconst of a row with that name |
| Resolver.MatchesHead | imdb_compare.py:103 | the first selected row is the first row of the table with the name |
| Resolver.MatchesTwo | imdb_compare.py:92 | two distinct rows with the name make the selection ambiguous (more than one row) |
| Resolver.MatchesNone | imdb_compare.py:87-89 | with no row carrying the name the selection is empty |
| Resolver.MatchesSingle | imdb_compare.py:87 | a single row with the name is the whole selection |
| Resolver.ActingRowsNone | imdb_compare.py:99 | rows none of which has an acting profession leave nothing to narrow to |
| Resolver.ActingMatchesHead | imdb_compare.py:94-103 | the first narrowed row is the first table row with the name and an acting profession |
| Resolver.UniqueMatchIsReturned | imdb_compare.py:92-103 | when exactly one row has the name, its nconst is returned whatever its profession |
| Resolver.AmbiguousNamePrefersFirstActor | imdb_compare.py:92-103 | when several rows have the name and one has an acting profession, the first such row in table order is returned |
| Resolver.NoActorFallsBackToFirstMatch | imdb_compare.py:92-103 | when no row with the name has an acting profession, the first row with the name is returned |
| Filmography.ActorTitles | imdb_compare.py:108-111 | a title is in the filmography iff some credit row pairs it with the person |
| Filmography.SameRowsSameTitles | imdb_compare.py:111 | the filmography depends only on which credit rows exist: reordering or duplicating rows changes nothing |
| Filmography.FilmographyIsMovies | imdb_compare.py:183-189 | every title of a filmography taken from the pre-filtered credits is a movie with an acting credit of that person |
| Filmography.Partition | imdb_compare.py:210-212 | together, only-1 and only-2 are pairwise disjoint, their union is both filmographies, only-1 is titles1 minus titles2 and only-2 is titles2 minus titles1 |
| Aggregator.RatingsOf | imdb_compare.py:126 | the selected rating rows are exactly those whose tconst is in the set |
| Aggregator.Coerce | imdb_compare.py:127-129 | a cell is numeric iff it is present and `parse` accepts its text, and then its value is what `parse` gives; a null cell stays null |
| Aggregator.NumericRatings | imdb_compare.py:127-135 | a value is kept iff some row's cell coerces to it, with at most one value per row; `FilterThenDropIsCounted` ties it to the counted rows |
| Aggregator.TitleNames | imdb_compare.py:132-133 | a name is listed iff some title row in the set carries it |
| Aggregator.TitleNamesAppend | imdb_compare.py:132-133 | names keep table order and duplicates, one per matching row |
| Aggregator.CalculateAverageRating | imdb_compare.py:114-139 | the empty set gives (0.0, 0, []) whatever the tables hold; otherwise the names are the set's title names; a zero count always comes with mean 0.0 |
| Aggregator.FilterThenDropIsCounted | imdb_compare.py:126-135 | selecting by title, coercing and dropping nulls keeps exactly the rows of the set with a present numeric rating |
| Aggregator.CountedValuesSize | imdb_compare.py:135-139 | there is one averaged value per rating row of the set with a present numeric rating |
| Aggregator.AverageOfCountedRows | imdb_compare.py:126-139 | for a non-empty set the count is the number of rating rows of the set with a present numeric rating, and the mean is their sum divided by the count |
| Aggregator.OtherRowsIgnored | imdb_compare.py:126 | adding a rating row of a title outside the set changes nothing |
| Aggregator.MeanWithinBounds | imdb_compare.py:139 | the mean lies between any lower and upper bound of the averaged ratings |
| Comparison.Classify | imdb_compare.py:261-266 | HIGHER iff strictly above both solo averages, LOWER iff strictly below both, Mixed iff neither |
| Comparison.ClassifySymmetric | imdb_compare.py:261-266 | the verdict does not depend on which actor is named first |
| Comparison.Compare | imdb_compare.py:171-266 | fails iff one of the two names is unknown, with the first unknown name in lookup order; otherwise each filmography is taken from the pre-filtered credits of the resolved nconst, the split is `Partition` of the two filmographies (together is their intersection, each solo set is one filmography minus the other, the three are pairwise disjoint and cover both), all titles are movies, each average is taken over the movie table and the verdict classifies the three means |
| Comparison.NoSharedMovieReadsAsLower | imdb_compare.py:223-264 | with no shared movie and two positive solo averages the verdict is LOWER, because of the 0.0 sentinel |
| Scenarios.MissingAndGarbageRatingsIgnored | imdb_compare.py:126-139 | three titles rated "7.5", missing and non-numeric give mean 7.5 over one title |
| Scenarios.ActorPreferredOverDirector | imdb_compare.py:92-103 | of two same-named people, a director listed first and an actor second, the actor's nconst is returned |
| Scenarios.UnknownNameFails | imdb_compare.py:87-90 | an unknown name fails with NotFound naming it |
| Scenarios.TwoActorsOneSharedMovie | imdb_compare.py:199-266 | two actors sharing one of three movies rated 8.0, 6.0, 4.0 get together 6.0 and solo 8.0 and 4.0, one movie each, verdict Mixed |

## Left out

- `download_file` and `ensure_datasets` (imdb_compare.py:35-67): HTTP downloads, directory creation and file writes are I/O with no decision logic beyond "download when absent".
- `load_tsv_gz` (imdb_compare.py:70-82): gzip and TSV parsing by pandas; the model starts from parsed tables in which `\N` is `None`.
- The string-to-number coercion of `pd.to_numeric(..., errors="coerce")` (imdb_compare.py:127-129): it is the parameter `parse`, so the model holds for every coercion function.
- IEEE floating-point behaviour of `.mean()`: the mean is an exact real; rounding is not modelled.
- Null identifiers: `nconst` and `tconst` are never `\N` in the model; a null identifier, which pandas would turn into the text "nan" at imdb_compare.py:103, is not represented.
- The `numVotes` column is carried in `Rating` but, as in the code, never used.
- Sorting and truncating the shared titles to ten, the `:.2f`/`:+.2f` formatting, the differences printed at imdb_compare.py:268-271, all console output and the `IMDB_DATA_DIR` environment lookup (imdb_compare.py:145-274) are reporting only.
- The hard-coded actor names (imdb_compare.py:31-32) are parameters of `Comparison.Compare`.
