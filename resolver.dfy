/**
 * The entity resolver `find_actor_nconst`: exact display-name lookup in the
 * Name table, narrowed to acting professions when the name is ambiguous,
 * with a first-row-in-table-order tie-break.
 */
module Resolver {
  import opened Wrappers
  import opened Tables

  /** The error raised when no row carries the queried name. */
  datatype NotFound = NotFound(query: string)
  {
    /** The human-readable message of the error. */
    function Message(): (m: string)
      ensures ContainsSubstring(m, query)
    {
      var m := "Actor '" + query + "' not found in database";
      assert m[7..7 + |query|] == query;
      assert OccursAt(m, query, 7);
      m
    }
  }

  /** Exact, case-sensitive name match; a null name matches nothing. */
  predicate NameMatches(p: Person, name: string)
  {
    p.primaryName == Some(name)
  }

  /** The profession column mentions "actor" or "actress"; a null profession does not. */
  predicate HasActingProfession(p: Person)
    ensures HasActingProfession(p) <==>
              p.primaryProfession.Some? &&
              ((exists i :: OccursAt(p.primaryProfession.value, "actor", i)) ||
               (exists i :: OccursAt(p.primaryProfession.value, "actress", i)))
  {
    match p.primaryProfession
    case None => false
    case Some(prof) => ContainsSubstring(prof, "actor") || ContainsSubstring(prof, "actress")
  }

  /** The rows whose name equals `name`, in table order. */
  function Matches(people: seq<Person>, name: string): (r: seq<Person>)
    ensures |r| <= |people|
    ensures forall p :: p in r <==> p in people && NameMatches(p, name)
  {
    if people == [] then []
    else (if NameMatches(people[0], name) then [people[0]] else []) + Matches(people[1..], name)
  }

  /** The rows with an acting profession, in their given order. */
  function ActingRows(rows: seq<Person>): (r: seq<Person>)
    ensures |r| <= |rows|
    ensures forall p :: p in r <==> p in rows && HasActingProfession(p)
  {
    if rows == [] then []
    else (if HasActingProfession(rows[0]) then [rows[0]] else []) + ActingRows(rows[1..])
  }

  /**
   * Resolves a display name to a person identifier. Fails with the query
   * when no row has that name; otherwise returns the identifier of a row
   * that has it.
   */
  function FindActorNconst(people: seq<Person>, name: string): (r: Result<string, NotFound>)
    ensures r.Failure? <==> forall i :: 0 <= i < |people| ==> !NameMatches(people[i], name)
    ensures r.Failure? ==> r.error == NotFound(name)
    ensures r.Success? ==> exists i :: 0 <= i < |people| && NameMatches(people[i], name) && people[i].nconst == r.value
  {
    var matches := Matches(people, name);
    if |matches| == 0 then
      assert forall i :: 0 <= i < |people| ==> !NameMatches(people[i], name) by {
        forall i | 0 <= i < |people| ensures !NameMatches(people[i], name) {
          assert people[i] in people;
        }
      }
      Failure(NotFound(name))
    else
      var actorMatches := if |matches| > 1 then ActingRows(matches) else [];
      var chosen := if |actorMatches| > 0 then actorMatches else matches;
      assert chosen[0] in matches;
      Success(chosen[0].nconst)
  }

  /** The first row of `Matches` is the first name-matching row of the table. */
  lemma {:induction false} MatchesHead(people: seq<Person>, name: string, i: nat)
    requires i < |people| && NameMatches(people[i], name)
    requires forall j :: 0 <= j < i ==> !NameMatches(people[j], name)
    ensures |Matches(people, name)| > 0 && Matches(people, name)[0] == people[i]
  {
    if i > 0 {
      MatchesHead(people[1..], name, i - 1);
    }
  }

  /** Two distinct name-matching rows make the match set ambiguous. */
  lemma {:induction false} MatchesTwo(people: seq<Person>, name: string, i: nat, k: nat)
    requires i < |people| && k < |people| && i != k
    requires NameMatches(people[i], name) && NameMatches(people[k], name)
    ensures |Matches(people, name)| > 1
  {
    if i == 0 {
      assert people[k] in people[1..];
    } else if k == 0 {
      assert people[i] in people[1..];
    } else {
      MatchesTwo(people[1..], name, i - 1, k - 1);
    }
  }

  /** No name-matching row leaves the match set empty. */
  lemma {:induction false} MatchesNone(people: seq<Person>, name: string)
    requires forall j :: 0 <= j < |people| ==> !NameMatches(people[j], name)
    ensures Matches(people, name) == []
  {
    if people != [] {
      MatchesNone(people[1..], name);
    }
  }

  /** Rows none of which has an acting profession leave no acting rows. */
  lemma {:induction false} ActingRowsNone(rows: seq<Person>)
    requires forall p :: p in rows ==> !HasActingProfession(p)
    ensures ActingRows(rows) == []
  {
    if rows != [] {
      ActingRowsNone(rows[1..]);
    }
  }

  /** A single name-matching row is the whole match set. */
  lemma {:induction false} MatchesSingle(people: seq<Person>, name: string, i: nat)
    requires i < |people| && NameMatches(people[i], name)
    requires forall j :: 0 <= j < |people| && j != i ==> !NameMatches(people[j], name)
    ensures Matches(people, name) == [people[i]]
  {
    if i == 0 {
      MatchesNone(people[1..], name);
    } else {
      MatchesSingle(people[1..], name, i - 1);
    }
  }

  /**
   * The first acting row among the name matches is the first table row that
   * both matches the name and has an acting profession.
   */
  lemma {:induction false} ActingMatchesHead(people: seq<Person>, name: string, i: nat)
    requires i < |people| && NameMatches(people[i], name) && HasActingProfession(people[i])
    requires forall j :: 0 <= j < i ==> !(NameMatches(people[j], name) && HasActingProfession(people[j]))
    ensures |ActingRows(Matches(people, name))| > 0 && ActingRows(Matches(people, name))[0] == people[i]
  {
    var rest := Matches(people[1..], name);
    if NameMatches(people[0], name) {
      var m := [people[0]] + rest;
      assert Matches(people, name) == m;
      assert m[0] == people[0] && m[1..] == rest;
      if i > 0 {
        ActingMatchesHead(people[1..], name, i - 1);
      }
    } else {
      assert Matches(people, name) == rest;
      ActingMatchesHead(people[1..], name, i - 1);
    }
  }

  /** Exactly one row has the name: that row is returned, whatever its profession. */
  lemma UniqueMatchIsReturned(people: seq<Person>, name: string, i: nat)
    requires i < |people| && NameMatches(people[i], name)
    requires forall j :: 0 <= j < |people| && j != i ==> !NameMatches(people[j], name)
    ensures FindActorNconst(people, name) == Success(people[i].nconst)
  {
    MatchesSingle(people, name, i);
  }

  /**
   * Several rows have the name and at least one of them has an acting
   * profession: the first such row in table order is returned.
   */
  lemma AmbiguousNamePrefersFirstActor(people: seq<Person>, name: string, i: nat, k: nat)
    requires i < |people| && NameMatches(people[i], name) && HasActingProfession(people[i])
    requires forall j :: 0 <= j < i ==> !(NameMatches(people[j], name) && HasActingProfession(people[j]))
    requires k < |people| && k != i && NameMatches(people[k], name)
    ensures FindActorNconst(people, name) == Success(people[i].nconst)
  {
    MatchesTwo(people, name, i, k);
    ActingMatchesHead(people, name, i);
  }

  /**
   * No row with the name has an acting profession: the first row with the
   * name in table order is returned.
   */
  lemma NoActorFallsBackToFirstMatch(people: seq<Person>, name: string, i: nat)
    requires i < |people| && NameMatches(people[i], name)
    requires forall j :: 0 <= j < i ==> !NameMatches(people[j], name)
    requires forall j :: 0 <= j < |people| && NameMatches(people[j], name) ==> !HasActingProfession(people[j])
    ensures FindActorNconst(people, name) == Success(people[i].nconst)
  {
    MatchesHead(people, name, i);
    var matches := Matches(people, name);
    ActingRowsNone(matches);
  }
}
