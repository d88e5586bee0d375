/** The weaver profile record of the bundled dataset, the free-text search
    both customer dashboards apply to it, and the flattened facet values. */
module Weavers {
  import opened Text
  import opened Seqs

  /** One entry of the dataset (the fields the dashboards read). */
  datatype Weaver = Weaver(
    name: string,
    region: string,
    bio: string,
    experienceYears: int,
    specialties: seq<string>,
    sareeTypes: seq<string>,
    patternsAvailable: seq<string>,
    contactEnabled: bool)

  // ---------------------------------------------------------------------
  // Free-text search

  predicate AnySpecialtyContains(specialties: seq<string>, lowerQuery: string) {
    exists s | s in specialties :: Contains(ToLower(s), lowerQuery)
  }

  /** The texts the search looks in: the name, the region, each specialty
      and the bio. */
  function SearchFields(w: Weaver): seq<string> {
    [w.name, w.region] + w.specialties + [w.bio]
  }

  /** Empty search matches every record; otherwise the lower-cased query must
      occur in the lower-cased form of one of the searched texts. */
  predicate SearchMatches(w: Weaver, query: string)
    ensures query == "" ==> SearchMatches(w, query)
    ensures SearchMatches(w, query) <==>
      query == "" || exists t | t in SearchFields(w) :: Contains(ToLower(t), ToLower(query))
  {
    query == ""
    || var q := ToLower(query);
       Contains(ToLower(w.name), q) || Contains(ToLower(w.region), q)
       || AnySpecialtyContains(w.specialties, q) || Contains(ToLower(w.bio), q)
  }

  /** The search does not depend on the case of the query. */
  lemma SearchIgnoresQueryCase(w: Weaver, query: string)
    ensures SearchMatches(w, query) == SearchMatches(w, ToLower(query))
  {
    ToLowerIdempotent(query);
  }

  /** A query found inside any one searched field selects the record. */
  lemma SearchFindsEachField(w: Weaver, query: string, before: string, after: string)
    requires ToLower(w.name) == before + ToLower(query) + after
          || ToLower(w.region) == before + ToLower(query) + after
          || ToLower(w.bio) == before + ToLower(query) + after
          || (exists s | s in w.specialties :: ToLower(s) == before + ToLower(query) + after)
    ensures SearchMatches(w, query)
  {
    ContainsInfix(before, ToLower(query), after);
  }

  // ---------------------------------------------------------------------
  // Facet values across the dataset (flatMap / map)

  function PatternValues(ws: seq<Weaver>): (r: seq<string>)
    ensures forall x :: x in r <==> exists w :: w in ws && x in w.patternsAvailable
  {
    if |ws| == 0 then []
    else
      assert ws == ws[..|ws| - 1] + [ws[|ws| - 1]];
      PatternValues(ws[..|ws| - 1]) + ws[|ws| - 1].patternsAvailable
  }

  function MaterialValues(ws: seq<Weaver>): (r: seq<string>)
    ensures forall x :: x in r <==> exists w :: w in ws && x in w.sareeTypes
  {
    if |ws| == 0 then []
    else
      assert ws == ws[..|ws| - 1] + [ws[|ws| - 1]];
      MaterialValues(ws[..|ws| - 1]) + ws[|ws| - 1].sareeTypes
  }

  function RegionValues(ws: seq<Weaver>): (r: seq<string>)
    ensures forall x :: x in r <==> exists w :: w in ws && w.region == x
  {
    if |ws| == 0 then []
    else
      assert ws == ws[..|ws| - 1] + [ws[|ws| - 1]];
      RegionValues(ws[..|ws| - 1]) + [ws[|ws| - 1].region]
  }
}
