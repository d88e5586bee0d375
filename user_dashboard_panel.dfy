/** The customer dashboard panel (components/pages/user-dashboard.tsx): the
    same catalogue with three facets whose "no selection" value is a named
    sentinel, option lists collected into a `Set` by loops, an exact region
    match, and twelve records to a page. */
module UserDashboardPanel {
  import opened Text
  import opened Seqs
  import opened Weavers
  import opened Pagination
  import Page = UserDashboardPage

  // ---------------------------------------------------------------------
  // Facet option lists, collected with `forEach` and `Set.add`

  /** The inner `forEach(v => set.add(v))`: adds each of `items` in turn to
      the set `seen`, which holds the distinct values of `before`. */
  method AddEach(seen: seq<string>, ghost before: seq<string>, items: seq<string>) returns (r: seq<string>)
    requires seen == Dedup(before)
    ensures r == Dedup(before + items)
  {
    r := seen;
    var j := 0;
    assert before + items[..0] == before;
    while j < |items|
      invariant 0 <= j <= |items|
      invariant r == Dedup(before + items[..j])
    {
      assert before + items[..j + 1] == (before + items[..j]) + [items[j]];
      DedupSnoc(before + items[..j], items[j]);
      r := SetAdd(r, items[j]);
      j := j + 1;
    }
    assert items[..j] == items;
  }

  /** `uniquePatterns`: every pattern of every weaver added to a set, then
      sorted; the list the page computes for the same dataset. */
  method UniquePatterns(ws: seq<Weaver>) returns (r: seq<string>)
    ensures r == Page.Patterns(ws)
  {
    var patterns: seq<string> := [];
    var i := 0;
    while i < |ws|
      invariant 0 <= i <= |ws|
      invariant patterns == Dedup(PatternValues(ws[..i]))
    {
      assert ws[..i + 1][..i] == ws[..i];
      patterns := AddEach(patterns, PatternValues(ws[..i]), ws[i].patternsAvailable);
      i := i + 1;
    }
    assert ws[..i] == ws;
    r := Sort(patterns);
  }

  /** `uniqueMaterials`: the same over the saree types; the page's list. */
  method UniqueMaterials(ws: seq<Weaver>) returns (r: seq<string>)
    ensures r == Page.Materials(ws)
  {
    var materials: seq<string> := [];
    var i := 0;
    while i < |ws|
      invariant 0 <= i <= |ws|
      invariant materials == Dedup(MaterialValues(ws[..i]))
    {
      assert ws[..i + 1][..i] == ws[..i];
      materials := AddEach(materials, MaterialValues(ws[..i]), ws[i].sareeTypes);
      i := i + 1;
    }
    assert ws[..i] == ws;
    r := Sort(materials);
  }

  /** `uniqueRegions`: each weaver's region added to a set, then sorted; the
      page's list. */
  method UniqueRegions(ws: seq<Weaver>) returns (r: seq<string>)
    ensures r == Page.Regions(ws)
  {
    var regions: seq<string> := [];
    var i := 0;
    while i < |ws|
      invariant 0 <= i <= |ws|
      invariant regions == Dedup(RegionValues(ws[..i]))
    {
      assert ws[..i + 1][..i] == ws[..i];
      assert RegionValues(ws[..i + 1]) == RegionValues(ws[..i]) + [ws[i].region];
      DedupSnoc(RegionValues(ws[..i]), ws[i].region);
      regions := SetAdd(regions, ws[i].region);
      i := i + 1;
    }
    assert ws[..i] == ws;
    r := Sort(regions);
  }

  // ---------------------------------------------------------------------
  // Filters with sentinels

  const AllPatterns: string := "allPatterns"
  const AllMaterials: string := "allMaterials"
  const AllRegions: string := "allRegions"

  datatype Facet = Pattern | Material | Region

  function Sentinel(facet: Facet): string {
    match facet
    case Pattern => AllPatterns
    case Material => AllMaterials
    case Region => AllRegions
  }

  datatype Filters = Filters(pattern: string, material: string, region: string)
  {
    function Get(f: Facet): string {
      match f
      case Pattern => pattern
      case Material => material
      case Region => region
    }

    /** `{ ...filters, [f]: v }`. */
    function With(f: Facet, v: string): (r: Filters)
      ensures r.Get(f) == v
      ensures forall g :: g != f ==> r.Get(g) == Get(g)
    {
      match f
      case Pattern => this.(pattern := v)
      case Material => this.(material := v)
      case Region => this.(region := v)
    }
  }

  /** The initial selection and the one "Clear Filters" restores. */
  const Unfiltered: Filters := Filters(AllPatterns, AllMaterials, AllRegions)

  /** Search, pattern, material and region tests all pass; the region must
      equal the selection exactly. */
  predicate Matches(w: Weaver, searchTerm: string, f: Filters)
    ensures searchTerm == "" && f == Unfiltered ==> Matches(w, searchTerm, f)
    ensures Matches(w, searchTerm, f) ==> Page.Keep(w, searchTerm, AsPageFilters(f))
  {
    ContainsSelfAndEmpty(w.region);
    && SearchMatches(w, searchTerm)
    && (f.pattern == AllPatterns || f.pattern in w.patternsAvailable)
    && (f.material == AllMaterials || f.material in w.sareeTypes)
    && (f.region == AllRegions || w.region == f.region)
  }

  function MatchesFn(searchTerm: string, f: Filters): Weaver -> bool {
    (w: Weaver) => Matches(w, searchTerm, f)
  }

  /** `weaversData.filter(...)`. */
  function FilteredWeavers(ws: seq<Weaver>, searchTerm: string, f: Filters): (r: seq<Weaver>)
    ensures |r| <= |ws|
    ensures forall w :: w in r ==> Matches(w, searchTerm, f)
  {
    Filter(ws, MatchesFn(searchTerm, f))
  }

  /** The result is exactly the records passing all four tests, in dataset order. */
  lemma FilteredWeaversSpec(ws: seq<Weaver>, searchTerm: string, f: Filters)
    ensures IsSubsequence(FilteredWeavers(ws, searchTerm, f), ws)
    ensures forall w :: w in FilteredWeavers(ws, searchTerm, f) <==> w in ws && Matches(w, searchTerm, f)
    ensures forall w :: multiset(FilteredWeavers(ws, searchTerm, f))[w]
                     == if Matches(w, searchTerm, f) then multiset(ws)[w] else 0
  {
    forall w ensures multiset(FilteredWeavers(ws, searchTerm, f))[w]
                  == if Matches(w, searchTerm, f) then multiset(ws)[w] else 0
    {
      FilterCount(ws, MatchesFn(searchTerm, f), w);
    }
    forall w | w in ws && Matches(w, searchTerm, f) ensures w in FilteredWeavers(ws, searchTerm, f) {
      var i :| 0 <= i < |ws| && ws[i] == w;
      assert MatchesFn(searchTerm, f)(ws[i]);
    }
  }

  /** All sentinels and an empty search give back the whole dataset. */
  lemma UnfilteredKeepsAll(ws: seq<Weaver>)
    ensures FilteredWeavers(ws, "", Unfiltered) == ws
  {
    FilterKeepsAll(ws, MatchesFn("", Unfiltered));
  }

  /** A sentinel imposes no constraint: whatever another value of that facet
      keeps, the sentinel keeps too. */
  lemma SentinelWidest(ws: seq<Weaver>, searchTerm: string, f: Filters, facet: Facet, v: string)
    ensures IsSubsequence(FilteredWeavers(ws, searchTerm, f.With(facet, v)),
                          FilteredWeavers(ws, searchTerm, f.With(facet, Sentinel(facet))))
  {
    FilterNarrows(ws, MatchesFn(searchTerm, f.With(facet, v)), MatchesFn(searchTerm, f.With(facet, Sentinel(facet))));
  }

  /** The same selection expressed in the page's filters, where "" means no
      selection and colour and price are unset. */
  function AsPageFilters(f: Filters): Page.Filters {
    Page.Filters(
      if f.pattern == AllPatterns then "" else f.pattern,
      if f.material == AllMaterials then "" else f.material,
      "",
      if f.region == AllRegions then "" else f.region,
      "")
  }

  /** Exact region equality is stricter than the page's substring test: the
      panel's result is a sub-sequence of the page's for the same selection. */
  lemma ExactRegionNarrowerThanPage(ws: seq<Weaver>, searchTerm: string, f: Filters)
    ensures IsSubsequence(FilteredWeavers(ws, searchTerm, f),
                          Filter(ws, Page.KeepWeaver(searchTerm, AsPageFilters(f))))
  {
    FilterNarrows(ws, MatchesFn(searchTerm, f), Page.KeepWeaver(searchTerm, AsPageFilters(f)));
  }

  /** The two region tests differ: "Bengal" selects a West Bengal weaver on
      the page but not on the panel. */
  lemma RegionTestsDiffer()
    ensures var w := Weaver("Mita", "West Bengal", "", 3, [], [], [], true);
            !Matches(w, "", Unfiltered.With(Region, "Bengal"))
            && Page.Keep(w, "", Page.NoFilters.With(Page.Region, "Bengal"))
  {
    var w := Weaver("Mita", "West Bengal", "", 3, [], [], [], true);
    ContainsInfix("West ", "Bengal", "");
    assert w.region == "West " + "Bengal" + "";
  }

  // ---------------------------------------------------------------------
  // The panel's state and its handlers

  class DirectoryView {
    const weavers: seq<Weaver>
    var searchTerm: string
    var filters: Filters
    var currentPage: int

    constructor (weavers: seq<Weaver>)
      ensures this.weavers == weavers
      ensures searchTerm == "" && filters == Unfiltered && currentPage == 1
    {
      this.weavers := weavers;
      searchTerm := "";
      filters := Unfiltered;
      currentPage := 1;
    }

    function Filtered(): seq<Weaver>
      reads this
    {
      FilteredWeavers(weavers, searchTerm, filters)
    }

    function PageCount(): nat
      reads this
    {
      TotalPages(|Filtered()|)
    }

    function Visible(): seq<Weaver>
      reads this
    {
      PageSlice(Filtered(), currentPage)
    }

    predicate PageInRange()
      reads this
    {
      1 <= currentPage <= Max(1, PageCount())
    }

    method SetSearchTerm(text: string)
      modifies this
      ensures searchTerm == text && filters == old(filters) && currentPage == 1
      ensures PageInRange()
    {
      searchTerm := text;
      currentPage := 1;
    }

    method SelectFacet(facet: Facet, value: string)
      modifies this
      ensures filters == old(filters).With(facet, value)
      ensures searchTerm == old(searchTerm) && currentPage == 1
      ensures PageInRange()
    {
      filters := filters.With(facet, value);
      currentPage := 1;
    }

    method ClearFilters()
      modifies this
      ensures filters == Unfiltered && searchTerm == "" && currentPage == 1
      ensures Filtered() == weavers
    {
      filters := Unfiltered;
      searchTerm := "";
      currentPage := 1;
      UnfilteredKeepsAll(weavers);
    }

    /** The page controls are shown only when there are at least two pages. */
    method Previous()
      requires PageCount() > 1
      modifies this
      ensures currentPage == Max(1, old(currentPage) - 1)
      ensures filters == old(filters) && searchTerm == old(searchTerm)
      ensures old(PageInRange()) ==> PageInRange() && Visible() != []
    {
      currentPage := Max(1, currentPage - 1);
      PageOccupancy(Filtered(), currentPage);
    }

    method Next()
      requires PageCount() > 1
      modifies this
      ensures currentPage == Min(old(PageCount()), old(currentPage) + 1)
      ensures filters == old(filters) && searchTerm == old(searchTerm)
      ensures old(PageInRange()) ==> PageInRange() && Visible() != []
    {
      currentPage := Min(PageCount(), currentPage + 1);
      PageOccupancy(Filtered(), currentPage);
    }
  }
}
