/** The customer dashboard page (app/user-dashboard/page.tsx): every record
    is enriched with a rating and a price range, the facet option lists are
    drawn from the dataset, and the records are filtered by a free-text
    search and five facets, then shown twelve to a page. */
module UserDashboardPage {
  import opened Text
  import opened Seqs
  import opened Weavers
  import opened Pagination

  // ---------------------------------------------------------------------
  // Rating, in tenths of a star

  /** 4.3 below five years of experience, then a step up at 5, 10, 15, 20
      and 25 years: 4.5, 4.6, 4.7, 4.8, 4.9. */
  function RatingTenths(experience: int): (r: int)
    ensures r in {43, 45, 46, 47, 48, 49}
  {
    if experience >= 25 then 49
    else if experience >= 20 then 48
    else if experience >= 15 then 47
    else if experience >= 10 then 46
    else if experience >= 5 then 45
    else 43
  }

  function Step(reached: bool, amount: int): int { if reached then amount else 0 }

  /** The rating counts the thresholds reached: 4.3, plus 0.2 for five years,
      plus 0.1 for each further threshold; so it never decreases with
      experience. */
  lemma RatingCountsThresholds(experience: int, more: int)
    ensures RatingTenths(experience)
         == 43 + Step(experience >= 5, 2) + Step(experience >= 10, 1) + Step(experience >= 15, 1)
               + Step(experience >= 20, 1) + Step(experience >= 25, 1)
    ensures experience <= more ==> RatingTenths(experience) <= RatingTenths(more)
  {
  }

  // ---------------------------------------------------------------------
  // Price range

  predicate AnyContains(specialties: seq<string>, word: string) {
    exists s | s in specialties :: Contains(s, word)
  }

  predicate HasZari(specialties: seq<string>) {
    AnyContains(specialties, "Zari")
  }

  predicate HasSilk(specialties: seq<string>) {
    exists s | s in specialties :: Contains(s, "Silk") || Contains(s, "Kanjivaram") || Contains(s, "Banarasi")
  }

  /** The price multiplier in tenths: 1, plus 0.5 for Zari work, plus 0.3
      for silk, Kanjivaram or Banarasi work. */
  function MultiplierTenths(specialties: seq<string>): (m: int)
    ensures m in {10, 13, 15, 18}
    ensures m >= 15 <==> HasZari(specialties)
    ensures m % 5 != 0 <==> HasSilk(specialties)
  {
    10 + (if HasZari(specialties) then 5 else 0) + (if HasSilk(specialties) then 3 else 0)
  }

  datatype PriceRange = PriceRange(min: int, max: int)

  /** `Math.floor(experience * 1000 * multiplier)` is `experience * 100 * m`
      exactly when the multiplier is `m` tenths; the minimum price is that
      amount but never below 2000, and the maximum is two and a half times
      the minimum. */
  function CalculatePriceRange(experience: int, specialties: seq<string>): (r: PriceRange)
    ensures 2000 <= r.min <= r.max
    ensures r.min >= experience * 100 * MultiplierTenths(specialties)
    ensures r.min == 2000 || r.min == experience * 100 * MultiplierTenths(specialties)
    ensures 2 * r.max == 5 * r.min
  {
    var m := MultiplierTenths(specialties);
    var scaled := experience * 100 * m;
    assert scaled == 2 * (experience * 50 * m);
    var min := Max(2000, scaled);
    PriceRange(min, (min * 5) / 2)
  }

  /** A newcomer's range is 2000 to 5000 whatever the specialties. */
  lemma NewcomerPrice(specialties: seq<string>)
    ensures CalculatePriceRange(0, specialties) == PriceRange(2000, 5000)
  {
  }

  /** More experience never lowers the price range. */
  lemma PriceGrowsWithExperience(a: int, b: int, specialties: seq<string>)
    requires 0 <= a <= b
    ensures CalculatePriceRange(a, specialties).min <= CalculatePriceRange(b, specialties).min
    ensures CalculatePriceRange(a, specialties).max <= CalculatePriceRange(b, specialties).max
  {
    var m := MultiplierTenths(specialties);
    assert a * 100 * m <= b * 100 * m by {
      assert (b - a) * (100 * m) >= 0;
    }
  }

  /** The displayed label `₹min-₹max`, with the locale's number formatting
      given as `format`. */
  function PriceLabel(r: PriceRange, format: int -> string): (shown: string)
    ensures |shown| >= 3 && shown[0] == '₹'
    ensures Contains(shown, format(r.min)) && Contains(shown, format(r.max))
  {
    var lo, hi := format(r.min), format(r.max);
    ContainsInfix("₹", lo, "-₹" + hi);
    ContainsInfix("₹" + lo + "-₹", hi, "");
    assert "₹" + lo + ("-₹" + hi) == "₹" + lo + "-₹" + hi;
    assert "₹" + lo + "-₹" + hi + "" == "₹" + lo + "-₹" + hi;
    "₹" + lo + "-₹" + hi
  }

  // ---------------------------------------------------------------------
  // Enriched records

  datatype Enhanced = Enhanced(
    weaver: Weaver,
    ratingTenths: int,
    priceRange: PriceRange,
    available: bool,
    verified: bool)

  /** One record with its rating, price range, availability and the
      verified badge every record carries. */
  function Enhance(w: Weaver): (e: Enhanced)
    ensures e.weaver == w
    ensures 43 <= e.ratingTenths <= 49
    ensures 2000 <= e.priceRange.min <= e.priceRange.max
    ensures e.available == w.contactEnabled && e.verified
  {
    Enhanced(w, RatingTenths(w.experienceYears),
             CalculatePriceRange(w.experienceYears, w.specialties),
             w.contactEnabled, true)
  }

  /** `weaversData.map(...)`: one enriched record per record, in order. */
  function EnhancedWeavers(ws: seq<Weaver>): (es: seq<Enhanced>)
    ensures |es| == |ws|
    ensures forall i :: 0 <= i < |ws| ==> es[i] == Enhance(ws[i]) && es[i].weaver == ws[i]
  {
    Map(ws, Enhance)
  }

  // ---------------------------------------------------------------------
  // Facet option lists

  // Each option list is strictly sorted, so free of duplicates, and holds
  // exactly the values that occur in the dataset.

  function Patterns(ws: seq<Weaver>): (r: seq<string>)
    ensures StrictlySorted(r)
    ensures forall x :: x in r <==> exists w :: w in ws && x in w.patternsAvailable
  {
    SortedDistinct(PatternValues(ws))
  }

  function Materials(ws: seq<Weaver>): (r: seq<string>)
    ensures StrictlySorted(r)
    ensures forall x :: x in r <==> exists w :: w in ws && x in w.sareeTypes
  {
    SortedDistinct(MaterialValues(ws))
  }

  function Regions(ws: seq<Weaver>): (r: seq<string>)
    ensures StrictlySorted(r)
    ensures forall x :: x in r <==> exists w :: w in ws && w.region == x
  {
    SortedDistinct(RegionValues(ws))
  }

  /** The only price bucket the filter acts on. */
  const TopBucket: string := "₹50,000+"

  /** The option lists do not depend on the order of the records. */
  lemma FacetListsIgnoreRecordOrder(ws: seq<Weaver>, vs: seq<Weaver>)
    requires multiset(ws) == multiset(vs)
    ensures Patterns(ws) == Patterns(vs)
    ensures Materials(ws) == Materials(vs)
    ensures Regions(ws) == Regions(vs)
  {
    assert forall w :: w in ws <==> w in vs by {
      forall w ensures w in ws <==> w in vs {
        assert w in ws <==> w in multiset(ws);
        assert w in vs <==> w in multiset(vs);
      }
    }
    SortedDistinctDeterminedBySet(PatternValues(ws), PatternValues(vs));
    SortedDistinctDeterminedBySet(MaterialValues(ws), MaterialValues(vs));
    SortedDistinctDeterminedBySet(RegionValues(ws), RegionValues(vs));
  }

  // ---------------------------------------------------------------------
  // Query state and the filter

  datatype Facet = Pattern | Material | Color | Region | Price

  /** The five facet selections; "" means no selection. */
  datatype Filters = Filters(pattern: string, material: string, color: string, region: string, priceRange: string)
  {
    function Get(f: Facet): string {
      match f
      case Pattern => pattern
      case Material => material
      case Color => color
      case Region => region
      case Price => priceRange
    }

    /** `{ ...filters, [f]: v }`. */
    function With(f: Facet, v: string): (r: Filters)
      ensures r.Get(f) == v
      ensures forall g :: g != f ==> r.Get(g) == Get(g)
    {
      match f
      case Pattern => this.(pattern := v)
      case Material => this.(material := v)
      case Color => this.(color := v)
      case Region => this.(region := v)
      case Price => this.(priceRange := v)
    }
  }

  const NoFilters: Filters := Filters("", "", "", "", "")

  /** Zari, Kanjivaram or Banarasi work (silk alone does not count here). */
  predicate HighEnd(specialties: seq<string>) {
    exists s | s in specialties :: Contains(s, "Zari") || Contains(s, "Kanjivaram") || Contains(s, "Banarasi")
  }

  predicate PricePasses(w: Weaver, priceRange: string) {
    priceRange == "" || !(priceRange == TopBucket && !HighEnd(w.specialties))
  }

  /** The record passes the search and every selected facet; colour is
      never consulted and the region is a substring test. */
  predicate Keep(w: Weaver, search: string, f: Filters)
    ensures search == "" && f == NoFilters ==> Keep(w, search, f)
    ensures Keep(w, search, f) ==> SearchMatches(w, search)
  {
    && SearchMatches(w, search)
    && (f.pattern == "" || f.pattern in w.patternsAvailable)
    && (f.material == "" || f.material in w.sareeTypes)
    && (f.region == "" || Contains(w.region, f.region))
    && PricePasses(w, f.priceRange)
  }

  function KeepWeaver(search: string, f: Filters): Weaver -> bool {
    (w: Weaver) => Keep(w, search, f)
  }

  function KeepEnhanced(search: string, f: Filters): Enhanced -> bool {
    (e: Enhanced) => Keep(e.weaver, search, f)
  }

  /** `enhancedWeavers.filter(...)`. */
  function FilteredWeavers(ws: seq<Weaver>, search: string, f: Filters): (r: seq<Enhanced>)
    ensures |r| <= |ws|
    ensures forall e :: e in r ==> Keep(e.weaver, search, f)
  {
    Filter(EnhancedWeavers(ws), KeepEnhanced(search, f))
  }

  /** The result keeps dataset order, holds exactly the enriched records
      that pass every test, and is the enrichment of the passing records. */
  lemma FilteredWeaversSpec(ws: seq<Weaver>, search: string, f: Filters)
    ensures IsSubsequence(FilteredWeavers(ws, search, f), EnhancedWeavers(ws))
    ensures forall e :: e in FilteredWeavers(ws, search, f) <==> e in EnhancedWeavers(ws) && Keep(e.weaver, search, f)
    ensures FilteredWeavers(ws, search, f) == Map(Filter(ws, KeepWeaver(search, f)), Enhance)
    ensures forall e :: multiset(FilteredWeavers(ws, search, f))[e]
                     == if Keep(e.weaver, search, f) then multiset(EnhancedWeavers(ws))[e] else 0
  {
    FilterMap(ws, Enhance, KeepWeaver(search, f), KeepEnhanced(search, f));
    forall e ensures multiset(FilteredWeavers(ws, search, f))[e]
                  == if Keep(e.weaver, search, f) then multiset(EnhancedWeavers(ws))[e] else 0
    {
      FilterCount(EnhancedWeavers(ws), KeepEnhanced(search, f), e);
    }
    forall e | e in EnhancedWeavers(ws) && Keep(e.weaver, search, f)
      ensures e in FilteredWeavers(ws, search, f)
    {
      var i :| 0 <= i < |EnhancedWeavers(ws)| && EnhancedWeavers(ws)[i] == e;
      assert KeepEnhanced(search, f)(EnhancedWeavers(ws)[i]);
    }
  }

  /** With no search and no facet selected, every record is shown. */
  lemma EmptyQueryKeepsAll(ws: seq<Weaver>)
    ensures FilteredWeavers(ws, "", NoFilters) == EnhancedWeavers(ws)
  {
    FilterKeepsAll(EnhancedWeavers(ws), KeepEnhanced("", NoFilters));
  }

  /** The colour selection never changes the result. */
  lemma ColorNeverFilters(ws: seq<Weaver>, search: string, f: Filters, color: string)
    ensures FilteredWeavers(ws, search, f.With(Color, color)) == FilteredWeavers(ws, search, f)
  {
    FilterExtensional(EnhancedWeavers(ws), KeepEnhanced(search, f.With(Color, color)), KeepEnhanced(search, f));
  }

  /** Every price selection other than "₹50,000+" leaves the result as if no
      price were selected; "₹50,000+" keeps exactly the Zari, Kanjivaram or
      Banarasi weavers of that result. */
  lemma PriceFilterOnlyTopBucket(ws: seq<Weaver>, search: string, f: Filters, bucket: string)
    ensures bucket != TopBucket ==>
      FilteredWeavers(ws, search, f.With(Price, bucket)) == FilteredWeavers(ws, search, f.With(Price, ""))
    ensures bucket == TopBucket ==>
      FilteredWeavers(ws, search, f.With(Price, bucket))
      == Filter(FilteredWeavers(ws, search, f.With(Price, "")), IsHighEnd)
  {
    var xs := EnhancedWeavers(ws);
    if bucket != TopBucket {
      FilterExtensional(xs, KeepEnhanced(search, f.With(Price, bucket)), KeepEnhanced(search, f.With(Price, "")));
    } else {
      FilterConjunction(xs, IsHighEnd, KeepEnhanced(search, f.With(Price, "")), KeepEnhanced(search, f.With(Price, bucket)));
    }
  }

  predicate IsHighEnd(e: Enhanced) { HighEnd(e.weaver.specialties) }

  /** Selecting a value for any facet, or typing a search, never adds
      records: the result is a sub-sequence of the result without it. */
  lemma SelectionNarrows(ws: seq<Weaver>, search: string, f: Filters, facet: Facet, v: string)
    ensures IsSubsequence(FilteredWeavers(ws, search, f.With(facet, v)), FilteredWeavers(ws, search, f.With(facet, "")))
    ensures IsSubsequence(FilteredWeavers(ws, search, f), FilteredWeavers(ws, "", f))
  {
    FilterNarrows(EnhancedWeavers(ws), KeepEnhanced(search, f.With(facet, v)), KeepEnhanced(search, f.With(facet, "")));
    FilterNarrows(EnhancedWeavers(ws), KeepEnhanced(search, f), KeepEnhanced("", f));
  }

  // ---------------------------------------------------------------------
  // Summary badges

  predicate IsAvailable(e: Enhanced) { e.available }
  predicate IsVerified(e: Enhanced) { e.verified }

  function AvailableCount(rs: seq<Enhanced>): nat { |Filter(rs, IsAvailable)| }
  function VerifiedCount(rs: seq<Enhanced>): nat { |Filter(rs, IsVerified)| }

  /** "Available Now" counts the weavers accepting contact and never exceeds
      the total; "Verified" always equals the total. */
  lemma SummaryCounts(ws: seq<Weaver>, search: string, f: Filters)
    ensures AvailableCount(FilteredWeavers(ws, search, f)) <= |FilteredWeavers(ws, search, f)|
    ensures VerifiedCount(FilteredWeavers(ws, search, f)) == |FilteredWeavers(ws, search, f)|
    ensures forall e :: e in Filter(FilteredWeavers(ws, search, f), IsAvailable) <==>
              e in FilteredWeavers(ws, search, f) && e.weaver.contactEnabled
  {
    var rs := FilteredWeavers(ws, search, f);
    forall i | 0 <= i < |rs| ensures IsVerified(rs[i]) && (rs[i].available == rs[i].weaver.contactEnabled) {
      assert rs[i] in EnhancedWeavers(ws);
      var j :| 0 <= j < |ws| && EnhancedWeavers(ws)[j] == rs[i];
    }
    FilterKeepsAll(rs, IsVerified);
    forall e | e in rs && e.weaver.contactEnabled ensures e in Filter(rs, IsAvailable) {
      var i :| 0 <= i < |rs| && rs[i] == e;
    }
  }

  // ---------------------------------------------------------------------
  // The page's state and its handlers

  class CatalogueView {
    const weavers: seq<Weaver>
    var filters: Filters
    var searchQuery: string
    var currentPage: int

    constructor (weavers: seq<Weaver>)
      ensures this.weavers == weavers
      ensures filters == NoFilters && searchQuery == "" && currentPage == 1
    {
      this.weavers := weavers;
      filters := NoFilters;
      searchQuery := "";
      currentPage := 1;
    }

    function Filtered(): seq<Enhanced>
      reads this
    {
      FilteredWeavers(weavers, searchQuery, filters)
    }

    function PageCount(): nat
      reads this
    {
      TotalPages(|Filtered()|)
    }

    function Visible(): seq<Enhanced>
      reads this
    {
      PageSlice(Filtered(), currentPage)
    }

    function Buttons(): seq<int>
      reads this
    {
      PageButtons(currentPage, PageCount())
    }

    /** The current page is a real page, or page 1 of an empty result. */
    predicate PageInRange()
      reads this
    {
      1 <= currentPage <= Max(1, PageCount())
    }

    /** Typing in the search box. */
    method Search(text: string)
      modifies this
      ensures searchQuery == text && filters == old(filters) && currentPage == 1
      ensures PageInRange()
    {
      searchQuery := text;
      currentPage := 1;
    }

    /** Choosing a value in one facet's drop-down. */
    method SelectFacet(facet: Facet, value: string)
      modifies this
      ensures filters == old(filters).With(facet, value)
      ensures searchQuery == old(searchQuery) && currentPage == 1
      ensures PageInRange()
    {
      filters := filters.With(facet, value);
      currentPage := 1;
    }

    /** "Clear All Filters". */
    method ClearFilters()
      modifies this
      ensures filters == NoFilters && searchQuery == "" && currentPage == 1
      ensures PageInRange()
    {
      filters := NoFilters;
      searchQuery := "";
      currentPage := 1;
    }

    /** "Previous"; the pagination bar is shown only when there are at least
        two pages. */
    method Previous()
      requires PageCount() > 1
      modifies this
      ensures currentPage == Max(1, old(currentPage) - 1)
      ensures filters == old(filters) && searchQuery == old(searchQuery)
      ensures old(PageInRange()) ==> PageInRange() && Visible() != []
    {
      currentPage := Max(1, currentPage - 1);
      PageOccupancy(Filtered(), currentPage);
    }

    /** "Next". */
    method Next()
      requires PageCount() > 1
      modifies this
      ensures currentPage == Min(old(PageCount()), old(currentPage) + 1)
      ensures filters == old(filters) && searchQuery == old(searchQuery)
      ensures old(PageInRange()) ==> PageInRange() && Visible() != []
    {
      currentPage := Min(PageCount(), currentPage + 1);
      PageOccupancy(Filtered(), currentPage);
    }

    /** Clicking a numbered page button. */
    method GoToPage(n: int)
      requires n in Buttons()
      modifies this
      ensures currentPage == n
      ensures filters == old(filters) && searchQuery == old(searchQuery)
      ensures PageInRange() && Visible() != []
    {
      currentPage := n;
      PageOccupancy(Filtered(), currentPage);
    }
  }
}
