/** The browsing view of the catalog: the search / category / price filter
    and the set of favourite artwork ids. */
module Gallery {
  import opened Records
  import opened Text
  import opened Seqs

  /** The three filter inputs; the empty string means "not constrained". */
  datatype Criteria = Criteria(searchTerm: string, category: string, priceRange: string)

  /** Case-insensitive search over the title or the artist's name. */
  predicate MatchesSearch(a: Artwork, term: string)
  {
    Includes(LowerStr(a.title), LowerStr(term)) || Includes(LowerStr(a.artistName), LowerStr(term))
  }

  /** An empty category accepts every artwork; any other must match exactly. */
  predicate MatchesCategory(a: Artwork, category: string)
  {
    category == "" || a.category == category
  }

  /** The four price buckets; the two middle ones both include 500. */
  predicate MatchesPrice(a: Artwork, priceRange: string)
  {
    priceRange == "" ||
    (priceRange == "under-100" && a.price < 100.0) ||
    (priceRange == "100-500" && 100.0 <= a.price <= 500.0) ||
    (priceRange == "500-1000" && 500.0 <= a.price <= 1000.0) ||
    (priceRange == "over-1000" && a.price > 1000.0)
  }

  /** The gallery shows an artwork when all three criteria accept it and it
      is not sold. */
  predicate Shown(a: Artwork, c: Criteria)
  {
    MatchesSearch(a, c.searchTerm) && MatchesCategory(a, c.category) &&
    MatchesPrice(a, c.priceRange) && !a.sold
  }

  /** `filteredArtworks`: the artworks the gallery displays, in catalog order. */
  function FilterArtworks(arts: seq<Artwork>, c: Criteria): (r: seq<Artwork>)
    ensures |r| <= |arts|
    ensures forall i :: 0 <= i < |r| ==> r[i] in arts && !r[i].sold
    ensures forall i :: 0 <= i < |r| ==> c.category != "" ==> r[i].category == c.category
    ensures forall i :: 0 <= i < |r| ==> MatchesSearch(r[i], c.searchTerm) && MatchesPrice(r[i], c.priceRange)
    ensures forall i :: 0 <= i < |arts| && Shown(arts[i], c) ==> arts[i] in r
  {
    Filter(arts, a => Shown(a, c))
  }

  /** The displayed artworks keep catalog order and nothing is added or
      duplicated: each shown artwork occurs exactly as often as in the
      catalog, every other one not at all. */
  lemma FilterArtworksIsStableSubset(arts: seq<Artwork>, c: Criteria, a: Artwork)
    ensures SubsequenceOf(FilterArtworks(arts, c), arts)
    ensures multiset(FilterArtworks(arts, c))[a] == if Shown(a, c) then multiset(arts)[a] else 0
  {
    FilterIsSubsequence(arts, x => Shown(x, c));
    FilterMultiplicity(arts, x => Shown(x, c), a);
  }

  /** With no search term, no category and no price range the gallery shows
      exactly the unsold artworks, in catalog order. */
  lemma EmptyCriteriaShowsUnsold(arts: seq<Artwork>)
    ensures FilterArtworks(arts, Criteria("", "", "")) == Filter(arts, (a: Artwork) => !a.sold)
  {
    forall i | 0 <= i < |arts|
      ensures Shown(arts[i], Criteria("", "", "")) == !arts[i].sold
    {
      IncludesEmpty(LowerStr(arts[i].title));
    }
    FilterAgree(arts, a => Shown(a, Criteria("", "", "")), (a: Artwork) => !a.sold);
  }

  /** The search accepts an artwork exactly when the lower-cased term occurs
      at some position of the lower-cased title or artist name. */
  lemma MatchesSearchIffOccurs(a: Artwork, term: string)
    ensures MatchesSearch(a, term) <==>
      Occurs(LowerStr(a.title), LowerStr(term)) || Occurs(LowerStr(a.artistName), LowerStr(term))
  {
    IncludesIffOccurrence(LowerStr(a.title), LowerStr(term));
    IncludesIffOccurrence(LowerStr(a.artistName), LowerStr(term));
  }

  /** Searching is insensitive to the case of the term. */
  lemma SearchIgnoresTermCase(a: Artwork, term: string)
    ensures MatchesSearch(a, LowerStr(term)) == MatchesSearch(a, term)
  {
    LowerStrIdempotent(term);
  }

  /** What each price bucket accepts; a price of exactly 500 falls into both
      middle buckets, and any other non-empty range accepts nothing. */
  lemma PriceBuckets(a: Artwork, priceRange: string)
    ensures MatchesPrice(a, "under-100") <==> a.price < 100.0
    ensures MatchesPrice(a, "100-500") <==> 100.0 <= a.price <= 500.0
    ensures MatchesPrice(a, "500-1000") <==> 500.0 <= a.price <= 1000.0
    ensures MatchesPrice(a, "over-1000") <==> a.price > 1000.0
    ensures a.price == 500.0 ==> MatchesPrice(a, "100-500") && MatchesPrice(a, "500-1000")
    ensures priceRange !in {"", "under-100", "100-500", "500-1000", "over-1000"} ==> !MatchesPrice(a, priceRange)
  {
  }

  /** A non-empty price range that names no bucket empties the gallery. */
  lemma UnknownPriceRangeShowsNothing(arts: seq<Artwork>, c: Criteria)
    requires c.priceRange !in {"", "under-100", "100-500", "500-1000", "over-1000"}
    ensures FilterArtworks(arts, c) == []
  {
    FilterNone(arts, a => Shown(a, c));
  }

  /** An unsold listing with the given id and price and empty text fields. */
  function Listing(id: int, price: real): (a: Artwork)
    ensures a.id == id && a.price == price && !a.sold
  {
    Artwork(id, "", "", price, "", "", "", "", 0, "", "", false)
  }

  /** Four listings priced 50, 150, 750 and 1500. */
  function SampleListings(): (arts: seq<Artwork>)
    ensures |arts| == 4
  {
    [Listing(1, 50.0), Listing(2, 150.0), Listing(3, 750.0), Listing(4, 1500.0)]
  }

  /** Of the four sample listings the `100-500` bucket shows only the one
      priced 150. */
  lemma MiddleBucketExample()
    ensures FilterArtworks(SampleListings(), Criteria("", "", "100-500")) == [Listing(2, 150.0)]
  {
    var a, b, c, d := Listing(1, 50.0), Listing(2, 150.0), Listing(3, 750.0), Listing(4, 1500.0);
    var mid := Criteria("", "", "100-500");
    IncludesEmpty(LowerStr(a.title));
    assert !Shown(a, mid) && Shown(b, mid) && !Shown(c, mid) && !Shown(d, mid);
    assert [a] + [b] + [c, d] == SampleListings();
    FilterSplice([a], b, [c, d], x => Shown(x, mid));
    FilterNone([a], x => Shown(x, mid));
    FilterNone([c, d], x => Shown(x, mid));
  }

  /** Of the four sample listings the `over-1000` bucket shows only the one
      priced 1500. */
  lemma TopBucketExample()
    ensures FilterArtworks(SampleListings(), Criteria("", "", "over-1000")) == [Listing(4, 1500.0)]
  {
    var a, b, c, d := Listing(1, 50.0), Listing(2, 150.0), Listing(3, 750.0), Listing(4, 1500.0);
    var top := Criteria("", "", "over-1000");
    IncludesEmpty(LowerStr(a.title));
    assert !Shown(a, top) && !Shown(b, top) && !Shown(c, top) && Shown(d, top);
    assert [a, b, c] + [d] + [] == SampleListings();
    FilterSplice([a, b, c], d, [], x => Shown(x, top));
    FilterNone([a, b, c], x => Shown(x, top));
  }

  /** `toggleFavorite`'s effect on the favourites: `id` changes membership,
      every other id keeps its own. */
  function Toggled(favorites: set<int>, id: int): (r: set<int>)
    ensures id in r <==> id !in favorites
    ensures forall x :: x != id ==> (x in r <==> x in favorites)
  {
    if id in favorites then favorites - {id} else favorites + {id}
  }

  /** Toggling the same id twice restores the favourites. */
  lemma ToggleTwiceRestores(favorites: set<int>, id: int)
    ensures Toggled(Toggled(favorites, id), id) == favorites
  {
  }

  /** The gallery's own state: the three filter inputs and the favourites. */
  class ArtGallery {
    var searchTerm: string
    var selectedCategory: string
    var priceRange: string
    var favoriteIds: set<int>

    constructor ()
      ensures searchTerm == "" && selectedCategory == "" && priceRange == ""
      ensures favoriteIds == {}
    {
      searchTerm, selectedCategory, priceRange := "", "", "";
      favoriteIds := {};
    }

    /** The filter inputs as they stand. */
    function CurrentCriteria(): Criteria
      reads this
    {
      Criteria(searchTerm, selectedCategory, priceRange)
    }

    /** The search box's change handler: only the search term changes. */
    method SetSearchTerm(term: string)
      modifies this
      ensures CurrentCriteria() == old(CurrentCriteria()).(searchTerm := term)
      ensures favoriteIds == old(favoriteIds)
    {
      searchTerm := term;
    }

    /** The category select's change handler: only the category changes. */
    method SetCategory(category: string)
      modifies this
      ensures CurrentCriteria() == old(CurrentCriteria()).(category := category)
      ensures favoriteIds == old(favoriteIds)
    {
      selectedCategory := category;
    }

    /** The price select's change handler: only the price range changes. */
    method SetPriceRange(range: string)
      modifies this
      ensures CurrentCriteria() == old(CurrentCriteria()).(priceRange := range)
      ensures favoriteIds == old(favoriteIds)
    {
      priceRange := range;
    }

    /** Copies the favourites, flips `id` in the copy and stores the copy. */
    method ToggleFavorite(id: int)
      modifies this
      ensures favoriteIds == Toggled(old(favoriteIds), id)
      ensures CurrentCriteria() == old(CurrentCriteria())
    {
      var newFavorites := favoriteIds;
      if id in newFavorites {
        newFavorites := newFavorites - {id};
      } else {
        newFavorites := newFavorites + {id};
      }
      favoriteIds := newFavorites;
    }
  }
}
