/** The page controller: the catalog and cart state of the whole app and the
    handlers that replace it. */
module Marketplace {
  import opened Records
  import opened Seqs
  import opened Cart
  import Gallery

  // The six artworks the app ships with.

  const AbstractDreams: Artwork := Artwork(1, "Abstract Dreams",
    "A vibrant abstract painting exploring the realm of dreams and imagination.",
    450.0, "painting", "Acrylic on canvas", "24x36 inches",
    "https://images.unsplash.com/photo-1541961017774-22349e4a1262?w=400&h=400&fit=crop",
    1, "Sarah Johnson", "2024-01-15", false)

  const CityLights: Artwork := Artwork(2, "City Lights",
    "A stunning photograph capturing the energy of urban nightlife.",
    320.0, "photography", "Digital photography", "20x30 inches",
    "https://images.unsplash.com/photo-1514905552197-0610a4d8fd73?w=400&h=400&fit=crop",
    2, "Mike Chen", "2024-01-20", false)

  const Serenity: Artwork := Artwork(3, "Serenity",
    "A peaceful landscape painting of a mountain lake at sunrise.",
    680.0, "painting", "Oil on canvas", "30x40 inches",
    "https://images.unsplash.com/photo-1506905925346-21bda4d32df4?w=400&h=400&fit=crop",
    3, "Emma Rodriguez", "2024-01-25", false)

  const DigitalHarmony: Artwork := Artwork(4, "Digital Harmony",
    "A modern digital art piece exploring color and form.",
    280.0, "digital", "Digital art", "16x20 inches print",
    "https://images.unsplash.com/photo-1549490349-8643362247b5?w=400&h=400&fit=crop",
    4, "Alex Thompson", "2024-02-01", false)

  const OceanWaves: Artwork := Artwork(5, "Ocean Waves",
    "A dynamic seascape capturing the power and beauty of ocean waves.",
    520.0, "painting", "Watercolor", "18x24 inches",
    "https://images.unsplash.com/photo-1439066615861-d1af74d74000?w=400&h=400&fit=crop",
    5, "David Kim", "2024-02-05", false)

  const UrbanPortrait: Artwork := Artwork(6, "Urban Portrait",
    "A striking black and white portrait photography.",
    380.0, "photography", "Black & white photography", "16x24 inches",
    "https://images.unsplash.com/photo-1494790108755-2616c047884c?w=400&h=400&fit=crop",
    6, "Lisa Park", "2024-02-10", false)

  /** The catalog shipped with the app. */
  const SampleArtworks: seq<Artwork> := [AbstractDreams, CityLights, Serenity, DigitalHarmony, OceanWaves, UrbanPortrait]

  /** The shipped catalog has six unsold artworks with distinct ids. */
  lemma SampleArtworksWellFormed()
    ensures |SampleArtworks| == 6
    ensures DistinctArtworkIds(SampleArtworks)
    ensures forall i :: 0 <= i < |SampleArtworks| ==> !SampleArtworks[i].sold
  {
  }

  // ---------------------------------------------------------------------
  // Startup merge

  /** The saved artworks, then the samples whose ids none of them has. */
  function MergeArtworks(saved: seq<Artwork>, samples: seq<Artwork>): (r: seq<Artwork>)
    ensures |saved| <= |r| <= |saved| + |samples|
    ensures r[..|saved|] == saved
    ensures forall i :: |saved| <= i < |r| ==> r[i] in samples && r[i].id !in ArtworkIds(saved)
    ensures forall i :: 0 <= i < |samples| && samples[i].id !in ArtworkIds(saved) ==> samples[i] in r[|saved|..]
  {
    var existingIds := ArtworkIds(saved);
    var newSamples := Filter(samples, (a: Artwork) => a.id !in existingIds);
    assert (saved + newSamples)[|saved|..] == newSamples;
    saved + newSamples
  }

  /** The catalog after start-up: the samples when nothing was saved,
      otherwise the saved artworks merged with the samples. */
  function LoadArtworks(saved: Option<seq<Artwork>>): (r: seq<Artwork>)
    ensures saved.None? ==> r == SampleArtworks
    ensures saved.Some? ==> r == MergeArtworks(saved.value, SampleArtworks)
  {
    match saved
    case None => SampleArtworks
    case Some(s) => MergeArtworks(s, SampleArtworks)
  }

  /** The samples that survive a merge keep their relative order. */
  lemma MergeKeepsSampleOrder(saved: seq<Artwork>, samples: seq<Artwork>)
    ensures SubsequenceOf(MergeArtworks(saved, samples)[|saved|..], samples)
  {
    var ids := ArtworkIds(saved);
    var p := (a: Artwork) => a.id !in ids;
    assert MergeArtworks(saved, samples)[|saved|..] == Filter(samples, p);
    FilterIsSubsequence(samples, p);
  }

  /** Merging with nothing saved yields the samples unchanged. */
  lemma MergeNothingSaved(samples: seq<Artwork>)
    ensures MergeArtworks([], samples) == samples
  {
    FilterAll(samples, (a: Artwork) => a.id !in ArtworkIds([]));
  }

  /** With distinct ids on both sides, the merged catalog has distinct ids:
      no sample duplicates a saved artwork. */
  lemma MergeDistinct(saved: seq<Artwork>, samples: seq<Artwork>)
    requires DistinctArtworkIds(saved) && DistinctArtworkIds(samples)
    ensures DistinctArtworkIds(MergeArtworks(saved, samples))
  {
    var r := MergeArtworks(saved, samples);
    var ids := ArtworkIds(saved);
    var p := (a: Artwork) => a.id !in ids;
    var newSamples := Filter(samples, p);
    assert r == saved + newSamples;
    FilterKeepsDistinct(samples, p);
    forall i, j | 0 <= i < |saved| <= j < |r|
      ensures r[i].id != r[j].id
    {
      assert ids[i] == r[i].id;
    }
  }

  /** Filtering a catalog with distinct ids leaves distinct ids. */
  lemma FilterKeepsDistinct(s: seq<Artwork>, p: Artwork -> bool)
    requires DistinctArtworkIds(s)
    ensures DistinctArtworkIds(Filter(s, p))
  {
    var r := Filter(s, p);
    FilterIsSubsequence(s, p);
    forall i, j | 0 <= i < j < |r|
      ensures r[i].id != r[j].id
    {
      SubsequenceDistinct(r, s, i, j);
    }
  }

  /** A subsequence of a catalog with distinct ids has distinct ids. */
  lemma {:induction false} SubsequenceDistinct(r: seq<Artwork>, s: seq<Artwork>, i: int, j: int)
    requires SubsequenceOf(r, s) && DistinctArtworkIds(s)
    requires 0 <= i < j < |r|
    ensures r[i].id != r[j].id
    decreases |s|
  {
    assert s != [];
    if r[0] == s[0] && SubsequenceOf(r[1..], s[1..]) {
      if i == 0 {
        assert r[j] == r[1..][j - 1];
        SubsequenceMember(r[1..], s[1..], j - 1);
        var k :| 0 <= k < |s[1..]| && s[1..][k] == r[j];
        assert s[k + 1] == r[j];
      } else {
        SubsequenceDistinct(r[1..], s[1..], i - 1, j - 1);
      }
    } else {
      SubsequenceDistinct(r, s[1..], i, j);
    }
  }

  /** Merging again with the same samples changes nothing, so saving the
      merged catalog and starting up once more is stable. */
  lemma MergeAgainIsStable(saved: seq<Artwork>, samples: seq<Artwork>)
    ensures MergeArtworks(MergeArtworks(saved, samples), samples) == MergeArtworks(saved, samples)
  {
    var merged := MergeArtworks(saved, samples);
    var ids := ArtworkIds(merged);
    forall k | 0 <= k < |samples|
      ensures samples[k].id in ids
    {
      var a := samples[k];
      if a.id in ArtworkIds(saved) {
        var i :| 0 <= i < |saved| && ArtworkIds(saved)[i] == a.id;
        assert merged[i] == saved[i];
        assert ids[i] == a.id;
      } else {
        assert a in merged[|saved|..];
        var i :| |saved| <= i < |merged| && merged[i] == a;
        assert ids[i] == a.id;
      }
    }
    FilterNone(samples, (a: Artwork) => a.id !in ids);
    assert merged + [] == merged;
  }

  // ---------------------------------------------------------------------
  // Payment and the artist's own artworks

  /** The catalog after a payment: an artwork becomes sold when its id was
      paid for; every other field and the order are unchanged. */
  function MarkSold(arts: seq<Artwork>, paidIds: seq<int>): (r: seq<Artwork>)
    ensures |r| == |arts|
    ensures forall i :: 0 <= i < |arts| ==> (r[i].sold <==> arts[i].sold || arts[i].id in paidIds)
    ensures forall i :: 0 <= i < |arts| ==> r[i].(sold := arts[i].sold) == arts[i]
    decreases |arts|
  {
    if arts == [] then []
    else
      var head := if arts[0].id in paidIds then arts[0].(sold := true) else arts[0];
      [head] + MarkSold(arts[1..], paidIds)
  }

  /** After paying for a cart, the gallery shows none of its artworks,
      whatever the filter. */
  lemma PaymentHidesPurchased(arts: seq<Artwork>, cart: seq<CartItem>, c: Gallery.Criteria)
    ensures forall i :: 0 <= i < |Gallery.FilterArtworks(MarkSold(arts, CartIds(cart)), c)| ==>
      Gallery.FilterArtworks(MarkSold(arts, CartIds(cart)), c)[i].id !in CartIds(cart)
  {
    var marked := MarkSold(arts, CartIds(cart));
    var shown := Gallery.FilterArtworks(marked, c);
    forall i | 0 <= i < |shown|
      ensures shown[i].id !in CartIds(cart)
    {
      var k :| 0 <= k < |marked| && marked[k] == shown[i];
      assert !marked[k].sold;
    }
  }

  /** Marking the same ids sold twice is marking them once. */
  lemma MarkSoldIdempotent(arts: seq<Artwork>, paidIds: seq<int>)
    ensures MarkSold(MarkSold(arts, paidIds), paidIds) == MarkSold(arts, paidIds)
  {
    var once := MarkSold(arts, paidIds);
    var twice := MarkSold(once, paidIds);
    forall i | 0 <= i < |arts|
      ensures twice[i] == once[i]
    {
      assert once[i].(sold := arts[i].sold) == arts[i];
      assert twice[i].(sold := once[i].sold) == once[i];
    }
  }

  /** Marking sold never changes the catalog's ids or their order. */
  lemma MarkSoldKeepsIds(arts: seq<Artwork>, paidIds: seq<int>)
    ensures ArtworkIds(MarkSold(arts, paidIds)) == ArtworkIds(arts)
  {
    var r := MarkSold(arts, paidIds);
    forall i | 0 <= i < |arts|
      ensures r[i].id == arts[i].id
    {
      assert r[i].(sold := arts[i].sold) == arts[i];
    }
  }

  /** `getUserArtworks`: the signed-in user's own artworks, in catalog
      order; nothing when nobody is signed in. */
  function UserArtworks(arts: seq<Artwork>, user: Option<User>): (r: seq<Artwork>)
    ensures user.None? ==> r == []
    ensures forall i :: 0 <= i < |r| ==> r[i] in arts && user.Some? && r[i].artistId == user.value.id
    ensures user.Some? ==> forall i :: 0 <= i < |arts| && arts[i].artistId == user.value.id ==> arts[i] in r
  {
    match user
    case None => []
    case Some(u) => Filter(arts, (a: Artwork) => a.artistId == u.id)
  }

  /** The user's artworks keep catalog order, and each occurs as often as in
      the catalog when it is the user's, otherwise not at all. */
  lemma UserArtworksIsStableSubset(arts: seq<Artwork>, user: Option<User>, a: Artwork)
    ensures user.Some? ==> SubsequenceOf(UserArtworks(arts, user), arts)
    ensures multiset(UserArtworks(arts, user))[a] ==
      if user.Some? && a.artistId == user.value.id then multiset(arts)[a] else 0
  {
    if user.Some? {
      var p := (x: Artwork) => x.artistId == user.value.id;
      FilterIsSubsequence(arts, p);
      FilterMultiplicity(arts, p, a);
    }
  }

  // ---------------------------------------------------------------------
  // The page's state

  /** The state the page keeps and the handlers that replace it. */
  class Page {
    var currentUser: Option<User>
    var artworks: seq<Artwork>
    var cartItems: seq<CartItem>
    var isPaymentModalOpen: bool

    /** The state before anything is restored: nobody signed in, the
        samples, an empty cart, payment closed. */
    constructor ()
      ensures currentUser == None && artworks == SampleArtworks
      ensures cartItems == [] && !isPaymentModalOpen
    {
      currentUser := None;
      artworks := SampleArtworks;
      cartItems := [];
      isPaymentModalOpen := false;
    }

    /** The start-up effect: whatever was saved replaces the state, the
        saved artworks being merged with the samples. */
    method Restore(savedUser: Option<User>, savedArtworks: Option<seq<Artwork>>, savedCart: Option<seq<CartItem>>)
      modifies this
      ensures currentUser == if savedUser.Some? then savedUser else old(currentUser)
      ensures artworks == if savedArtworks.Some? then LoadArtworks(savedArtworks) else old(artworks)
      ensures cartItems == if savedCart.Some? then savedCart.value else old(cartItems)
      ensures isPaymentModalOpen == old(isPaymentModalOpen)
    {
      if savedUser.Some? {
        currentUser := savedUser;
      }
      if savedArtworks.Some? {
        artworks := LoadArtworks(savedArtworks);
      }
      if savedCart.Some? {
        cartItems := savedCart.value;
      }
    }

    /** `handleAuth`: the account becomes the signed-in user. */
    method SignIn(user: User)
      modifies this
      ensures currentUser == Some(user)
      ensures artworks == old(artworks) && cartItems == old(cartItems)
      ensures isPaymentModalOpen == old(isPaymentModalOpen)
    {
      currentUser := Some(user);
    }

    /** `handleLogout`: signs out and empties the cart. */
    method Logout()
      modifies this
      ensures currentUser == None && cartItems == []
      ensures artworks == old(artworks) && isPaymentModalOpen == old(isPaymentModalOpen)
    {
      currentUser := None;
      cartItems := [];
    }

    /** `handleArtworkUpload`: the new artwork goes first in the catalog. */
    method UploadArtwork(artwork: Artwork)
      modifies this
      ensures artworks == [artwork] + old(artworks)
      ensures currentUser == old(currentUser) && cartItems == old(cartItems)
      ensures isPaymentModalOpen == old(isPaymentModalOpen)
    {
      artworks := [artwork] + artworks;
    }

    /** `handleAddToCart`: nothing happens unless someone is signed in;
        otherwise the artwork's line gets one more, or a new line is
        appended. Keeps "at most one line per artwork id". */
    method AddToCart(artwork: Artwork)
      modifies this
      ensures currentUser.None? ==> cartItems == old(cartItems)
      ensures currentUser.Some? ==> cartItems == AddOrIncrement(old(cartItems), artwork)
      ensures DistinctIds(old(cartItems)) ==> DistinctIds(cartItems)
      ensures currentUser == old(currentUser) && artworks == old(artworks)
      ensures isPaymentModalOpen == old(isPaymentModalOpen)
    {
      if currentUser.None? {
        return;
      }
      if DistinctIds(cartItems) {
        AddKeepsDistinct(cartItems, artwork);
      }
      cartItems := AddOrIncrement(cartItems, artwork);
    }

    /** `handleUpdateCartQuantity`: the quantity is stored as given. */
    method UpdateCartQuantity(id: int, quantity: int)
      modifies this
      ensures cartItems == SetQuantity(old(cartItems), id, quantity)
      ensures DistinctIds(old(cartItems)) ==> DistinctIds(cartItems)
      ensures currentUser == old(currentUser) && artworks == old(artworks)
      ensures isPaymentModalOpen == old(isPaymentModalOpen)
    {
      cartItems := SetQuantity(cartItems, id, quantity);
    }

    /** `handleRemoveFromCart`: drops the lines of this id. */
    method RemoveFromCart(id: int)
      modifies this
      ensures cartItems == RemoveLine(old(cartItems), id)
      ensures DistinctIds(old(cartItems)) ==> DistinctIds(cartItems)
      ensures currentUser == old(currentUser) && artworks == old(artworks)
      ensures isPaymentModalOpen == old(isPaymentModalOpen)
    {
      if DistinctIds(cartItems) {
        RemoveKeepsDistinct(cartItems, id);
      }
      cartItems := RemoveLine(cartItems, id);
    }

    /** `handleCheckout`: opens payment unless the cart is empty. */
    method Checkout()
      modifies this
      ensures isPaymentModalOpen == (old(isPaymentModalOpen) || CheckoutOpensPayment(old(cartItems)))
      ensures currentUser == old(currentUser) && artworks == old(artworks) && cartItems == old(cartItems)
    {
      if |cartItems| == 0 {
        return;
      }
      isPaymentModalOpen := true;
    }

    /** The payment dialog's close callback. */
    method ClosePayment()
      modifies this
      ensures !isPaymentModalOpen
      ensures currentUser == old(currentUser) && artworks == old(artworks) && cartItems == old(cartItems)
    {
      isPaymentModalOpen := false;
    }

    /** `handlePaymentSuccess`: every artwork whose id was in the cart
        becomes sold and the cart is emptied. */
    method PaymentSuccess()
      modifies this
      ensures artworks == MarkSold(old(artworks), CartIds(old(cartItems)))
      ensures forall i :: 0 <= i < |artworks| ==>
        (artworks[i].sold <==> old(artworks[i].sold) || old(artworks[i].id) in CartIds(old(cartItems)))
      ensures cartItems == []
      ensures currentUser == old(currentUser) && isPaymentModalOpen == old(isPaymentModalOpen)
    {
      var soldArtworkIds := CartIds(cartItems);
      artworks := MarkSold(artworks, soldArtworkIds);
      cartItems := [];
    }
  }
}
