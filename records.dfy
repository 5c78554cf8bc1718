/** The records the marketplace passes between its components. Numbers of
    the source are modelled as `int` (ids, quantities) and `real` (prices,
    computed exactly); strings as `seq<char>`. */
module Records {

  /** A value that may be missing: `null` in the source. */
  datatype Option<T> = None | Some(value: T)

  /** One listing of the catalog. */
  datatype Artwork = Artwork(
    id: int,
    title: string,
    description: string,
    price: real,
    category: string,
    medium: string,
    dimensions: string,
    image: string,
    artistId: int,
    artistName: string,
    uploadDate: string,
    sold: bool)

  /** One line of the shopping cart: display fields copied from an artwork
      when it was first added, and a quantity. */
  datatype CartItem = CartItem(
    id: int,
    title: string,
    price: real,
    image: string,
    artistName: string,
    quantity: int)

  /** The signed-in account. */
  datatype User = User(
    id: int,
    name: string,
    email: string,
    artistName: string,
    bio: string,
    artworks: seq<Artwork>,
    joinedDate: string)

  /** The ids of a sequence of artworks, in order (`artworks.map(a => a.id)`). */
  function ArtworkIds(arts: seq<Artwork>): (ids: seq<int>)
    ensures |ids| == |arts|
    ensures forall i :: 0 <= i < |arts| ==> ids[i] == arts[i].id
    decreases |arts|
  {
    if arts == [] then [] else [arts[0].id] + ArtworkIds(arts[1..])
  }

  /** The ids of the cart lines, in order (`cartItems.map(item => item.id)`). */
  function CartIds(cart: seq<CartItem>): (ids: seq<int>)
    ensures |ids| == |cart|
    ensures forall i :: 0 <= i < |cart| ==> ids[i] == cart[i].id
    decreases |cart|
  {
    if cart == [] then [] else [cart[0].id] + CartIds(cart[1..])
  }

  /** At most one cart line per artwork id. */
  predicate DistinctIds(cart: seq<CartItem>)
  {
    forall i, j :: 0 <= i < j < |cart| ==> cart[i].id != cart[j].id
  }

  /** No two artworks of the catalog share an id. */
  predicate DistinctArtworkIds(arts: seq<Artwork>)
  {
    forall i, j :: 0 <= i < j < |arts| ==> arts[i].id != arts[j].id
  }
}
