/** The statistics of an artist's profile page, computed from that artist's
    artworks. */
module Profile {
  import opened Records
  import opened Seqs

  /** `arts.reduce((sum, art) => sum + art.price, 0)`: a left fold from 0. */
  function SumPrices(arts: seq<Artwork>): (sum: real)
    decreases |arts|
  {
    if arts == [] then 0.0 else SumPrices(arts[..|arts| - 1]) + arts[|arts| - 1].price
  }

  /** The sold artworks, in order (`arts.filter(art => art.sold)`). */
  function SoldArtworks(arts: seq<Artwork>): (r: seq<Artwork>)
    ensures forall i :: 0 <= i < |r| ==> r[i].sold && r[i] in arts
    ensures forall i :: 0 <= i < |arts| && arts[i].sold ==> arts[i] in r
  {
    Filter(arts, (a: Artwork) => a.sold)
  }

  /** `totalEarnings`: the prices of the sold artworks added up. */
  function TotalEarnings(arts: seq<Artwork>): (earnings: real)
  {
    SumPrices(SoldArtworks(arts))
  }

  /** The "Sold" figure: how many artworks are sold. */
  function SoldCount(arts: seq<Artwork>): (n: nat)
    ensures n <= |arts|
  {
    |SoldArtworks(arts)|
  }

  /** Reference definition of the earnings: one pass over the artworks that
      adds the price of each sold one. */
  function SoldPriceSum(arts: seq<Artwork>): (sum: real)
    decreases |arts|
  {
    if arts == [] then 0.0
    else (if arts[0].sold then arts[0].price else 0.0) + SoldPriceSum(arts[1..])
  }

  /** The positions of the sold artworks. */
  function SoldPositions(arts: seq<Artwork>): (positions: set<int>)
  {
    set i | 0 <= i < |arts| && arts[i].sold
  }

  /** Summing prices distributes over concatenation. */
  lemma {:induction false} SumPricesConcat(a: seq<Artwork>, b: seq<Artwork>)
    ensures SumPrices(a + b) == SumPrices(a) + SumPrices(b)
    decreases |b|
  {
    if b == [] {
      assert a + b == a;
    } else {
      var b' := b[..|b| - 1];
      assert (a + b)[..|a + b| - 1] == a + b';
      SumPricesConcat(a, b');
    }
  }

  /** The fold from the left adds the first price to the sum of the rest. */
  lemma SumPricesCons(a: Artwork, rest: seq<Artwork>)
    ensures SumPrices([a] + rest) == a.price + SumPrices(rest)
  {
    SumPricesConcat([a], rest);
    assert [a][..0] == [];
  }

  /** The earnings are exactly the prices of the sold artworks added up. */
  lemma {:induction false} EarningsAreSoldPrices(arts: seq<Artwork>)
    ensures TotalEarnings(arts) == SoldPriceSum(arts)
    decreases |arts|
  {
    if arts != [] {
      EarningsAreSoldPrices(arts[1..]);
      assert arts == [arts[0]] + arts[1..];
      FilterConcat([arts[0]], arts[1..], (a: Artwork) => a.sold);
      if arts[0].sold {
        SumPricesCons(arts[0], SoldArtworks(arts[1..]));
      }
    }
  }

  /** Appending an artwork adds its position to the sold positions exactly
      when it is sold. */
  lemma SoldPositionsSnoc(init: seq<Artwork>, last: Artwork)
    ensures SoldPositions(init + [last]) ==
      SoldPositions(init) + (if last.sold then {|init|} else {})
  {
    var arts := init + [last];
    assert forall i :: 0 <= i < |init| ==> arts[i] == init[i];
    assert arts[|init|] == last;
  }

  /** The sold count is the number of positions that hold a sold artwork. */
  lemma {:induction false} SoldCountIsSoldPositions(arts: seq<Artwork>)
    ensures SoldCount(arts) == |SoldPositions(arts)|
    decreases |arts|
  {
    if arts == [] {
      assert SoldPositions(arts) == {};
    } else {
      var init, last := arts[..|arts| - 1], arts[|arts| - 1];
      SoldCountIsSoldPositions(init);
      assert arts == init + [last];
      FilterConcat(init, [last], (a: Artwork) => a.sold);
      SoldPositionsSnoc(init, last);
      assert |init| !in SoldPositions(init);
    }
  }

  /** Inserting an unsold artwork anywhere (an upload, say) changes neither
      the earnings nor the sold count. */
  lemma AddingUnsoldKeepsStats(before: seq<Artwork>, a: Artwork, after: seq<Artwork>)
    requires !a.sold
    ensures TotalEarnings(before + [a] + after) == TotalEarnings(before + after)
    ensures SoldCount(before + [a] + after) == SoldCount(before + after)
  {
    var p := (x: Artwork) => x.sold;
    FilterConcat(before + [a], after, p);
    FilterConcat(before, [a], p);
    FilterConcat(before, after, p);
    assert Filter([a], p) == [];
    assert Filter(before, p) + [] == Filter(before, p);
  }

  /** With nothing sold there are no earnings and the sold count is 0. */
  lemma NothingSoldNoEarnings(arts: seq<Artwork>)
    requires forall i :: 0 <= i < |arts| ==> !arts[i].sold
    ensures TotalEarnings(arts) == 0.0
    ensures SoldCount(arts) == 0
  {
    FilterNone(arts, (a: Artwork) => a.sold);
  }

  /** With non-negative prices the earnings are between 0 and the price of
      everything listed. */
  lemma EarningsBounds(arts: seq<Artwork>)
    requires forall i :: 0 <= i < |arts| ==> arts[i].price >= 0.0
    ensures 0.0 <= TotalEarnings(arts) <= SumPrices(arts)
  {
    EarningsAreSoldPrices(arts);
    SoldPriceSumBounds(arts);
  }

  /** The reference sum lies between 0 and the price of everything listed. */
  lemma {:induction false} SoldPriceSumBounds(arts: seq<Artwork>)
    requires forall i :: 0 <= i < |arts| ==> arts[i].price >= 0.0
    ensures 0.0 <= SoldPriceSum(arts) <= SumPrices(arts)
    decreases |arts|
  {
    if arts != [] {
      SoldPriceSumBounds(arts[1..]);
      assert arts == [arts[0]] + arts[1..];
      SumPricesCons(arts[0], arts[1..]);
    }
  }
}
