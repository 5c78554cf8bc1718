# Art marketplace core, modelled in Dafny

A model of the data logic under the React views of the *gallery-upload-flow*
art marketplace. It covers:

- **The page controller** (`src/pages/Index.tsx`). It holds the catalog of
  artworks, the shopping cart, the signed-in user and the payment-dialog flag.
  Its handlers are modelled as `Marketplace.Page`, a class whose methods
  replace those fields:
  - add to cart, guarded by "signed in";
  - set a line's quantity;
  - remove a line;
  - check out;
  - payment success;
  - sign in, sign out and upload;
  - the start-up merge of the saved catalog with the shipped samples.

  The pure parts are functions: the cart updates (module `Cart`), the merge,
  marking artworks sold, an artist's own artworks and the cart total.
- **The gallery** (`src/components/ArtGallery.tsx`). Module `Gallery` holds
  the four-way filter (search, category, price bucket, unsold) and the set of
  favourite ids with its toggle.
- **The profile statistics** (`src/components/UserProfile.tsx`). Module
  `Profile` holds the earnings fold and the sold count.
- **The account record built by the sign-in form**
  (`src/components/AuthForm.tsx`). Module `Auth` covers the register branch,
  where the artist name falls back to the full name, and the login branch,
  where the name is the e-mail text before its first `@`.

Supporting modules:

- `Records`: the `Artwork`, `CartItem` and `User` records.
- `Seqs`: the order-preserving `filter` used throughout, and its lemmas.
- `Text`: ASCII lower-casing, `includes` and `split('@')[0]`.

The central invariant is "at most one cart line per artwork id"
(`DistinctIds`). Every cart handler preserves it. A cart read back from
storage need not satisfy it, so the class does not assume it. Instead each
handler promises "distinct before implies distinct after", and the lemmas
that describe one line's effect take it as a premise.

Prices are exact `real`s and the tax is exactly 8/100. Quantities and ids are
unbounded `int`s.

## Model

| member | source | states |
|---|---|---|
| Cart.NewLine | src/pages/Index.tsx:210-217 | the new cart line copies id, title, price, image and artist name from the artwork and has quantity 1 |
| Cart.IncrementLines | src/pages/Index.tsx:202-208 | every line carrying the id gets exactly one more; every other line is unchanged; the length is kept |
| Cart.AddOrIncrement | src/pages/Index.tsx:201-219 | an id already in the cart: same length, matching lines get quantity + 1, others unchanged; a new id: exactly one line appended at the end; the cart's ids after the add |
| Cart.AddKeepsDistinct | src/pages/Index.tsx:201-219 | an add keeps "at most one line per artwork id" |
| Cart.AddTwiceOneLine | src/pages/Index.tsx:201-219 | adding a new artwork twice yields one line of quantity 2 at the end, not two lines |
| Cart.AddIgnoresSold | src/pages/Index.tsx:194-222 | the add path does not look at `sold`: a sold artwork is added like an unsold one |
| Cart.RemoveUndoesNewAdd | src/pages/Index.tsx:232-234 | removing an artwork right after adding it anew restores the cart |
| Cart.SetQuantity | src/pages/Index.tsx:224-230 | same length; id, title, price, image and artist name of every line are kept; matching lines take the given quantity (any integer); other lines keep theirs |
| Cart.SetQuantityUndoesIncrement | src/pages/Index.tsx:224-230 | with distinct ids, setting a line back to its old quantity undoes an add that incremented it |
| Cart.SetQuantityKeepsDistinct | src/pages/Index.tsx:224-230 | a quantity change keeps distinct ids |
| Cart.SetQuantityIdempotent | src/pages/Index.tsx:224-230 | setting the same quantity twice equals setting it once |
| Cart.RemoveLine | src/pages/Index.tsx:232-234 | no surviving line has the id; survivors come from the cart; every line with another id survives |
| Cart.RemoveAbsentUnchanged | src/pages/Index.tsx:232-234 | removing an id the cart does not hold leaves it unchanged |
| Cart.RemoveIsSubsequence | src/pages/Index.tsx:232-234 | the survivors keep their original order, and each line with another id survives as often as it occurs in the cart (a repeated line stays repeated); lines with the id survive not at all |
| Cart.RemoveKeepsDistinct | src/pages/Index.tsx:232-234 | removing keeps distinct ids |
| Cart.LineAmount | src/pages/Index.tsx:271 | one line's amount, price times quantity; `LineAmountChange` states how it moves with the quantity |
| Cart.Subtotal | src/pages/Index.tsx:271 | the `reduce` of the cart's line amounts from 0; `SubtotalConcat`, `SubtotalUpdate` and `CartTotalExample` state its properties |
| Cart.CartTotal | src/pages/Index.tsx:270-274 | the total is the subtotal times (1 + 8/100) |
| Cart.CheckoutOpensPayment | src/pages/Index.tsx:237-243 | payment opens exactly when the cart is non-empty |
| Cart.EmptyCartTotal | src/pages/Index.tsx:237-274 | an empty cart totals 0 and its checkout does not open payment |
| Cart.CartTotalExample | src/pages/Index.tsx:270-274 | two items at 100 plus one at 50: subtotal 250, tax 20, total 270 |
| Cart.SubtotalConcat | src/pages/Index.tsx:271 | the subtotal fold distributes over concatenation |
| Cart.SubtotalUpdate | src/pages/Index.tsx:271 | replacing one line changes the subtotal by the difference of the two line amounts |
| Cart.AddNewRaisesSubtotal | src/pages/Index.tsx:210-219 | adding an artwork the cart lacks raises the subtotal by its price |
| Cart.DistinctOnlyLine | src/pages/Index.tsx:201-209 | with distinct ids, each line is the only one with its id |
| Cart.IncrementIsUpdate | src/pages/Index.tsx:202-208 | when only line `k` has the id, incrementing changes that line alone |
| Cart.SetQuantityIsUpdate | src/pages/Index.tsx:224-230 | when only line `k` has the id, a quantity change touches that line alone |
| Cart.RemoveIsSplice | src/pages/Index.tsx:232-234 | when only line `k` has the id, removal drops exactly that line |
| Cart.LineAmountChange | src/pages/Index.tsx:271 | a line amount changes by price times the change in quantity |
| Cart.SubtotalQuantityAt | src/pages/Index.tsx:271 | changing line `k`'s quantity moves the subtotal by its price times the change |
| Cart.SubtotalIncrementAt | src/pages/Index.tsx:271 | one more of line `k` raises the subtotal by its price |
| Cart.SubtotalSnoc | src/pages/Index.tsx:271 | appending a line adds its amount |
| Cart.SubtotalSpliceParts | src/pages/Index.tsx:271 | a line between two parts adds its amount to theirs |
| Cart.SubtotalSplice | src/pages/Index.tsx:271 | dropping line `k` lowers the subtotal by its amount |
| Cart.AddExistingIsUpdate | src/pages/Index.tsx:201-209 | with distinct ids, adding the artwork of line `k` increments that line alone |
| Cart.AddExistingRaisesSubtotal | src/pages/Index.tsx:201-209 | with distinct ids, adding an artwork already carted raises the subtotal by the price recorded on its line |
| Cart.SetQuantitySubtotal | src/pages/Index.tsx:224-230 | with distinct ids, a quantity change moves the subtotal by the line's price times the change |
| Cart.RemoveLowersSubtotal | src/pages/Index.tsx:232-234 | with distinct ids, removal lowers the subtotal by that line's amount |
| Marketplace.SampleArtworksWellFormed | src/pages/Index.tsx:47-132 | the shipped catalog has six unsold artworks with distinct ids |
| Marketplace.MergeArtworks | src/pages/Index.tsx:148-155 | the saved artworks come first, unchanged; what follows are samples whose ids none of the saved ones has; every such sample is there |
| Marketplace.LoadArtworks | src/pages/Index.tsx:137-155 | the samples when nothing was saved, else the merge of the saved artworks with the samples |
| Marketplace.MergeKeepsSampleOrder | src/pages/Index.tsx:152-154 | the samples kept by the merge stay in their order |
| Marketplace.MergeNothingSaved | src/pages/Index.tsx:148-155 | merging with an empty saved catalog yields the samples |
| Marketplace.MergeDistinct | src/pages/Index.tsx:148-155 | with distinct ids on both sides, the merged catalog has distinct ids: no sample duplicates a saved id |
| Marketplace.FilterKeepsDistinct | src/pages/Index.tsx:153 | filtering a catalog with distinct ids leaves distinct ids |
| Marketplace.SubsequenceDistinct | src/pages/Index.tsx:153 | a subsequence of a catalog with distinct ids has distinct ids |
| Marketplace.MergeAgainIsStable | src/pages/Index.tsx:148-166 | merging the saved, merged catalog with the samples again changes nothing |
| Marketplace.MarkSold | src/pages/Index.tsx:245-256 | same length and order; an artwork is sold exactly when it was sold or its id was paid for; all other fields are unchanged |
| Marketplace.PaymentHidesPurchased | src/pages/Index.tsx:245-256 | after payment the gallery shows no carted artwork, whatever the filter |
| Marketplace.MarkSoldIdempotent | src/pages/Index.tsx:245-256 | marking the same ids sold twice equals marking them once |
| Marketplace.MarkSoldKeepsIds | src/pages/Index.tsx:245-256 | marking sold keeps the catalog's ids and their order |
| Marketplace.UserArtworks | src/pages/Index.tsx:266-268 | nothing when signed out; otherwise exactly the catalog's artworks whose artist id is the user's |
| Marketplace.UserArtworksIsStableSubset | src/pages/Index.tsx:266-268 | a signed-in user's artworks keep catalog order; each of the user's artworks occurs as often as in the catalog, any other not at all |
| Marketplace.Page.constructor | src/pages/Index.tsx:134-139 | start state: nobody signed in, the samples, an empty cart, payment closed |
| Marketplace.Page.Restore | src/pages/Index.tsx:142-161 | each saved value replaces its state; the saved catalog is merged with the samples; missing values leave state alone |
| Marketplace.Page.SignIn | src/pages/Index.tsx:173-177 | the account becomes the signed-in user; nothing else changes |
| Marketplace.Page.Logout | src/pages/Index.tsx:179-186 | nobody signed in and an empty cart; the catalog is unchanged |
| Marketplace.Page.UploadArtwork | src/pages/Index.tsx:188-192 | the new artwork goes first; nothing else changes |
| Marketplace.Page.AddToCart | src/pages/Index.tsx:194-222 | signed out: the cart is unchanged; signed in: the cart becomes `AddOrIncrement` of the old cart; distinct ids are kept |
| Marketplace.Page.UpdateCartQuantity | src/pages/Index.tsx:224-230 | the cart becomes `SetQuantity` of the old cart; distinct ids are kept |
| Marketplace.Page.RemoveFromCart | src/pages/Index.tsx:232-235 | the cart becomes `RemoveLine` of the old cart; distinct ids are kept |
| Marketplace.Page.Checkout | src/pages/Index.tsx:237-243 | payment opens when the cart is non-empty; an empty cart changes nothing |
| Marketplace.Page.ClosePayment | src/pages/Index.tsx:332 | the payment dialog is closed; nothing else changes |
| Marketplace.Page.PaymentSuccess | src/pages/Index.tsx:245-259 | each artwork is sold exactly when it was or its id was carted; other fields are kept; the cart is emptied |
| Gallery.MatchesSearch | src/components/ArtGallery.tsx:35-36 | the search condition; `MatchesSearchIffOccurs` and `SearchIgnoresTermCase` state what it accepts |
| Gallery.MatchesCategory | src/components/ArtGallery.tsx:37 | the category condition; `FilterArtworks` states that a chosen category is matched exactly |
| Gallery.MatchesPrice | src/components/ArtGallery.tsx:38-42 | the price condition; `PriceBuckets` states each bucket as an interval |
| Gallery.Shown | src/components/ArtGallery.tsx:44 | the conjunction of the three conditions and "not sold"; `FilterArtworks` states it both ways |
| Gallery.FilterArtworks | src/components/ArtGallery.tsx:34-45 | every shown artwork comes from the catalog and is unsold, has the exact category when one is chosen, and matches the search and price bucket; every artwork meeting all four is shown |
| Gallery.FilterArtworksIsStableSubset | src/components/ArtGallery.tsx:34 | the shown artworks are a subsequence of the catalog; each shown one occurs as often as in the catalog, others not at all |
| Gallery.EmptyCriteriaShowsUnsold | src/components/ArtGallery.tsx:35-44 | with no search, no category and no price range, exactly the unsold artworks are shown, in order |
| Gallery.MatchesSearchIffOccurs | src/components/ArtGallery.tsx:35-36 | the search accepts exactly when the lower-cased term occurs at some position of the lower-cased title or artist name |
| Gallery.SearchIgnoresTermCase | src/components/ArtGallery.tsx:35-36 | lower-casing the term first does not change the search |
| Gallery.PriceBuckets | src/components/ArtGallery.tsx:38-42 | the four buckets as intervals; 500 is in both middle buckets; any other non-empty range accepts nothing |
| Gallery.UnknownPriceRangeShowsNothing | src/components/ArtGallery.tsx:38-44 | a non-empty price range naming no bucket empties the gallery |
| Gallery.MiddleBucketExample | src/components/ArtGallery.tsx:40 | of listings at 50, 150, 750 and 1500, `100-500` shows only the one at 150 |
| Gallery.TopBucketExample | src/components/ArtGallery.tsx:42 | of the same listings, `over-1000` shows only the one at 1500 |
| Gallery.Toggled | src/components/ArtGallery.tsx:47-55 | the toggled id changes membership; every other id keeps its own |
| Gallery.ToggleTwiceRestores | src/components/ArtGallery.tsx:47-55 | toggling the same id twice restores the favourites |
| Gallery.ArtGallery.constructor | src/components/ArtGallery.tsx:27-30 | empty search, category and price range; no favourites |
| Gallery.ArtGallery.SetSearchTerm | src/components/ArtGallery.tsx:80 | the criteria change in the search term alone; the favourites are unchanged |
| Gallery.ArtGallery.SetCategory | src/components/ArtGallery.tsx:88 | the criteria change in the category alone; the favourites are unchanged |
| Gallery.ArtGallery.SetPriceRange | src/components/ArtGallery.tsx:102 | the criteria change in the price range alone; the favourites are unchanged |
| Gallery.ArtGallery.ToggleFavorite | src/components/ArtGallery.tsx:47-55 | the favourites become `Toggled` of the old ones; the filter criteria, and so what the gallery shows, are unchanged |
| Text.Lower | src/components/ArtGallery.tsx:35-36 | a capital ASCII letter becomes its small letter, 32 code points up; any other character is kept |
| Text.Includes | src/components/ArtGallery.tsx:35-36 | `includes`; `IncludesIffOccurrence` states it against a positional definition |
| Text.LowerStr | src/components/ArtGallery.tsx:35-36 | same length; each character is lowered |
| Text.LowerStrIdempotent | src/components/ArtGallery.tsx:35-36 | lowering twice is lowering once |
| Text.IncludesIffOccurrence | src/components/ArtGallery.tsx:35-36 | `includes` holds exactly when some position starts a copy of the term |
| Text.IncludesEmpty | src/components/ArtGallery.tsx:35-36 | the empty term is included in every string |
| Text.BeforeFirst | src/components/AuthForm.tsx:40 | a prefix of the input without the separator, followed in the input by the separator if shorter; the whole input when there is no separator |
| Records.ArtworkIds | src/pages/Index.tsx:152 | the catalog's ids, position by position |
| Records.CartIds | src/pages/Index.tsx:247 | the cart's ids, position by position |
| Profile.SumPrices | src/components/UserProfile.tsx:27 | the `reduce` of prices from 0; `SumPricesConcat` and `SumPricesCons` state its properties |
| Profile.TotalEarnings | src/components/UserProfile.tsx:27 | `totalEarnings`; `EarningsAreSoldPrices`, `EarningsBounds` and `NothingSoldNoEarnings` state its value |
| Profile.SoldArtworks | src/components/UserProfile.tsx:27 | every kept artwork is sold and listed; every sold one is kept |
| Profile.SoldCount | src/components/UserProfile.tsx:86-105 | the sold count never exceeds the number of artworks shown |
| Profile.EarningsAreSoldPrices | src/components/UserProfile.tsx:27 | the earnings equal the one-pass sum of the prices of exactly the sold artworks |
| Profile.SumPricesConcat | src/components/UserProfile.tsx:27 | the price fold distributes over concatenation |
| Profile.SumPricesCons | src/components/UserProfile.tsx:27 | the fold adds the first price to the sum of the rest |
| Profile.SoldPositionsSnoc | src/components/UserProfile.tsx:105 | appending an artwork adds its position to the sold positions exactly when it is sold |
| Profile.SoldCountIsSoldPositions | src/components/UserProfile.tsx:105 | the sold count is the number of positions holding a sold artwork |
| Profile.AddingUnsoldKeepsStats | src/components/UserProfile.tsx:27-105 | inserting an unsold artwork anywhere changes neither earnings nor sold count |
| Profile.NothingSoldNoEarnings | src/components/UserProfile.tsx:27-105 | with nothing sold, earnings are 0 and the sold count is 0 |
| Profile.EarningsBounds | src/components/UserProfile.tsx:27 | with non-negative prices, earnings lie between 0 and the total of all prices |
| Profile.SoldPriceSumBounds | src/components/UserProfile.tsx:27 | the reference sum lies between 0 and the total of all prices |
| Auth.RegisteredUser | src/components/AuthForm.tsx:22-35 | id and date as given; name, email and bio copied; no artworks; artist name is the entered one when non-empty, else the full name |
| Auth.LoggedInUser | src/components/AuthForm.tsx:36-49 | the name is the e-mail prefix before the first `@` (the whole e-mail without one) and holds no `@`; artist name equals name; e-mail copied; fixed bio; no artworks |
| Auth.SubmittedUser | src/components/AuthForm.tsx:19-50 | the register form builds the registered record, the login form the logged-in one; both keep id and e-mail and start without artworks |
| Auth.LoginNameIsHandle | src/components/AuthForm.tsx:40-42 | for an e-mail `handle@rest` with no `@` in the handle, the name is the handle |
| Auth.LoginDependsOnlyOnEmail | src/components/AuthForm.tsx:36-49 | two login forms with the same e-mail build the same record |
| Auth.RegisterIgnoresPassword | src/components/AuthForm.tsx:22-35 | the password never reaches the account record |

## Left out

- Reading and writing `localStorage` and JSON parsing are browser I/O. The
  values read back are parameters of `Page.Restore`, and the writes are not
  modelled.
- A saved value that fails to parse is not modelled. Neither is the source's
  truthiness test on the stored string: an absent value is `None`.
- Toasts, `setCurrentView` navigation, view rendering and the navigation bar
  have no data logic and are not modelled.
- The fake payment of the payment dialog is a timer and a form. Only its
  success callback (`Page.PaymentSuccess`) and close callback
  (`Page.ClosePayment`) are modelled.
- The upload form reads a file into a data URL, parses the price and makes
  an id from the clock. These are foreign calls, so `Page.UploadArtwork`
  takes the finished artwork as a parameter.
- Ids from `Date.now()`, dates from `toLocaleDateString` and the random view
  count of the profile are parameters or left out. Nothing enforces unique
  ids, and neither does the model.
- Prices are exact reals: floating-point rounding and a `NaN` price are not
  modelled.
- `toLowerCase` is modelled over ASCII letters only. Full Unicode case
  mapping is not modelled.
- The shopping-cart component is not part of this model. Which quantities it
  passes to the quantity handler is therefore unknown, and `SetQuantity`
  stores any integer.
- The add handler decides "already in the cart" from the cart it closed over.
  It then updates the newest cart state. The model runs the handlers one
  after another, so both are the same cart. Two adds batched into one render
  are not modelled.
- The view-artist handler only shows a toast, so it is not modelled.
