/** The display rules of the product card: whether a discount is shown, the
    stock badge, the price line, the star row, the variant summary and the
    image the card falls back to. Everything here is computed from the
    product alone. */
module ProductCard {
  import opened Wrappers
  import opened ProductSchema

  /** The image shown when the product has no usable first image. */
  const PlaceholderUrl: string := "https://via.placeholder.com/150"

  /** The badge stays "low" up to and including this stock. */
  const LowStockLimit: real := 10.0

  /** The number of stars in the rating row. */
  const StarCount: nat := 5

  /** The number of variant chips shown before "+N more". */
  const ChipLimit: nat := 3

  // ---------------------------------------------------------------------
  // Discount and price line
  // ---------------------------------------------------------------------

  /** `discount`: a discount price is set and undercuts the price. A null
      discount price compares false with `> 0`. */
  predicate DiscountActive(p: Product) {
    p.discountPrice.Some? && p.discountPrice.value > 0.0 && p.discountPrice.value < p.price
  }

  /** The bold price: the discount price while the discount is active, the
      price otherwise. It never exceeds the price, and it is strictly below
      it exactly when the discount is active. */
  function ShownPrice(p: Product): (shown: real)
    ensures shown <= p.price
    ensures shown < p.price <==> DiscountActive(p)
    ensures shown == p.price || p.discountPrice == Some(shown)
    ensures DiscountActive(p) ==> shown > 0.0
  {
    if DiscountActive(p) then p.discountPrice.value else p.price
  }

  /** The struck-through original price, present only with a discount, and
      then above the bold price. */
  function StruckPrice(p: Product): (struck: Option<real>)
    ensures struck.Some? <==> DiscountActive(p)
    ensures struck.Some? ==> struck.value == p.price && ShownPrice(p) < struck.value
  {
    if DiscountActive(p) then Some(p.price) else None
  }

  /** The schema's default discount price of 0, and the null a blank one is
      stored as, never show a discount. */
  lemma DefaultDiscountShowsPrice(p: Product)
    requires p.discountPrice == Some(0.0) || p.discountPrice == None
    ensures StruckPrice(p) == None && ShownPrice(p) == p.price
  {
  }

  // ---------------------------------------------------------------------
  // Stock badge
  // ---------------------------------------------------------------------

  /** The three badges; the low and in-stock badges print the stock. */
  datatype StockBadge = OutOfStock | LowStock(shown: real) | InStock(shown: real)

  /** `isOutOfStock ? ... : isLowStock ? ... : ...`, with `isOutOfStock =
      stock <= 0` and `isLowStock = stock > 0 && stock <= 10`. Exactly one
      badge applies, and the in-stock badge means more than 10 in stock. */
  function Badge(stock: real): (b: StockBadge)
    ensures b.OutOfStock? <==> stock <= 0.0
    ensures b.LowStock? <==> 0.0 < stock <= LowStockLimit
    ensures b.InStock? <==> stock > LowStockLimit
    ensures !b.OutOfStock? ==> b.shown == stock
  {
    var isOutOfStock := stock <= 0.0;
    var isLowStock := stock > 0.0 && stock <= LowStockLimit;
    if isOutOfStock then OutOfStock
    else if isLowStock then LowStock(stock)
    else InStock(stock)
  }

  /** For a whole-number stock the low badge covers exactly 1 to 10. */
  lemma LowStockOfCount(k: int)
    ensures Badge(k as real).LowStock? <==> 1 <= k <= 10
    ensures Badge(k as real).OutOfStock? <==> k <= 0
  {
  }

  // ---------------------------------------------------------------------
  // Star row
  // ---------------------------------------------------------------------

  /** `Array.from({length: 5}, (_, i) => i < average)`: which stars are filled. */
  function Stars(average: real): (stars: seq<bool>)
    ensures |stars| == StarCount
  {
    seq(StarCount, i requires 0 <= i < StarCount => (i as real) < average)
  }

  /** The filled stars form a prefix of the row: a filled star has only
      filled stars before it, and star `i` is filled exactly when
      `i < average`. */
  lemma StarsPrefix(average: real, i: nat, j: nat)
    requires i <= j < StarCount
    ensures Stars(average)[i] <==> (i as real) < average
    ensures Stars(average)[j] ==> Stars(average)[i]
  {
  }

  /** The number of filled stars in a row. */
  function Filled(stars: seq<bool>): nat {
    if stars == [] then 0
    else (if stars[0] then 1 else 0) + Filled(stars[1..])
  }

  /** A row whose filled stars are exactly its first `k` has `k` filled. */
  lemma {:induction false} FilledOfPrefix(stars: seq<bool>, k: nat)
    requires k <= |stars|
    requires forall i :: 0 <= i < |stars| ==> (stars[i] <==> i < k)
    ensures Filled(stars) == k
  {
    if stars != [] {
      var k' := if k == 0 then 0 else k - 1;
      assert forall i :: 0 <= i < |stars[1..]| ==> (stars[1..][i] <==> i < k') by {
        forall i | 0 <= i < |stars[1..]| ensures stars[1..][i] <==> i < k' {
          assert stars[1..][i] == stars[i + 1];
        }
      }
      FilledOfPrefix(stars[1..], k');
    }
  }

  /** An average in `(k - 1, k]` fills exactly `k` stars; an average at or
      below 0 fills none and one above 4 fills all five. */
  lemma StarsFilledCount(average: real, k: nat)
    requires k <= StarCount
    requires k > 0 ==> (k - 1) as real < average
    requires k < StarCount ==> average <= k as real
    ensures Filled(Stars(average)) == k
  {
    var stars := Stars(average);
    forall i | 0 <= i < |stars| ensures stars[i] <==> i < k {
      if i < k {
        assert (i as real) <= (k - 1) as real;
      } else {
        assert k as real <= i as real;
      }
    }
    FilledOfPrefix(stars, k);
  }

  // ---------------------------------------------------------------------
  // Variant summary
  // ---------------------------------------------------------------------

  /** The variants block: absent for a product without variants; otherwise
      the chips and, when some are not shown, the "+N more" count. */
  datatype VariantSummary = NoVariants | Summary(chips: seq<Variant>, more: Option<nat>)

  /** `variants.slice(0, 3)` and `variants.length > 3 && variants.length - 3`,
      shown when `variants.length > 0`. */
  function Summarize(vs: seq<Variant>): (s: VariantSummary)
    ensures s.NoVariants? <==> vs == []
    ensures s.Summary? ==>
              && |s.chips| <= ChipLimit && |s.chips| <= |vs|
              && s.chips == vs[..|s.chips|]
              && (s.more.Some? <==> |vs| > ChipLimit)
              && |s.chips| + s.more.GetOr(0) == |vs|
  {
    if |vs| > 0 then
      var chips := vs[..if |vs| < ChipLimit then |vs| else ChipLimit];
      Summary(chips, if |vs| > ChipLimit then Some(|vs| - ChipLimit) else None)
    else NoVariants
  }

  /** Every variant is either a chip or counted in "+N more", never both:
      the chips are the first ones, and all of them when there are at most
      three. */
  lemma SummaryAccountsForAll(vs: seq<Variant>)
    requires vs != []
    ensures |vs| <= ChipLimit ==> Summarize(vs) == Summary(vs, None)
    ensures |vs| > ChipLimit ==> Summarize(vs) == Summary(vs[..ChipLimit], Some(|vs| - ChipLimit))
  {
    if |vs| <= ChipLimit {
      assert vs[..|vs|] == vs;
    }
  }

  /** A chip's text, `{v.color} {v.size && `- ${v.size}`}`: the color (an
      undefined one renders as nothing), a space, and `- size` when the
      size is a non-empty string (a falsy size renders as nothing). */
  function ChipText(v: Variant): (text: string)
    ensures var c := v.color.GetOr("");
            && |text| >= |c| + 1
            && text[..|c|] == c && text[|c|] == ' '
            && (v.size.Some? && v.size.value != "" ==>
                  text[|c| + 1..] == "- " + v.size.value)
            && (v.size.None? || v.size.value == "" ==> |text| == |c| + 1)
  {
    var c := v.color.GetOr("");
    var tail := if v.size.Some? && v.size.value != "" then "- " + v.size.value else "";
    c + " " + tail
  }

  // ---------------------------------------------------------------------
  // Card image
  // ---------------------------------------------------------------------

  /** `product?.images?.[0]?.url || placeholder`: never an empty source. */
  function ImageSource(images: seq<Image>): (src: string)
    ensures src != ""
    ensures images != [] && images[0].url != "" ==> src == images[0].url
    ensures images == [] || images[0].url == "" ==> src == PlaceholderUrl
  {
    if images != [] && images[0].url != "" then images[0].url else PlaceholderUrl
  }

  /** A stored product with images shows its first image, since every
      stored image has a URL. */
  lemma StoredImageShown(p: Product)
    requires Valid(p)
    ensures p.images != [] ==> ImageSource(p.images) == p.images[0].url
  {
    if p.images != [] {
      assert ValidImage(p.images[0]);
    }
  }
}
