/** The product record of backend/models/Product.js: its pure virtuals (effective
    price, total stock, availability, primary image, generated slug) and the
    document methods that update it in place (stock, reviews, counters, and the
    pre-save hook). */
module ProductModel {
  import opened Basics

  /** One entry of `sizes` or `colors`: a name and its own stock counter. */
  datatype StockEntry = StockEntry(name: string, stock: int)

  datatype Image = Image(url: string, alt: string, isPrimary: bool)

  datatype Review = Review(user: string, name: string, rating: int, comment: string)

  /** `price.base` and the optional `price.discounted`. */
  datatype Price = Price(base: int, discounted: Option<int>)

  datatype Availability = OutOfStock | LowStock | InStock

  // ---------------------------------------------------------------------------
  // Virtuals

  /** `price.discounted || price.base`: a missing or zero discount falls back to the base price. */
  function EffectivePrice(p: Price): (r: int)
    ensures p.discounted.Some? && p.discounted.value != 0 ==> r == p.discounted.value
    ensures p.discounted.None? || p.discounted.value == 0 ==> r == p.base
  {
    match p.discounted
    case Some(d) => if d != 0 then d else p.base
    case None => p.base
  }

  predicate NonNegativeStock(entries: seq<StockEntry>) {
    forall i :: 0 <= i < |entries| ==> entries[i].stock >= 0
  }

  /** `totalStock`: the size counters summed (colour counters are not counted). */
  function TotalStock(sizes: seq<StockEntry>): int {
    if sizes == [] then 0 else TotalStock(sizes[..|sizes| - 1]) + sizes[|sizes| - 1].stock
  }

  lemma {:induction false} TotalStockNonNegative(sizes: seq<StockEntry>)
    requires NonNegativeStock(sizes)
    ensures TotalStock(sizes) >= 0
    ensures TotalStock(sizes) == 0 <==> forall i :: 0 <= i < |sizes| ==> sizes[i].stock == 0
  {
    if sizes != [] {
      var init := sizes[..|sizes| - 1];
      TotalStockNonNegative(init);
      assert forall i :: 0 <= i < |init| ==> init[i] == sizes[i];
    }
  }

  /** `availability`: out of stock at 0, low stock at 1 to 5, in stock above 5. */
  function AvailabilityOf(totalStock: int): Availability {
    if totalStock == 0 then OutOfStock else if totalStock <= 5 then LowStock else InStock
  }

  /** With non-negative counters the three bands follow the total exactly. */
  lemma AvailabilityBands(sizes: seq<StockEntry>)
    requires NonNegativeStock(sizes)
    ensures AvailabilityOf(TotalStock(sizes)) == OutOfStock <==> TotalStock(sizes) == 0
    ensures AvailabilityOf(TotalStock(sizes)) == LowStock <==> 1 <= TotalStock(sizes) <= 5
    ensures AvailabilityOf(TotalStock(sizes)) == InStock <==> TotalStock(sizes) > 5
  {
    TotalStockNonNegative(sizes);
  }

  predicate HasPrimary(images: seq<Image>) {
    exists i :: 0 <= i < |images| && images[i].isPrimary
  }

  /** `primaryImage`: the first image marked primary, or else the first image. */
  function PrimaryImage(images: seq<Image>): (r: Option<Image>)
    ensures r.None? <==> images == []
    ensures r.Some? ==> r.value in images
    ensures HasPrimary(images) ==>
              (&& r.Some? && r.value.isPrimary
               && exists i :: 0 <= i < |images| && images[i] == r.value
                    && forall j :: 0 <= j < i ==> !images[j].isPrimary)
    ensures images != [] && !HasPrimary(images) ==> r == Some(images[0])
  {
    if images == [] then None
    else if images[0].isPrimary then Some(images[0])
    else match PrimaryImage(images[1..])
      case Some(img) => if img.isPrimary then Some(img) else Some(images[0])
      case None => Some(images[0])
  }

  // ---------------------------------------------------------------------------
  // Slug: name.toLowerCase().replace(/[^a-z0-9]+/g, '-').replace(/(^-|-$)/g, '')

  predicate SlugChar(c: char) { IsLowerLetter(c) || IsDigit(c) }

  /** Replaces every maximal run of characters outside [a-z0-9] by a single '-'. */
  function CollapseRuns(s: string): (r: string)
    ensures r != [] <==> s != []
    ensures r != [] ==> (r[|r| - 1] == '-' <==> !SlugChar(s[|s| - 1]))
  {
    if s == [] then []
    else
      var prev := CollapseRuns(s[..|s| - 1]);
      var c := s[|s| - 1];
      if SlugChar(c) then prev + [c]
      else if prev != [] && prev[|prev| - 1] == '-' then prev
      else prev + ['-']
  }

  /** Drops one leading and one trailing '-'. */
  function StripDashes(s: string): string {
    var a := if s != [] && s[0] == '-' then s[1..] else s;
    if a != [] && a[|a| - 1] == '-' then a[..|a| - 1] else a
  }

  function Slugify(name: string): string {
    StripDashes(CollapseRuns(Lower(name)))
  }

  /** The shape of a URL slug: only [a-z0-9] and '-', never two '-' in a row, and
      no '-' at either end. */
  predicate IsSlug(s: string) {
    && (forall i :: 0 <= i < |s| ==> SlugChar(s[i]) || s[i] == '-')
    && (forall i :: 0 <= i < |s| - 1 ==> !(s[i] == '-' && s[i + 1] == '-'))
    && (s != [] ==> s[0] != '-' && s[|s| - 1] != '-')
  }

  predicate Collapsed(s: string) {
    && (forall i :: 0 <= i < |s| ==> SlugChar(s[i]) || s[i] == '-')
    && (forall i :: 0 <= i < |s| - 1 ==> !(s[i] == '-' && s[i + 1] == '-'))
  }

  lemma {:induction false} CollapseRunsShape(s: string)
    ensures Collapsed(CollapseRuns(s))
  {
    if s != [] {
      CollapseRunsShape(s[..|s| - 1]);
    }
  }

  lemma StripDashesShape(s: string)
    requires Collapsed(s)
    ensures IsSlug(StripDashes(s))
  {
    var a := if s != [] && s[0] == '-' then s[1..] else s;
    assert Collapsed(a);
  }

  /** Every generated slug has the slug shape. */
  lemma SlugifyIsSlug(name: string)
    ensures IsSlug(Slugify(name))
  {
    CollapseRunsShape(Lower(name));
    StripDashesShape(CollapseRuns(Lower(name)));
  }

  /** A string that is already collapsed is left alone by CollapseRuns. */
  lemma {:induction false} CollapseRunsFixed(s: string)
    requires Collapsed(s)
    ensures CollapseRuns(s) == s
  {
    if s != [] {
      var init := s[..|s| - 1];
      assert Collapsed(init);
      CollapseRunsFixed(init);
      if !SlugChar(s[|s| - 1]) && init != [] {
        assert s[|s| - 2] == init[|init| - 1];
      }
    }
  }

  lemma LowerOfSlugChars(s: string)
    requires forall i :: 0 <= i < |s| ==> SlugChar(s[i]) || s[i] == '-'
    ensures Lower(s) == s
  {
  }

  /** Generating a slug from a slug gives it back unchanged. */
  lemma SlugifyIdempotent(name: string)
    ensures Slugify(Slugify(name)) == Slugify(name)
  {
    var s := Slugify(name);
    SlugifyIsSlug(name);
    LowerOfSlugChars(s);
    CollapseRunsFixed(s);
  }

  /** A run of slug characters is copied through unchanged. */
  lemma {:induction false} CollapseWord(p: string, w: string)
    requires forall i :: 0 <= i < |w| ==> SlugChar(w[i])
    ensures CollapseRuns(p + w) == CollapseRuns(p) + w
  {
    if w != [] {
      var init := w[..|w| - 1];
      assert (p + w)[..|p + w| - 1] == p + init;
      assert (p + w)[|p + w| - 1] == w[|w| - 1];
      assert w == init + [w[|w| - 1]];
      assert forall i :: 0 <= i < |init| ==> init[i] == w[i];
      CollapseWord(p, init);
      assert SlugChar(w[|w| - 1]);
      assert CollapseRuns(p + w) == CollapseRuns(p + init) + [w[|w| - 1]];
      assert CollapseRuns(p) + init + [w[|w| - 1]] == CollapseRuns(p) + w;
    } else {
      assert p + w == p;
    }
  }

  /** A non-empty run of other characters after a slug character becomes one '-'. */
  lemma {:induction false} CollapseGap(p: string, g: string)
    requires p != [] && SlugChar(p[|p| - 1])
    requires g != [] && forall i :: 0 <= i < |g| ==> !SlugChar(g[i])
    ensures CollapseRuns(p + g) == CollapseRuns(p) + "-"
  {
    var init := g[..|g| - 1];
    assert (p + g)[..|p + g| - 1] == p + init;
    if init != [] {
      CollapseGap(p, init);
    }
  }

  /** Worked names: an inner '-' and a run of punctuation each become a single
      '-', and the trailing one is stripped. */
  lemma SlugExample()
    ensures Slugify("Polo") == "polo"
    ensures Slugify("T-Shirt (XL)") == "t-shirt-xl"
  {
    SlugPolo();
    SlugTShirt();
  }

  lemma SlugPolo()
    ensures Slugify("Polo") == "polo"
  {
    assert Lower("Polo") == "polo";
    CollapseWord([], "polo");
    assert [] + "polo" == "polo";
  }

  lemma SlugTShirt()
    ensures Slugify("T-Shirt (XL)") == "t-shirt-xl"
  {
    SlugOfName("T-Shirt (XL)");
  }

  /** The names are parameters so that the slug is derived piece by piece rather
      than by unfolding the definitions on a literal. */
  lemma SlugOfName(name: string)
    requires name == "T-Shirt (XL)"
    ensures Slugify(name) == "t-shirt-xl"
  {
    var lowered := "t" + "-" + "shirt" + " (" + "xl" + ")";
    LowerPointwise(name, lowered);
    CollapseOfLowered(lowered);
    StripTrailingDash("t-shirt-xl");
  }

  lemma CollapseOfLowered(lowered: string)
    requires lowered == "t" + "-" + "shirt" + " (" + "xl" + ")"
    ensures CollapseRuns(lowered) == "t-shirt-xl" + "-"
  {
    var front := "t" + "-" + "shirt" + " (";
    CollapseOfFront(front);
    var p4 := front + "xl";
    CollapseWord(front, "xl");
    CollapseGap(p4, ")");
    assert lowered == p4 + ")";
  }

  lemma CollapseOfFront(front: string)
    requires front == "t" + "-" + "shirt" + " ("
    ensures CollapseRuns(front) == "t-shirt-"
  {
    var p1 := "t" + "-";
    var p2 := p1 + "shirt";
    CollapseWord([], "t");
    assert [] + "t" == "t";
    CollapseGap("t", "-");
    CollapseWord(p1, "shirt");
    CollapseGap(p2, " (");
  }

  lemma LowerPointwise(s: string, t: string)
    requires |s| == |t| && forall i :: 0 <= i < |s| ==> LowerChar(s[i]) == t[i]
    ensures Lower(s) == t
  {
  }

  lemma StripTrailingDash(s: string)
    requires s != [] && s[0] != '-'
    ensures StripDashes(s + "-") == s
  {
    assert (s + "-")[..|s|] == s;
  }

  // ---------------------------------------------------------------------------
  // Stock and reviews, as values

  /** Index of the first entry with this name: `entries.find(e => e.name === name)`. */
  function FindEntry(entries: seq<StockEntry>, name: string): (r: Option<nat>)
    ensures r.Some? ==>
              (&& r.value < |entries| && entries[r.value].name == name
               && forall j :: 0 <= j < r.value ==> entries[j].name != name)
    ensures r.None? ==> forall j :: 0 <= j < |entries| ==> entries[j].name != name
  {
    if entries == [] then None
    else if entries[0].name == name then Some(0)
    else match FindEntry(entries[1..], name)
      case Some(i) => Some(i + 1)
      case None => None
  }

  /** The first entry named `name` loses `quantity`, floored at zero; a missing
      name changes nothing. */
  function DecrementFirst(entries: seq<StockEntry>, name: string, quantity: int): seq<StockEntry> {
    match FindEntry(entries, name)
    case None => entries
    case Some(i) => entries[i := entries[i].(stock := Max(0, entries[i].stock - quantity))]
  }

  /** Only the first matching entry changes, it keeps its name, and its new stock is
      the old one minus the quantity, floored at zero. */
  lemma DecrementFirstEffect(entries: seq<StockEntry>, name: string, quantity: int)
    ensures |DecrementFirst(entries, name, quantity)| == |entries|
    ensures forall j :: 0 <= j < |entries| ==> DecrementFirst(entries, name, quantity)[j].name == entries[j].name
    ensures FindEntry(entries, name).None? ==> DecrementFirst(entries, name, quantity) == entries
    ensures FindEntry(entries, name).Some? ==>
      var i := FindEntry(entries, name).value;
      && DecrementFirst(entries, name, quantity)[i].stock == Max(0, entries[i].stock - quantity)
      && forall j :: 0 <= j < |entries| && j != i ==> DecrementFirst(entries, name, quantity)[j] == entries[j]
  {
  }

  /** The clamp keeps every counter non-negative, whatever the quantity. */
  lemma DecrementFirstNonNegative(entries: seq<StockEntry>, name: string, quantity: int)
    requires NonNegativeStock(entries)
    ensures NonNegativeStock(DecrementFirst(entries, name, quantity))
  {
  }

  /** When the stock covers the quantity, the decrement is exact. */
  lemma DecrementFirstExact(entries: seq<StockEntry>, name: string, quantity: int)
    requires FindEntry(entries, name).Some?
    requires 0 <= quantity <= entries[FindEntry(entries, name).value].stock
    ensures var i := FindEntry(entries, name).value;
      DecrementFirst(entries, name, quantity)[i].stock == entries[i].stock - quantity
  {
  }

  /** `reviews.filter(r => r.user !== userId)`. */
  function WithoutUser(reviews: seq<Review>, user: string): (r: seq<Review>)
    ensures |r| <= |reviews|
    ensures forall x :: x in r <==> x in reviews && x.user != user
  {
    if reviews == [] then []
    else if reviews[0].user == user then WithoutUser(reviews[1..], user)
    else [reviews[0]] + WithoutUser(reviews[1..], user)
  }

  function RatingSum(reviews: seq<Review>): int {
    if reviews == [] then 0 else RatingSum(reviews[..|reviews| - 1]) + reviews[|reviews| - 1].rating
  }

  /** `totalRating / reviews.length`. */
  function MeanRating(reviews: seq<Review>): real
    requires reviews != []
  {
    RatingSum(reviews) as real / |reviews| as real
  }

  predicate OneReviewPerUser(reviews: seq<Review>) {
    forall i, j :: 0 <= i < j < |reviews| ==> reviews[i].user != reviews[j].user
  }

  predicate RatingsInRange(reviews: seq<Review>) {
    forall i :: 0 <= i < |reviews| ==> 1 <= reviews[i].rating <= 5
  }

  lemma {:induction false} RatingSumBounds(reviews: seq<Review>)
    requires RatingsInRange(reviews)
    ensures |reviews| <= RatingSum(reviews) <= 5 * |reviews|
  {
    if reviews != [] {
      var init := reviews[..|reviews| - 1];
      assert RatingsInRange(init) by {
        assert forall i :: 0 <= i < |init| ==> init[i] == reviews[i];
      }
      RatingSumBounds(init);
    }
  }

  /** With every rating between 1 and 5 the mean stays between 1 and 5. */
  lemma MeanRatingBounds(reviews: seq<Review>)
    requires reviews != [] && RatingsInRange(reviews)
    ensures 1.0 <= MeanRating(reviews) <= 5.0
  {
    RatingSumBounds(reviews);
    RatioBetweenOneAndFive(RatingSum(reviews) as real, |reviews| as real);
  }

  lemma RatioBetweenOneAndFive(s: real, n: real)
    requires n > 0.0 && n <= s <= 5.0 * n
    ensures 1.0 <= s / n <= 5.0
  {
    var q := s / n;
    assert (q - 1.0) * n == s - n;
    assert (5.0 - q) * n == 5.0 * n - s;
    NonNegativeFactor(q - 1.0, n);
    NonNegativeFactor(5.0 - q, n);
  }

  /** A product that is not negative, with a positive second factor, has a
      first factor that is not negative. */
  lemma NonNegativeFactor(a: real, b: real)
    requires b > 0.0 && a * b >= 0.0
    ensures a >= 0.0
  {
    if a < 0.0 {
      PositiveProduct(-a, b);
    }
  }

  lemma PositiveProduct(a: real, b: real)
    requires a > 0.0 && b > 0.0
    ensures a * b > 0.0
  {
  }

  /** Dropping a user's review and appending the new one keeps one review per user. */
  lemma {:induction false} ReplaceReviewKeepsUnique(reviews: seq<Review>, review: Review)
    requires OneReviewPerUser(reviews)
    ensures OneReviewPerUser(WithoutUser(reviews, review.user) + [review])
  {
    var w := WithoutUser(reviews, review.user);
    WithoutUserUnique(reviews, review.user);
    var r := w + [review];
    forall i, j | 0 <= i < j < |r| ensures r[i].user != r[j].user {
      if j == |r| - 1 {
        assert r[i] in w;
      }
    }
  }

  lemma {:induction false} WithoutUserUnique(reviews: seq<Review>, user: string)
    requires OneReviewPerUser(reviews)
    ensures OneReviewPerUser(WithoutUser(reviews, user))
  {
    if reviews != [] {
      var tail := reviews[1..];
      assert OneReviewPerUser(tail);
      WithoutUserUnique(tail, user);
      if reviews[0].user != user {
        var w := WithoutUser(tail, user);
        forall j | 0 <= j < |w| ensures w[j].user != reviews[0].user {
          assert w[j] in tail;
        }
      }
    }
  }

  // ---------------------------------------------------------------------------
  // The document

  class ProductDocument {
    var name: string
    var price: Price
    var isActive: bool
    var images: seq<Image>
    var sizes: seq<StockEntry>
    var colors: seq<StockEntry>
    var reviews: seq<Review>
    var ratingAverage: real
    var ratingCount: nat
    var viewCount: int
    var salesCount: int
    var slug: string

    /** The state the pre-save hook leaves behind: running it again changes nothing. */
    predicate Saved()
      reads this
    {
      && (slug == "" && name != "" ==> Slugify(name) == "")
      && (images != [] ==> HasPrimary(images))
    }

    /** The schema's invariants (stock counters are `min: 0`, the rating count
        follows the reviews) and the hook's. */
    predicate Valid()
      reads this
    {
      && NonNegativeStock(sizes)
      && NonNegativeStock(colors)
      && ratingCount == |reviews|
      && OneReviewPerUser(reviews)
      && Saved()
    }

    /** A new document, saved once. */
    constructor (name: string, price: Price, images: seq<Image>,
                 sizes: seq<StockEntry>, colors: seq<StockEntry>)
      requires NonNegativeStock(sizes) && NonNegativeStock(colors)
      ensures Valid()
      ensures this.name == name && this.price == price && isActive
      ensures this.sizes == sizes && this.colors == colors
      ensures reviews == [] && ratingCount == 0 && viewCount == 0 && salesCount == 0
      ensures slug == (if name != "" then Slugify(name) else "")
      ensures this.images == (if images != [] && !HasPrimary(images)
                              then images[0 := images[0].(isPrimary := true)] else images)
    {
      this.name := name;
      this.price := price;
      this.isActive := true;
      this.images := images;
      this.sizes := sizes;
      this.colors := colors;
      this.reviews := [];
      this.ratingAverage := 0.0;
      this.ratingCount := 0;
      this.viewCount := 0;
      this.salesCount := 0;
      this.slug := "";
      new;
      PreSave();
    }

    /** The pre-save hook: a slug is generated from the name only when none is set,
        and the first image becomes primary when no image is. */
    method PreSave()
      modifies this
      ensures Saved()
      ensures slug == (if old(slug) == "" && name != "" then Slugify(name) else old(slug))
      ensures images == (if old(images) != [] && !HasPrimary(old(images))
                         then old(images)[0 := old(images)[0].(isPrimary := true)]
                         else old(images))
      ensures name == old(name) && price == old(price) && isActive == old(isActive)
      ensures sizes == old(sizes) && colors == old(colors) && reviews == old(reviews)
      ensures ratingAverage == old(ratingAverage) && ratingCount == old(ratingCount)
      ensures viewCount == old(viewCount) && salesCount == old(salesCount)
    {
      if slug == "" && name != "" {
        slug := Slugify(name);
      }
      if images != [] && !HasPrimary(images) {
        images := images[0 := images[0].(isPrimary := true)];
        assert images[0].isPrimary;
      }
    }

    /** `updateStock`: the first matching size and the first matching colour each
        lose `quantity`, floored at zero; a missing size or colour is skipped. */
    method UpdateStock(size: string, color: string, quantity: int)
      requires Valid()
      modifies this
      ensures Valid()
      ensures sizes == DecrementFirst(old(sizes), size, quantity)
      ensures colors == DecrementFirst(old(colors), color, quantity)
      ensures name == old(name) && price == old(price) && isActive == old(isActive)
      ensures images == old(images) && slug == old(slug) && reviews == old(reviews)
      ensures ratingAverage == old(ratingAverage) && ratingCount == old(ratingCount)
      ensures viewCount == old(viewCount) && salesCount == old(salesCount)
    {
      DecrementFirstNonNegative(sizes, size, quantity);
      DecrementFirstNonNegative(colors, color, quantity);
      sizes := DecrementFirst(sizes, size, quantity);
      colors := DecrementFirst(colors, color, quantity);
      PreSave();
    }

    /** `addReview`: the user's earlier review is dropped, the new one appended
        last, and the count and mean recomputed over the remaining reviews. */
    method AddReview(user: string, authorName: string, rating: int, comment: string)
      requires Valid()
      modifies this
      ensures Valid()
      ensures reviews == WithoutUser(old(reviews), user) + [Review(user, authorName, rating, comment)]
      ensures ratingCount == |reviews|
      ensures ratingAverage == MeanRating(reviews)
      ensures RatingsInRange(old(reviews)) && 1 <= rating <= 5 ==> 1.0 <= ratingAverage <= 5.0
      ensures name == old(name) && price == old(price) && isActive == old(isActive)
      ensures sizes == old(sizes) && colors == old(colors)
      ensures images == old(images) && slug == old(slug)
      ensures viewCount == old(viewCount) && salesCount == old(salesCount)
    {
      var review := Review(user, authorName, rating, comment);
      ReplaceReviewKeepsUnique(reviews, review);
      var kept := WithoutUser(reviews, user);
      reviews := kept + [review];
      ratingAverage := MeanRating(reviews);
      ratingCount := |reviews|;
      if RatingsInRange(old(reviews)) && 1 <= rating <= 5 {
        assert forall x :: x in kept ==> x in old(reviews);
        assert RatingsInRange(reviews) by {
          forall i | 0 <= i < |reviews| ensures 1 <= reviews[i].rating <= 5 {
            if i < |kept| { assert reviews[i] in old(reviews); }
          }
        }
        MeanRatingBounds(reviews);
      }
      PreSave();
    }

    /** `incrementView`. */
    method IncrementView()
      requires Valid()
      modifies this
      ensures Valid()
      ensures viewCount == old(viewCount) + 1
      ensures salesCount == old(salesCount) && sizes == old(sizes) && colors == old(colors)
      ensures reviews == old(reviews) && images == old(images) && slug == old(slug)
      ensures name == old(name) && price == old(price) && isActive == old(isActive)
      ensures ratingAverage == old(ratingAverage) && ratingCount == old(ratingCount)
    {
      viewCount := viewCount + 1;
      PreSave();
    }

    /** `incrementSales(quantity = 1)`. */
    method IncrementSales(quantity: Option<int>)
      requires Valid()
      modifies this
      ensures Valid()
      ensures salesCount == old(salesCount) + quantity.GetOr(1)
      ensures viewCount == old(viewCount) && sizes == old(sizes) && colors == old(colors)
      ensures reviews == old(reviews) && images == old(images) && slug == old(slug)
      ensures name == old(name) && price == old(price) && isActive == old(isActive)
      ensures ratingAverage == old(ratingAverage) && ratingCount == old(ratingCount)
    {
      salesCount := salesCount + quantity.GetOr(1);
      PreSave();
    }
  }
}
