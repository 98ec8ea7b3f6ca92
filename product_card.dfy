/** The `Product` record and the rules a product card derives from it: the
    discount percentage, the two badges, the filled stars of the rating and
    the quick "Add" button. */
module ProductCard {
  import opened Options

  /** A catalog product. `originalPrice`, `isNew` and `isSale` are optional. */
  datatype Product = Product(
    id: int,
    name: string,
    price: real,
    originalPrice: Option<real>,
    rating: real,
    reviews: int,
    image: string,
    category: string,
    isNew: Option<bool>,
    isSale: Option<bool>)

  /** The argument list of the `onAddToCart` callback: the product and, when
      the caller supplies one, a quantity. */
  datatype AddToCartCall = AddToCartCall(product: Product, quantity: Option<int>)

  /** JavaScript truthiness of an optional flag: only a present `true` counts. */
  predicate Flag(b: Option<bool>) {
    b == Some(true)
  }

  /** JavaScript truthiness of `originalPrice`: present and non-zero. */
  predicate HasOriginalPrice(p: Product) {
    p.originalPrice.Some? && p.originalPrice.value != 0.0
  }

  /** `Math.round`: the nearest integer, a half rounded up. */
  function Round(x: real): (r: int)
    ensures r as real - 0.5 <= x < r as real + 0.5
  {
    (x + 0.5).Floor
  }

  /** The markdown of `originalPrice` to `price`, in percent, before rounding. */
  function Markdown(p: Product): real
    requires HasOriginalPrice(p)
  {
    (p.originalPrice.value - p.price) / p.originalPrice.value * 100.0
  }

  /** The discount shown on the card and in the detail view: 0 without a
      (non-zero) original price, so there is never a division by zero;
      otherwise the markdown rounded to the nearest whole percent. */
  function Discount(p: Product): (d: int)
    ensures !HasOriginalPrice(p) ==> d == 0
    ensures HasOriginalPrice(p) ==> d as real - 0.5 <= Markdown(p) < d as real + 0.5
  {
    if HasOriginalPrice(p) then Round(Markdown(p)) else 0
  }

  /** A positive original price at or above a non-negative price gives a
      discount between 0 and 100 percent. */
  lemma DiscountInRange(p: Product)
    requires p.originalPrice.Some? && p.originalPrice.value > 0.0
    requires 0.0 <= p.price <= p.originalPrice.value
    ensures 0 <= Discount(p) <= 100
  {
    var op := p.originalPrice.value;
    var ratio := (op - p.price) / op;
    assert 0.0 <= ratio <= 1.0 by {
      assert ratio * op == op - p.price;
    }
    assert 0.0 <= Markdown(p) <= 100.0;
  }

  /** Discount is positive exactly when there is an original price and the
      markdown is at least half a percent. */
  lemma DiscountPositive(p: Product)
    ensures Discount(p) > 0 <==> HasOriginalPrice(p) && Markdown(p) >= 0.5
  {
  }

  /** The red sale badge: the product is flagged on sale and has a positive
      discount. */
  predicate SaleBadge(p: Product): (shown: bool)
    ensures shown ==> HasOriginalPrice(p) && Flag(p.isSale)
  {
    Flag(p.isSale) && Discount(p) > 0
  }

  /** The green "New" badge. */
  predicate NewBadge(p: Product) {
    Flag(p.isNew)
  }

  /** A positive discount needs a truthy original price and, when that
      price is positive, a product that is actually cheaper than it. */
  lemma PositiveDiscountMeansMarkdown(p: Product)
    requires Discount(p) > 0
    ensures HasOriginalPrice(p)
    ensures p.originalPrice.value > 0.0 ==> p.price < p.originalPrice.value
  {
  }

  /** The sale badge shows exactly for a product flagged on sale whose
      markdown rounds to at least one percent. */
  lemma SaleBadgeShown(p: Product)
    ensures SaleBadge(p) <==> Flag(p.isSale) && HasOriginalPrice(p) && Markdown(p) >= 0.5
  {
  }

  /** The five rating stars of the card, `true` for a filled one: star `i`
      is filled when `i < floor(rating)`. */
  function Stars(rating: real): (s: seq<bool>)
    ensures |s| == 5
    ensures forall i :: 0 <= i < 5 ==> s[i] == (i < rating.Floor)
  {
    seq(5, i => i < rating.Floor)
  }

  /** The number of `true` entries of `s`. */
  function CountTrue(s: seq<bool>): nat {
    if s == [] then 0 else CountTrue(s[..|s| - 1]) + (if s[|s| - 1] then 1 else 0)
  }

  function Clamp(x: int, lo: int, hi: int): int
    requires lo <= hi
  {
    if x < lo then lo else if x > hi then hi else x
  }

  /** A row of stars filled below `f` has min(length, max(0, f)) filled ones. */
  lemma {:induction false} CountFilledPrefix(s: seq<bool>, f: int)
    requires forall i :: 0 <= i < |s| ==> s[i] == (i < f)
    ensures CountTrue(s) == Clamp(f, 0, |s|)
  {
    if s != [] {
      var init := s[..|s| - 1];
      assert forall i :: 0 <= i < |init| ==> init[i] == s[i];
      CountFilledPrefix(init, f);
    }
  }

  /** The number of filled stars is floor(rating) clamped to 0..5. */
  lemma FilledStars(rating: real)
    ensures CountTrue(Stars(rating)) == Clamp(rating.Floor, 0, 5)
  {
    CountFilledPrefix(Stars(rating), rating.Floor);
  }

  /** The quick "Add" button passes the product unchanged and no quantity. */
  function QuickAdd(p: Product): (call: AddToCartCall)
    ensures call.product == p && call.quantity.None?
  {
    AddToCartCall(p, None)
  }
}
