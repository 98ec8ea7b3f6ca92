/** The product detail view: a quantity selector floored at 1, the image
    gallery selection, the discount badges and the add-to-cart hand-off. */
module ProductDetail {
  import opened Options
  import opened ProductCard

  /** The gallery: the product's own image followed by three fixed extra
      pictures. */
  function ProductImages(p: Product): (images: seq<string>)
    ensures |images| == 4 && images[0] == p.image
  {
    [p.image, "pexels-photo-1925536", "book-address-book-learning-learn-159751", "pexels-photo-261857"]
  }

  /** `Math.max(1, prev + change)`: the next quantity is at least 1 and is
      `prev + change` whenever that is at least 1. */
  function NextQuantity(prev: int, change: int): (q: int)
    ensures q >= 1
    ensures q >= prev + change
    ensures prev + change >= 1 ==> q == prev + change
    ensures prev + change < 1 ==> q == 1
  {
    if prev + change > 1 then prev + change else 1
  }

  /** The minus button at quantity 1 leaves it at 1; the plus button adds
      exactly one, without an upper bound. */
  lemma QuantityButtons(q: int)
    requires q >= 1
    ensures NextQuantity(1, -1) == 1
    ensures NextQuantity(q, 1) == q + 1
    ensures q > 1 ==> NextQuantity(q, -1) == q - 1
  {
  }

  /** The "Save" amount beside the price: shown only for a positive
      discount, which needs a (truthy) original price; for a positive
      original price the amount saved is positive. */
  function SaveAmount(p: Product): (save: Option<real>)
    ensures save.Some? <==> Discount(p) > 0
    ensures save.Some? ==> p.originalPrice.Some? && save.value == p.originalPrice.value - p.price
    ensures save.Some? && p.originalPrice.value > 0.0 ==> save.value > 0.0
  {
    if Discount(p) > 0 then
      PositiveDiscountMeansMarkdown(p);
      Some(p.originalPrice.value - p.price)
    else None
  }

  class ProductDetailView {
    const product: Product
    var quantity: int
    var selectedImage: int

    ghost predicate Valid()
      reads this
    {
      quantity >= 1 && 0 <= selectedImage < |ProductImages(product)|
    }

    /** The minus button is disabled at quantity 1 or below: exactly where
        a decrement would be clamped back to the current quantity. */
    predicate MinusEnabled(): (enabled: bool)
      reads this
      ensures enabled ==> NextQuantity(quantity, -1) == quantity - 1
      ensures !enabled && quantity >= 1 ==> NextQuantity(quantity, -1) == quantity
    {
      quantity > 1
    }

    /** The large picture is always a valid gallery entry. */
    function ShownImage(): (image: string)
      reads this
      requires Valid()
      ensures image in ProductImages(product)
    {
      ProductImages(product)[selectedImage]
    }

    /** A fresh view: quantity 1 and the product's own picture. */
    constructor (product: Product)
      ensures Valid()
      ensures this.product == product && quantity == 1 && selectedImage == 0
      ensures ShownImage() == product.image
    {
      this.product := product;
      quantity := 1;
      selectedImage := 0;
    }

    /** `handleQuantityChange`. */
    method ChangeQuantity(change: int)
      requires Valid()
      modifies this
      ensures Valid()
      ensures quantity == NextQuantity(old(quantity), change)
      ensures selectedImage == old(selectedImage)
    {
      quantity := NextQuantity(quantity, change);
    }

    /** The minus button: a click while it is disabled does nothing. */
    method Decrement()
      requires Valid()
      modifies this
      ensures Valid()
      ensures quantity == if old(quantity) > 1 then old(quantity) - 1 else old(quantity)
      ensures selectedImage == old(selectedImage)
    {
      if MinusEnabled() {
        ChangeQuantity(-1);
      }
    }

    /** The plus button. */
    method Increment()
      requires Valid()
      modifies this
      ensures Valid()
      ensures quantity == old(quantity) + 1
      ensures selectedImage == old(selectedImage)
    {
      ChangeQuantity(1);
    }

    /** A thumbnail click; thumbnails exist only for gallery indices. */
    method SelectImage(index: int)
      requires Valid() && 0 <= index < |ProductImages(product)|
      modifies this
      ensures Valid()
      ensures selectedImage == index && quantity == old(quantity)
      ensures ShownImage() == ProductImages(product)[index]
    {
      selectedImage := index;
    }

    /** The add-to-cart button hands the shown product and the current
        quantity to the shell. */
    method AddToCart() returns (call: AddToCartCall)
      requires Valid()
      ensures call.product == product && call.quantity == Some(quantity)
      ensures call.quantity.value >= 1
    {
      call := AddToCartCall(product, Some(quantity));
    }
  }
}
