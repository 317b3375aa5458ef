/**
 * The standard-product options panel (components/products/StandardProductOptions.tsx):
 * the variant lookup with its fallback, the quantity clamp, the stock check
 * that guards the order item, and the disabled and low-stock predicates.
 * Prices are in cents.
 */
module StandardOptionsPanel {
  import opened Wrappers
  import opened JsText
  import opened JsArray
  import opened ProductTypes
  import Cart

  /**
   * `variants.find(v => v.variantId === id) || variants[0]`.  The source reads
   * `variants[0]` unconditionally, so a product with no variants is outside it.
   */
  function SelectedVariantOf(variants: seq<Variant>, id: string): (v: Variant)
    requires |variants| > 0
    ensures v in variants
    ensures (exists i :: 0 <= i < |variants| && variants[i].variantId == id) ==> v.variantId == id
    ensures (forall i :: 0 <= i < |variants| ==> variants[i].variantId != id) ==> v == variants[0]
  {
    Find(variants, (v: Variant) => v.variantId == id).GetOr(variants[0])
  }

  /** Of several variants with the same id, the first is selected. */
  lemma SelectedVariantIsFirst(variants: seq<Variant>, id: string, k: nat)
    requires k < |variants| && variants[k].variantId == id
    requires forall j :: 0 <= j < k ==> variants[j].variantId != id
    ensures SelectedVariantOf(variants, id) == variants[k]
  {
    FindFirst(variants, (v: Variant) => v.variantId == id, k);
  }

  /** `Math.max(1, parseInt(value) || 1)`: a positive entry is kept, anything else becomes 1. */
  function ClampQuantity(value: string): (q: int)
    ensures q >= 1
    ensures ParseInt(value).Some? && ParseInt(value).value >= 1 ==> q == ParseInt(value).value
    ensures ParseInt(value).None? || ParseInt(value).value < 1 ==> q == 1
  {
    var n := IntOr(ParseInt(value), 1);
    if n > 1 then n else 1
  }

  /** Typing the decimal form of `n` sets the quantity to `n` when it is positive, else to 1. */
  lemma ClampQuantityOfDecimal(n: int)
    ensures ClampQuantity(Decimal(n)) == if n >= 1 then n else 1
  {
    ParseIntOfDecimal(n);
  }

  /** The add button's `disabled` condition. */
  predicate AddDisabled(quantity: int, stock: int) {
    quantity > stock || quantity == 0
  }

  /** The low-stock badge's condition. */
  predicate LowStock(stock: int) {
    stock < 10 && stock > 0
  }

  /** The variants that show the low-stock badge, in their order. */
  function LowStockVariants(variants: seq<Variant>): (r: seq<Variant>)
    ensures forall v :: v in r <==> v in variants && LowStock(v.stock)
    ensures |r| <= |variants|
  {
    Filter(variants, (v: Variant) => LowStock(v.stock))
  }

  /** For a clamped quantity the button is disabled exactly when the stock check would reject. */
  lemma DisabledIffOverStock(quantity: int, stock: int)
    requires quantity >= 1
    ensures AddDisabled(quantity, stock) <==> quantity > stock
  {
  }

  /** The order item `handleAddToCart` builds. */
  datatype StandardOrderItem = StandardOrderItem(
    productId: string,
    productName: string,
    variantLabel: string,
    unitPrice: int,
    quantity: int,
    finalPrice: int)

  /**
   * The built item's `finalPrice` is the line total, whereas the cart reads
   * `finalPrice` as a unit price and multiplies by the quantity again: a cart
   * line carrying the item's price and quantity is valued at price times
   * quantity squared, which is more than the line total as soon as the
   * quantity exceeds 1 and the price is positive.
   */
  lemma LineTotalCountedTwice(o: StandardOrderItem, c: Cart.CartItem)
    requires o.finalPrice == o.unitPrice * o.quantity
    requires c.finalPrice == o.finalPrice && c.quantity == o.quantity
    ensures Cart.FinalTotal([c]) == o.unitPrice * o.quantity * o.quantity
    ensures o.unitPrice > 0 && o.quantity > 1 ==> Cart.FinalTotal([c]) > o.finalPrice
  {
    assert [c][..0] == [];
    if o.unitPrice > 0 && o.quantity > 1 {
      var line := o.unitPrice * o.quantity;
      assert line > 0 by { MulPositive(o.unitPrice, o.quantity); }
      assert line * o.quantity == line * (o.quantity - 1) + line;
      MulPositive(line, o.quantity - 1);
    }
  }

  lemma MulPositive(a: int, b: int)
    requires a > 0 && b > 0
    ensures a * b > 0
  {
  }

  class Options {
    const product: StandardProduct
    var selectedVariantId: string
    var quantity: int

    /** The product has a variant, and the quantity never drops below 1. */
    ghost predicate Valid()
      reads this
    {
      |product.standardOptions.variants| > 0 && quantity >= 1
    }

    /** The first variant and a quantity of 1. */
    constructor(product: StandardProduct)
      requires |product.standardOptions.variants| > 0
      ensures Valid()
      ensures this.product == product
      ensures selectedVariantId == product.standardOptions.variants[0].variantId && quantity == 1
    {
      this.product := product;
      selectedVariantId := product.standardOptions.variants[0].variantId;
      quantity := 1;
    }

    function SelectedVariant(): Variant
      requires |product.standardOptions.variants| > 0
      reads this
    {
      SelectedVariantOf(product.standardOptions.variants, selectedVariantId)
    }

    /** A variant button: only the selected id changes. */
    method SelectVariant(variantId: string)
      requires Valid()
      modifies this
      ensures Valid()
      ensures selectedVariantId == variantId && quantity == old(quantity)
    {
      selectedVariantId := variantId;
    }

    /** The quantity input. */
    method QuantityChange(value: string)
      requires Valid()
      modifies this
      ensures Valid()
      ensures quantity == ClampQuantity(value) && selectedVariantId == old(selectedVariantId)
    {
      quantity := ClampQuantity(value);
    }

    /**
     * `handleAddToCart`: no item when the quantity exceeds the selected
     * variant's stock (exactly when the button is disabled); otherwise the
     * item priced at the variant's price, with the line total as `finalPrice`.
     */
    method AddToCart() returns (item: Option<StandardOrderItem>)
      requires Valid()
      ensures item.None? <==> quantity > SelectedVariant().stock
      ensures item.None? <==> AddDisabled(quantity, SelectedVariant().stock)
      ensures item.Some? ==>
        item.value == StandardOrderItem(product.id, product.name, SelectedVariant().labelText,
                                        SelectedVariant().price, quantity, SelectedVariant().price * quantity)
    {
      var v := SelectedVariantOf(product.standardOptions.variants, selectedVariantId);
      if quantity > v.stock {
        return None;
      }
      item := Some(StandardOrderItem(product.id, product.name, v.labelText, v.price, quantity, v.price * quantity));
    }
  }
}
