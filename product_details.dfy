/**
 * The product page: the product record as the products service returns it, its
 * normalisation (`transformProduct`), the cached load, the colour / size / quantity
 * selection and the add-to-cart handler that builds a local cart line.
 */
module ProductDetails {
  import opened Wrappers
  import opened Sequences
  import opened Text
  import opened Prices
  import CartContext
  import Cache

  const Https: string := "https://"
  const StorageBase: string := Https + "admin.hashtagfashionbrand.com/storage/"
  const CacheTtl: int := 600000

  const SelectColor: string := "Please select a color variant"
  const SelectSize: string := "Please select a size"
  const Added: string := "Added to cart successfully!"
  const LoadFailed: string := "Failed to load product"

  datatype SizeVariant = SizeVariant(id: Option<int>, size: Option<string>, isActive: bool)

  /** A colour variant; `sizeVariantsRaw` is the service's `size_variants` key. */
  datatype ColorVariant = ColorVariant(
    id: Option<int>, colorName: Option<string>,
    sizeVariantsRaw: Option<seq<SizeVariant>>, sizeVariants: Option<seq<SizeVariant>>)

  /** A product record; `colorVariantsRaw` is the service's `color_variants` key. */
  datatype ProductData = ProductData(
    id: int, name: string, price: PriceInput, imageUrl: Option<string>, image: Option<string>,
    colorVariantsRaw: Option<seq<ColorVariant>>, colorVariants: Option<seq<ColorVariant>>)

  /** The service answers either `{data: product}` or the product itself. */
  datatype ProductResponse = Wrapped(data: ProductData) | Bare(product: ProductData)

  function Unwrap(r: ProductResponse): ProductData
  {
    match r
    case Wrapped(d) => d
    case Bare(p) => p
  }

  /** `a || b || []` on two optional arrays: any array, even an empty one, is truthy. */
  function FirstArray<T>(a: Option<seq<T>>, b: Option<seq<T>>): seq<T>
  {
    if a.Some? then a.value else if b.Some? then b.value else []
  }

  // ---------------------------------------------------------------------------
  // transformProduct

  function TransformVariant(v: ColorVariant): ColorVariant
  {
    v.(sizeVariants := Some(FirstArray(v.sizeVariantsRaw, v.sizeVariants)))
  }

  /** The spread keeps every other key, `color_variants` included. */
  function TransformProduct(p: ProductData): ProductData
  {
    var vs := FirstArray(p.colorVariantsRaw, p.colorVariants);
    p.(colorVariants := Some(seq(|vs|, k requires 0 <= k < |vs| => TransformVariant(vs[k]))))
  }

  /** `transformed.colorVariants || []` */
  function Variants(p: ProductData): seq<ColorVariant>
  {
    p.colorVariants.GetOr([])
  }

  /**
   * The snake-case key wins over the camel-case one, and an absent list becomes empty;
   * each variant keeps its id and name and gets its size list the same way; nothing
   * else in the record changes.
   */
  lemma TransformRule(p: ProductData)
    ensures TransformProduct(p).colorVariants.Some?
    ensures TransformProduct(p).(colorVariants := p.colorVariants) == p
    ensures p.colorVariantsRaw.Some? ==> |Variants(TransformProduct(p))| == |p.colorVariantsRaw.value|
    ensures p.colorVariantsRaw.None? && p.colorVariants.Some? ==> |Variants(TransformProduct(p))| == |p.colorVariants.value|
    ensures p.colorVariantsRaw.None? && p.colorVariants.None? ==> Variants(TransformProduct(p)) == []
    ensures p.colorVariantsRaw.Some? ==>
              forall k :: 0 <= k < |p.colorVariantsRaw.value| ==>
                var v, w := p.colorVariantsRaw.value[k], Variants(TransformProduct(p))[k];
                && w.id == v.id && w.colorName == v.colorName
                && (v.sizeVariantsRaw.Some? ==> w.sizeVariants == v.sizeVariantsRaw)
                && (v.sizeVariantsRaw.None? && v.sizeVariants.None? ==> w.sizeVariants == Some([]))
  {
    var vs := FirstArray(p.colorVariantsRaw, p.colorVariants);
    var ws := Variants(TransformProduct(p));
    forall k | 0 <= k < |vs| ensures ws[k] == TransformVariant(vs[k]) {
    }
  }

  /** Transforming a product that was already transformed (as a cached one is) changes nothing. */
  lemma TransformIdempotent(p: ProductData)
    ensures TransformProduct(TransformProduct(p)) == TransformProduct(p)
  {
    var t := TransformProduct(p);
    var vs := FirstArray(p.colorVariantsRaw, p.colorVariants);
    var ws := FirstArray(t.colorVariantsRaw, t.colorVariants);
    assert |ws| == |vs|;
    forall k | 0 <= k < |vs| ensures TransformVariant(ws[k]) == TransformVariant(vs[k]) {
      if p.colorVariantsRaw.None? {
        assert ws[k] == TransformVariant(vs[k]);
      }
    }
    assert TransformProduct(t).colorVariants.value == t.colorVariants.value;
  }

  /** The list a product reached through a link shows: camel-case key first, unlike `transformProduct`. */
  function PassedItem(item: ProductData): ProductData
  {
    item.(colorVariants := Some(FirstArray(item.colorVariants, item.colorVariantsRaw)))
  }

  // ---------------------------------------------------------------------------
  // Images, sizes, quantity

  /** `getImageUrl`: empty stays empty, absolute URLs stay, anything else is a storage path. */
  function GetImageUrl(path: Option<string>): string
  {
    if path.None? || path.value == "" then ""
    else if StartsWith(path.value, "http") then path.value
    else StorageBase + path.value
  }

  lemma GetImageUrlRule(path: Option<string>)
    ensures GetImageUrl(path) == "" <==> path.None? || path.value == ""
    ensures GetImageUrl(path) != "" ==> StartsWith(GetImageUrl(path), "http")
    ensures path.Some? && StartsWith(path.value, "http") ==> GetImageUrl(path) == path.value
    ensures GetImageUrl(Some(GetImageUrl(path))) == GetImageUrl(path)
  {
    if path.Some? && path.value != "" && !StartsWith(path.value, "http") {
      var r := StorageBase + path.value;
      BaseIsHttp();
      assert r[..4] == StorageBase[..4];
    }
  }

  lemma BaseIsHttp()
    ensures StartsWith(StorageBase, "http")
  {
    assert StorageBase[..4] == Https[..4] == "http";
  }

  /** `product.image_url || base + product.image`; a missing image is rendered as "undefined". */
  function CartImage(p: ProductData): string
  {
    OrDefault(p.imageUrl, StorageBase + p.image.GetOr("undefined"))
  }

  /** The size buttons offered: only active size variants. */
  function ActiveSizes(c: ColorVariant): seq<SizeVariant>
  {
    Filter(c.sizeVariants.GetOr([]), (s: SizeVariant) => s.isActive)
  }

  lemma ActiveSizesRule(c: ColorVariant)
    ensures forall s :: s in ActiveSizes(c) <==> s in c.sizeVariants.GetOr([]) && s.isActive
    ensures Subsequence(ActiveSizes(c), c.sizeVariants.GetOr([]))
    ensures ActiveSizes(c) == Filter(ActiveSizes(c), (s: SizeVariant) => s.isActive)
  {
    FilterIdempotent(c.sizeVariants.GetOr([]), (s: SizeVariant) => s.isActive);
  }

  /** `Math.max(1, q - 1)` */
  function Decremented(q: int): int { if q - 1 < 1 then 1 else q - 1 }

  /** `Math.max(1, Number(value))` for a typed integer. */
  function Typed(v: int): int { if v < 1 then 1 else v }

  lemma QuantityClamp(q: int, v: int)
    requires q >= 1
    ensures 1 <= Decremented(q) <= q
    ensures q > 1 ==> Decremented(q) == q - 1
    ensures Typed(v) >= 1 && (v >= 1 ==> Typed(v) == v)
    ensures Decremented(q + 1) == q
  {
  }

  // ---------------------------------------------------------------------------
  // Add to cart

  /** The add-to-cart guards, in order: None when the item may be added. */
  function AddGuard(p: ProductData, color: Option<ColorVariant>, size: Option<SizeVariant>): Option<string>
  {
    if p.colorVariants.Some? && |p.colorVariants.value| > 0 && color.None? then Some(SelectColor)
    else if color.Some? && color.value.sizeVariants.Some? && |color.value.sizeVariants.value| > 0 && size.None? then
      Some(SelectSize)
    else None
  }

  lemma AddGuardRule(p: ProductData, color: Option<ColorVariant>, size: Option<SizeVariant>)
    ensures AddGuard(p, color, size).None? <==>
              (color.Some? || Variants(p) == [])
              && (size.Some? || color.None? || color.value.sizeVariants.GetOr([]) == [])
    ensures color.Some? && size.Some? ==> AddGuard(p, color, size).None?
    ensures AddGuard(p, color, size) in {None, Some(SelectColor), Some(SelectSize)}
  {
  }

  /** The price the cart line carries: a string loses its commas; the store reads it as a number. */
  function LinePrice(p: ProductData): Number
  {
    match p.price
    case Numeric(n) => Finite(n)
    case Text(s) => CartPrice(Strip(s, ','))
  }

  /** Stripping the commas here and again in the store reads the same number as the store alone. */
  lemma LinePriceReadOnce(p: ProductData)
    requires p.price.Text?
    ensures LinePrice(p) == CartPrice(p.price.text)
  {
    StripAbsent(Strip(p.price.text, ','), ',');
  }

  /** The line `handleAddToCart` hands to the cart. */
  function CartItemFor(p: ProductData, color: Option<ColorVariant>, size: Option<SizeVariant>, quantity: int): CartContext.CartItem
    requires LinePrice(p).Finite?
  {
    CartContext.CartItem(
      p.id, p.name, LinePrice(p).value, CartImage(p),
      if color.None? then "Default" else OrDefault(color.value.colorName, "Default"),
      if color.None? then None else CartContext.OrNull(color.value.id),
      if size.None? then None else CartContext.SizeOrNull(size.value.size),
      if size.None? then None else CartContext.OrNull(size.value.id),
      quantity)
  }

  lemma CartItemRule(p: ProductData, color: Option<ColorVariant>, size: Option<SizeVariant>, quantity: int)
    requires LinePrice(p).Finite? && quantity >= 1
    ensures var item := CartItemFor(p, color, size, quantity);
            && item.id == p.id && item.quantity == quantity && item.color != ""
            && (color.None? ==> item.color == "Default" && item.colorVariantId == None)
            && (size.None? ==> item.size == None && item.sizeVariantId == None)
            && (!CartContext.Falsy(item.sizeVariantId) ==> size.Some? && item.sizeVariantId == size.value.id)
    ensures var item := CartItemFor(p, color, size, quantity);
            p.price.Numeric? ==> item.price == p.price.amount
    ensures var item := CartItemFor(p, color, size, quantity);
            p.imageUrl.Some? && p.imageUrl.value != "" ==> item.image == p.imageUrl.value
    ensures var item := CartItemFor(p, color, size, quantity);
            CartContext.PrepareAdd(item) == item
  {
  }

  /** What the page shows after a load: the cached record, else the fetched one, both transformed. */
  function Loaded(hit: Option<ProductData>, fetched: Result<ProductResponse, Option<string>>): Option<ProductData>
  {
    if hit.Some? then Some(TransformProduct(hit.value))
    else if fetched.Ok? then Some(TransformProduct(Unwrap(fetched.value)))
    else None
  }

  class ProductPage {
    var product: Option<ProductData>
    var loading: bool
    var error: Option<string>
    var selectedColor: Option<ColorVariant>
    var selectedSize: Option<SizeVariant>
    var quantity: int
    var isAddingToCart: bool

    ghost predicate Valid()
      reads this
    {
      quantity >= 1
    }

    constructor ()
      ensures Valid()
      ensures product == None && loading && error == None
      ensures selectedColor == None && selectedSize == None && quantity == 1 && !isAddingToCart
    {
      product, loading, error := None, true, None;
      selectedColor, selectedSize := None, None;
      quantity, isAddingToCart := 1, false;
    }

    /** The product passed along with the link is shown until the fetched one arrives. */
    method ShowPassedItem(item: ProductData)
      modifies this
      ensures product == Some(PassedItem(item))
      ensures loading == old(loading) && error == old(error) && quantity == old(quantity)
      ensures selectedColor == old(selectedColor) && selectedSize == old(selectedSize)
      ensures isAddingToCart == old(isAddingToCart)
    {
      product := Some(PassedItem(item));
    }

    /**
     * `fetchProductDetails`: a live cache entry is used as is; otherwise the service's
     * answer is transformed, shown and cached for ten minutes. Either way the first
     * colour becomes the selection (which resets the size). A failure keeps the product.
     */
    method FetchProductDetails(id: string, now: int, cache: Cache.Cache<ProductData>,
                               fetched: Result<ProductResponse, Option<string>>)
      modifies this, cache
      ensures var key := "product_" + id;
              var hit := Cache.Lookup(old(cache.store), key, now);
              var shown := Loaded(hit, fetched);
              && (shown.Some? ==>
                    && product == shown && error == old(error)
                    && (Variants(shown.value) != [] ==> selectedColor == Some(Variants(shown.value)[0]) && selectedSize == None)
                    && (Variants(shown.value) == [] ==> selectedColor == old(selectedColor) && selectedSize == old(selectedSize)))
              && (hit.Some? ==> cache.store == Cache.AfterLookup(old(cache.store), key, now))
              && (hit.None? && fetched.Ok? ==>
                    cache.store == Cache.AfterLookup(old(cache.store), key, now)[key := Cache.Record(shown.value, now, CacheTtl)])
              && (hit.None? && fetched.Err? ==>
                    && product == old(product) && error == Some(OrDefault(fetched.error, LoadFailed))
                    && selectedColor == old(selectedColor) && selectedSize == old(selectedSize)
                    && cache.store == Cache.AfterLookup(old(cache.store), key, now))
      ensures !loading && quantity == old(quantity) && isAddingToCart == old(isAddingToCart)
    {
      loading := true;
      var key := "product_" + id;
      var cached := cache.GetCache(key, now);
      var shown;
      if cached.Some? {
        shown := TransformProduct(cached.value);
      } else if fetched.Err? {
        error := Some(OrDefault(fetched.error, LoadFailed));
        loading := false;
        return;
      } else {
        shown := TransformProduct(Unwrap(fetched.value));
        cache.SetCache(key, shown, now, Some(CacheTtl));
      }
      product := Some(shown);
      var variants := Variants(shown);
      if |variants| > 0 {
        // a freshly transformed variant is a new object, so the size-reset effect always runs
        selectedColor, selectedSize := Some(variants[0]), None;
      }
      loading := false;
    }

    /**
     * Choosing a colour button. The effect on `selectedColor` clears the size only when
     * the selection changes: clicking the colour already selected keeps the size.
     */
    method SelectColorVariant(v: ColorVariant)
      modifies this
      ensures selectedColor == Some(v)
      ensures selectedSize == if old(selectedColor) == Some(v) then old(selectedSize) else None
      ensures product == old(product) && loading == old(loading) && error == old(error)
      ensures quantity == old(quantity) && isAddingToCart == old(isAddingToCart)
    {
      if selectedColor != Some(v) {
        selectedSize := None;
      }
      selectedColor := Some(v);
    }

    method SelectSizeVariant(s: SizeVariant)
      modifies this
      ensures selectedSize == Some(s)
      ensures product == old(product) && loading == old(loading) && error == old(error)
      ensures selectedColor == old(selectedColor) && quantity == old(quantity) && isAddingToCart == old(isAddingToCart)
    {
      selectedSize := Some(s);
    }

    /** The minus button. */
    method DecreaseQuantity()
      requires Valid()
      modifies this
      ensures Valid() && quantity == Decremented(old(quantity))
      ensures product == old(product) && selectedColor == old(selectedColor) && selectedSize == old(selectedSize)
      ensures loading == old(loading) && error == old(error) && isAddingToCart == old(isAddingToCart)
    {
      quantity := if quantity - 1 < 1 then 1 else quantity - 1;
    }

    /** Typing into the quantity box. */
    method TypeQuantity(v: int)
      requires Valid()
      modifies this
      ensures Valid() && quantity == Typed(v)
      ensures product == old(product) && selectedColor == old(selectedColor) && selectedSize == old(selectedSize)
      ensures loading == old(loading) && error == old(error) && isAddingToCart == old(isAddingToCart)
    {
      quantity := if v < 1 then 1 else v;
    }

    /** The plus button. */
    method IncreaseQuantity()
      requires Valid()
      modifies this
      ensures Valid() && quantity == old(quantity) + 1
      ensures product == old(product) && selectedColor == old(selectedColor) && selectedSize == old(selectedSize)
      ensures loading == old(loading) && error == old(error) && isAddingToCart == old(isAddingToCart)
    {
      quantity := quantity + 1;
    }

    /**
     * `handleAddToCart`: a refused guard shows its message and changes nothing; otherwise
     * the line is added to the cart and the button stays busy until `AddingTimeout`.
     */
    method HandleAddToCart(cart: CartContext.CartProvider) returns (toast: string)
      requires product.Some? && LinePrice(product.value).Finite?
      modifies this, cart
      ensures var guard := AddGuard(old(product).value, old(selectedColor), old(selectedSize));
              && (guard.Some? ==> toast == guard.value && cart.state == old(cart.state) && cart.storage == old(cart.storage)
                                  && isAddingToCart == old(isAddingToCart))
              && (guard.None? ==>
                    && toast == Added && isAddingToCart
                    && cart.state == CartContext.Add(old(cart.state),
                         CartContext.PrepareAdd(CartItemFor(old(product).value, old(selectedColor), old(selectedSize), old(quantity))))
                    && cart.storage == old(cart.storage)[CartContext.StorageKey := cart.state])
      ensures product == old(product) && selectedColor == old(selectedColor) && selectedSize == old(selectedSize)
      ensures quantity == old(quantity) && loading == old(loading) && error == old(error)
    {
      var guard := AddGuard(product.value, selectedColor, selectedSize);
      if guard.Some? {
        return guard.value;
      }
      isAddingToCart := true;
      cart.AddToCart(CartItemFor(product.value, selectedColor, selectedSize, quantity));
      toast := Added;
    }

    /** The delayed reset of the busy flag after a successful add. */
    method AddingTimeout()
      modifies this
      ensures !isAddingToCart
      ensures product == old(product) && selectedColor == old(selectedColor) && selectedSize == old(selectedSize)
      ensures quantity == old(quantity) && loading == old(loading) && error == old(error)
    {
      isAddingToCart := false;
    }
  }
}
