/**
 * The product detail page: which product a route id shows, the default
 * size and color chosen when it loads, which variant the selection
 * resolves to, its stock, and what "add to cart" does with the selection.
 * The cart itself and the toast component are outside the page; the
 * outcome of an add is returned as a value naming the cart line handed to
 * `addItem` and the toast shown.
 */
module ProductDetailPage {
  import opened Wrappers
  import opened Sequences
  import opened Catalog

  // ---------------------------------------------------------------------
  // Finding the product and the variant
  // ---------------------------------------------------------------------

  function HasId(id: string): Product -> bool
  {
    (p: Product) => p.id == id
  }

  /** Index `i` holds the first product of `products` with the given id. */
  predicate FirstWithId(products: seq<Product>, id: string, i: int)
  {
    0 <= i < |products| && products[i].id == id && forall j :: 0 <= j < i ==> products[j].id != id
  }

  /** `products.find(p => p.id === id)`: the first product with the route's id. */
  function FindProduct(products: seq<Product>, id: string): (r: Option<Product>)
    ensures r.None? <==> forall i :: 0 <= i < |products| ==> products[i].id != id
    ensures r.Some? ==> exists i :: FirstWithId(products, id, i)
    ensures forall i :: FirstWithId(products, id, i) ==> r == Some(products[i])
  {
    var found := Find(products, HasId(id));
    assert (found.Some? ==> exists i :: FirstWithId(products, id, i)) &&
           forall i :: FirstWithId(products, id, i) ==> found == Some(products[i]) by {
      if found.Some? {
        var k :| 0 <= k < |products| && products[k] == found.value && products[k].id == id &&
                 forall j :: 0 <= j < k ==> products[j].id != id;
        assert FirstWithId(products, id, k);
        assert forall i :: FirstWithId(products, id, i) ==> i == k;
      }
    }
    found
  }

  /** A variant answers a selection when both its size and its color code equal the selected ones. */
  predicate Fits(v: Variant, size: string, color: string)
  {
    v.size == size && v.color == color
  }

  function Fitting(size: string, color: string): Variant -> bool
  {
    (v: Variant) => Fits(v, size, color)
  }

  /** Index `i` holds the first variant of `vs` that answers the selection. */
  predicate FirstFit(vs: seq<Variant>, size: string, color: string, i: int)
  {
    0 <= i < |vs| && Fits(vs[i], size, color) && forall j :: 0 <= j < i ==> !Fits(vs[j], size, color)
  }

  /**
   * `getSelectedVariant`: nothing while no product is loaded, otherwise the
   * first variant matching the selected size and color, if there is one.
   */
  function SelectedVariant(product: Option<Product>, size: string, color: string): (r: Option<Variant>)
    ensures product.None? ==> r.None?
    ensures product.Some? ==>
              (r.None? <==> forall i :: 0 <= i < |product.value.variants| ==> !Fits(product.value.variants[i], size, color))
    ensures r.Some? ==> product.Some? &&
                        exists i :: FirstFit(product.value.variants, size, color, i) && product.value.variants[i] == r.value
  {
    if product.None? then None
    else Find(product.value.variants, Fitting(size, color))
  }

  /** `getMaxStock`: the stock of the resolved variant, and 0 when none resolves. */
  function MaxStock(product: Option<Product>, size: string, color: string): (r: int)
    ensures product.None? ==> r == 0
    ensures product.Some? && (forall i :: 0 <= i < |product.value.variants| ==> !Fits(product.value.variants[i], size, color))
            ==> r == 0
    ensures product.Some? ==> forall i :: FirstFit(product.value.variants, size, color, i) ==>
                                            r == product.value.variants[i].stock
  {
    var variant := SelectedVariant(product, size, color);
    if variant.Some? then variant.value.stock else 0
  }

  /** `isInStock`: the first matching variant has stock left, so a product and a variant are resolved. */
  predicate IsInStock(product: Option<Product>, size: string, color: string)
    ensures IsInStock(product, size, color) ==> product.Some? && SelectedVariant(product, size, color).Some?
  {
    MaxStock(product, size, color) > 0
  }

  /**
   * In stock exactly when a product is loaded and the first variant that
   * answers the selection has a positive stock; a later variant with the
   * same size and color is never consulted.
   */
  lemma InStockIffFirstFitHasStock(product: Option<Product>, size: string, color: string)
    ensures IsInStock(product, size, color) <==>
            product.Some? && exists i :: FirstFit(product.value.variants, size, color, i) &&
                                         product.value.variants[i].stock > 0
  {
  }

  // ---------------------------------------------------------------------
  // The cart line and the color label
  // ---------------------------------------------------------------------

  function HasCode(code: string): Color -> bool
  {
    (c: Color) => c.code == code
  }

  /** Index `i` holds the first color of `colors` with the given code. */
  predicate FirstWithCode(colors: seq<Color>, code: string, i: int)
  {
    0 <= i < |colors| && colors[i].code == code && forall j :: 0 <= j < i ==> colors[j].code != code
  }

  /** `product.colors.find(c => c.code === selectedColor)`. */
  function ColorWithCode(colors: seq<Color>, code: string): (r: Option<Color>)
    ensures r.None? <==> forall i :: 0 <= i < |colors| ==> colors[i].code != code
    ensures forall i :: FirstWithCode(colors, code, i) ==> r == Some(colors[i])
  {
    var found := Find(colors, HasCode(code));
    assert forall i :: FirstWithCode(colors, code, i) ==> found == Some(colors[i]) by {
      if found.Some? {
        var k :| 0 <= k < |colors| && colors[k] == found.value && colors[k].code == code &&
                 forall j :: 0 <= j < k ==> colors[j].code != code;
        assert forall i :: FirstWithCode(colors, code, i) ==> i == k;
      }
    }
    found
  }

  /**
   * `selectedColorObj?.name || selectedColor`: the name of the first color
   * with the selected code, unless there is none or its name is empty, in
   * which case the code itself.
   */
  function ColorLabel(colors: seq<Color>, code: string): (r: string)
    ensures (forall i :: 0 <= i < |colors| ==> colors[i].code != code) ==> r == code
    ensures forall i :: FirstWithCode(colors, code, i) ==> r == if colors[i].name != "" then colors[i].name else code
  {
    var found := ColorWithCode(colors, code);
    if found.Some? && found.value.name != "" then found.value.name else code
  }

  /**
   * `${selectedColorObj?.name}` inside the success message: the name of the
   * first color with the code, which reads "undefined" when there is none.
   */
  function ColorNameText(colors: seq<Color>, code: string): (r: string)
    ensures (forall i :: 0 <= i < |colors| ==> colors[i].code != code) ==> r == "undefined"
    ensures forall i :: FirstWithCode(colors, code, i) ==> r == colors[i].name
  {
    var found := ColorWithCode(colors, code);
    if found.Some? then found.value.name else "undefined"
  }

  /** The argument of `addItem`. `image` is absent when the product has no images. */
  datatype CartLine = CartLine(
    productId: string,
    variantId: string,
    name: string,
    price: int,
    size: string,
    color: string,
    image: Option<string>,
    maxStock: int)

  /** A toast as the page raises it: title, description, and whether it is the destructive variant. */
  datatype Toast = Toast(title: string, description: string, destructive: bool)

  /** What one click on "add to cart" does: a warning and nothing else, or one `addItem` call and a confirmation. */
  datatype AddOutcome = Rejected(toast: Toast) | Added(item: CartLine, toast: Toast)

  const SelectionRequired: Toast :=
    Toast("Auswahl erforderlich", "Bitte w\U{E4}hlen Sie Gr\U{F6}\U{DF}e und Farbe aus.", true)

  const VariantUnavailable: Toast :=
    Toast("Variante nicht verf\U{FC}gbar", "Die gew\U{E4}hlte Kombination ist nicht verf\U{FC}gbar.", true)

  const AddedTitle: string := "Zum Warenkorb hinzugef\U{FC}gt"

  /** `${product.name} (${selectedSize}, ${selectedColorObj?.name}) wurde hinzugefügt.` */
  function AddedText(name: string, size: string, colorName: string): string
  {
    name + " (" + size + ", " + colorName + ") wurde hinzugef\U{FC}gt."
  }

  // ---------------------------------------------------------------------
  // The page's state
  // ---------------------------------------------------------------------

  /** The state cells of the page that the core reads and writes. */
  class DetailPage {
    var product: Option<Product>
    var loading: bool
    var selectedSize: string
    var selectedColor: string

    /** The first render: nothing loaded yet, nothing selected. */
    constructor ()
      ensures product.None? && loading && selectedSize == "" && selectedColor == ""
    {
      product := None;
      loading := true;
      selectedSize := "";
      selectedColor := "";
    }

    /**
     * `loadProduct` after the catalogue arrived: the first product with the
     * id is shown and its first color and first size become the selection;
     * an empty list leaves that selection as it was, and an unknown id
     * changes nothing but `loading`.
     */
    method LoadProduct(products: seq<Product>, id: string)
      modifies this
      ensures FindProduct(products, id).None? ==>
                product == old(product) && selectedColor == old(selectedColor) && selectedSize == old(selectedSize)
      ensures FindProduct(products, id).Some? ==>
                var p := FindProduct(products, id).value;
                && product == Some(p)
                && selectedColor == (if |p.colors| > 0 then p.colors[0].code else old(selectedColor))
                && selectedSize == (if |p.sizes| > 0 then p.sizes[0] else old(selectedSize))
      ensures !loading
    {
      var found := FindProduct(products, id);
      if found.Some? {
        var p := found.value;
        product := Some(p);
        if |p.colors| > 0 {
          selectedColor := p.colors[0].code;
        }
        if |p.sizes| > 0 {
          selectedSize := p.sizes[0];
        }
      }
      loading := false;
    }

    /** `loadProduct` when the fetch or the decoding throws: only `loading` changes. */
    method LoadFailed()
      modifies this
      ensures product == old(product) && selectedSize == old(selectedSize) && selectedColor == old(selectedColor)
      ensures !loading
    {
      loading := false;
    }

    /**
     * `handleAddToCart`. Without a product or with an empty size or color it
     * warns that a selection is needed; when no variant answers the
     * selection it warns that the combination is not available; otherwise
     * it adds one line built from the product and the first answering
     * variant. The variant's stock is not consulted: a variant with no
     * stock left is added all the same.
     */
    method HandleAddToCart() returns (outcome: AddOutcome)
      ensures outcome == Rejected(SelectionRequired) <==>
                product.None? || selectedSize == "" || selectedColor == ""
      ensures outcome == Rejected(VariantUnavailable) <==>
                product.Some? && selectedSize != "" && selectedColor != "" &&
                forall i :: 0 <= i < |product.value.variants| ==> !Fits(product.value.variants[i], selectedSize, selectedColor)
      ensures outcome.Added? <==>
                product.Some? && selectedSize != "" && selectedColor != "" &&
                exists i :: 0 <= i < |product.value.variants| && Fits(product.value.variants[i], selectedSize, selectedColor)
      ensures outcome.Added? ==>
                product.Some? &&
                exists i :: FirstFit(product.value.variants, selectedSize, selectedColor, i) &&
                            outcome.item.variantId == product.value.variants[i].id &&
                            outcome.item.maxStock == product.value.variants[i].stock
      ensures outcome.Added? ==>
                outcome.item.productId == product.value.id && outcome.item.name == product.value.name &&
                outcome.item.price == product.value.price && outcome.item.size == selectedSize &&
                outcome.item.color == ColorLabel(product.value.colors, selectedColor) &&
                outcome.item.image == (if product.value.images != [] then Some(product.value.images[0]) else None) &&
                outcome.toast == Toast(AddedTitle, AddedText(product.value.name, selectedSize,
                                                             ColorNameText(product.value.colors, selectedColor)), false)
    {
      if product.None? || selectedSize == "" || selectedColor == "" {
        return Rejected(SelectionRequired);
      }
      var variant := SelectedVariant(product, selectedSize, selectedColor);
      if variant.None? {
        return Rejected(VariantUnavailable);
      }
      var p := product.value;
      var v := variant.value;
      var item := CartLine(
        p.id,
        v.id,
        p.name,
        p.price,
        selectedSize,
        ColorLabel(p.colors, selectedColor),
        if p.images != [] then Some(p.images[0]) else None,
        v.stock);
      var text := AddedText(p.name, selectedSize, ColorNameText(p.colors, selectedColor));
      outcome := Added(item, Toast(AddedTitle, text, false));
    }
  }
}
