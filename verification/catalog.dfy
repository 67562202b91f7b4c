/**
 * The product records of the storefront's catalogue (`/data/products.json`),
 * as both the listing page and the detail page read them. Prices are whole
 * cents; fields neither page reads are not modelled.
 */
module Catalog {

  /** One entry of a product's `colors`: display name, CSS value and code. */
  datatype Color = Color(name: string, value: string, code: string)

  /** One entry of a product's `variants`: a (size, color code) pair with its stock. */
  datatype Variant = Variant(id: string, size: string, color: string, sku: string, stock: int, price: int)

  datatype Product = Product(
    id: string,
    name: string,
    description: string,
    price: int,
    category: string,
    collection: string,
    images: seq<string>,
    sizes: seq<string>,
    colors: seq<Color>,
    variants: seq<Variant>,
    tags: seq<string>,
    newArrival: bool)

  /** Cents per currency unit: the listing's price bounds are whole currency units. */
  const Cents: int := 100
}
