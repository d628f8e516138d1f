/**
 * The product document (backend/models/Product.js): its fields, the `category` enum,
 * the three boolean defaults, and what Mongoose's validators demand before a save.
 */
module ProductModel {
  import opened Optional

  /** The values the `category` enum admits. */
  const Categories: seq<string> :=
    ["iPhone", "iPad", "Mac", "Watch", "AirPods", "TV & Home", "Accessories"]

  /** A saved product. `specifications` (a map of strings) and the timestamps are not modelled. */
  datatype Product = Product(
    id: string,
    name: string,
    description: string,
    price: real,
    originalPrice: Option<real>,
    category: string,
    subCategory: Option<string>,
    images: seq<string>,
    sizes: seq<string>,
    colors: seq<string>,
    bestseller: bool,
    featured: bool,
    inStock: bool)

  /**
   * What the schema demands of a stored product. Mongoose's `required` rejects an empty
   * string, so the required strings are non-empty, and so is every image entry.
   */
  predicate Valid(p: Product) {
    && p.name != ""
    && p.description != ""
    && p.category in Categories
    && forall i :: 0 <= i < |p.images| ==> p.images[i] != ""
  }

  /** The object handed to `new Product({...})`: any field may be missing. */
  datatype Draft = Draft(
    name: Option<string>,
    description: Option<string>,
    price: Option<real>,
    originalPrice: Option<real>,
    category: Option<string>,
    subCategory: Option<string>,
    images: seq<string>,
    sizes: seq<string>,
    colors: seq<string>,
    bestseller: Option<bool>,
    featured: Option<bool>,
    inStock: Option<bool>)

  /** The draft passes the schema's `required` and `enum` validators. */
  predicate Admissible(d: Draft) {
    && d.name.Some? && d.name.value != ""
    && d.description.Some? && d.description.value != ""
    && d.price.Some?
    && d.category.Some? && d.category.value in Categories
    && forall i :: 0 <= i < |d.images| ==> d.images[i] != ""
  }

  /**
   * Constructing and saving a document: absent booleans take their defaults (`bestseller`
   * and `featured` false, `inStock` true), then validation either accepts the document or
   * the save fails (None).
   */
  function Save(id: string, d: Draft): (r: Option<Product>)
    ensures r.Some? <==> Admissible(d)
    ensures r.Some? ==> Valid(r.value) && r.value.id == id
    ensures r.Some? ==> r.value.name == d.name.value && r.value.description == d.description.value
                        && r.value.price == d.price.value && r.value.category == d.category.value
    ensures r.Some? ==> r.value.originalPrice == d.originalPrice && r.value.subCategory == d.subCategory
    ensures r.Some? ==> r.value.images == d.images && r.value.sizes == d.sizes && r.value.colors == d.colors
    ensures r.Some? ==> && (r.value.bestseller <==> d.bestseller == Some(true))
                        && (r.value.featured <==> d.featured == Some(true))
                        && (r.value.inStock <==> d.inStock != Some(false))
  {
    if Admissible(d) then
      Some(Product(
        id, d.name.value, d.description.value, d.price.value, d.originalPrice,
        d.category.value, d.subCategory, d.images, d.sizes, d.colors,
        d.bestseller.GetOr(false), d.featured.GetOr(false), d.inStock.GetOr(true)))
    else
      None
  }

  /** A draft that says nothing about the flags is saved as not a bestseller, not featured, in stock. */
  lemma SaveDefaults(id: string, d: Draft)
    requires Admissible(d)
    requires d.bestseller.None? && d.featured.None? && d.inStock.None?
    ensures Save(id, d).Some?
    ensures !Save(id, d).value.bestseller && !Save(id, d).value.featured && Save(id, d).value.inStock
  {
  }
}
