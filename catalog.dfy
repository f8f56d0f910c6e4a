/**
 * The catalog as `json_decode( $body, true )` hands it to the plugin: a list of
 * category nodes, each with children, each with products. Any node may be a
 * non-array value, and any key may be missing or null (`isset` is false for
 * both), so every field is optional. A decoded JSON object is a PHP array
 * too and passes every `is_array` test; a list here stands for a JSON array
 * or for a JSON object's member values, in order, which is what `foreach`
 * walks.
 *
 * Besides the raw tree, this module gives two reference views of it that the
 * dropdown is proved against: the well-formed products in tree order, and the
 * headings (well-formed categories and children) in tree order.
 */
module Catalog {
  import opened Wrappers

  /** A non-null JSON scalar: a string, or some other value shown by its PHP string conversion.
      Only `Text` values can be `===` to a PHP string. */
  datatype Field = Text(s: string) | NonText(shown: string)

  datatype Product = ProductScalar | ProductArray(url: Option<Field>, name: Option<Field>)
  /** `products` is None when the key is missing, null or not a PHP array (JSON array or object). */
  datatype Child = ChildScalar | ChildArray(name: Option<Field>, products: Option<seq<Product>>)
  /** `children` is None when the key is missing, null or not a PHP array (JSON array or object). */
  datatype Category = CategoryScalar | CategoryArray(name: Option<Field>, children: Option<seq<Child>>)

  type Catalog = seq<Category>

  /** `is_array( $product ) && isset( $product['url'], $product['name'] )`. */
  predicate WellFormedProduct(p: Product) {
    p.ProductArray? && p.url.Some? && p.name.Some?
  }

  /** `is_array( $child ) && isset( $child['name'] )`. */
  predicate WellFormedChild(c: Child) {
    c.ChildArray? && c.name.Some?
  }

  /** `is_array( $parent ) && isset( $parent['name'] )`. */
  predicate WellFormedCategory(c: Category) {
    c.CategoryArray? && c.name.Some?
  }

  /** The products a child's loop iterates over. */
  function ProductsOf(c: Child): seq<Product> {
    if c.ChildArray? && c.products.Some? then c.products.value else []
  }

  /** The children a category's loop iterates over. */
  function ChildrenOf(c: Category): seq<Child> {
    if c.CategoryArray? && c.children.Some? then c.children.value else []
  }

  /** A product that gets an option: its url and name. */
  datatype Listed = Listed(url: Field, name: Field)

  function ListedProduct(p: Product): seq<Listed> {
    if WellFormedProduct(p) then [Listed(p.url.value, p.name.value)] else []
  }

  function ListedInProducts(ps: seq<Product>): seq<Listed>
    decreases |ps|
  {
    if ps == [] then [] else ListedInProducts(ps[..|ps| - 1]) + ListedProduct(ps[|ps| - 1])
  }

  function ListedInChild(c: Child): seq<Listed> {
    if WellFormedChild(c) then ListedInProducts(ProductsOf(c)) else []
  }

  function ListedInChildren(cs: seq<Child>): seq<Listed>
    decreases |cs|
  {
    if cs == [] then [] else ListedInChildren(cs[..|cs| - 1]) + ListedInChild(cs[|cs| - 1])
  }

  function ListedInCategory(c: Category): seq<Listed> {
    if WellFormedCategory(c) then ListedInChildren(ChildrenOf(c)) else []
  }

  /** Every product reachable through well-formed ancestors and itself well formed, in tree order. */
  function ListedInCatalog(cats: Catalog): seq<Listed>
    decreases |cats|
  {
    if cats == [] then [] else ListedInCatalog(cats[..|cats| - 1]) + ListedInCategory(cats[|cats| - 1])
  }

  /** A non-selectable heading: a category or a child, by name. */
  datatype Heading = CategoryHeading(name: Field) | ChildHeading(name: Field)

  function ChildHeadings(c: Child): seq<Heading> {
    if WellFormedChild(c) then [ChildHeading(c.name.value)] else []
  }

  function HeadingsInChildren(cs: seq<Child>): seq<Heading>
    decreases |cs|
  {
    if cs == [] then [] else HeadingsInChildren(cs[..|cs| - 1]) + ChildHeadings(cs[|cs| - 1])
  }

  function CategoryHeadings(c: Category): seq<Heading> {
    if WellFormedCategory(c) then [CategoryHeading(c.name.value)] + HeadingsInChildren(ChildrenOf(c)) else []
  }

  /** Every well-formed category, followed by its well-formed children, in tree order. */
  function HeadingsInCatalog(cats: Catalog): seq<Heading>
    decreases |cats|
  {
    if cats == [] then [] else HeadingsInCatalog(cats[..|cats| - 1]) + CategoryHeadings(cats[|cats| - 1])
  }

  /** The number of well-formed children among `cs`. */
  function WellFormedChildCount(cs: seq<Child>): nat
    decreases |cs|
  {
    if cs == [] then 0 else WellFormedChildCount(cs[..|cs| - 1]) + (if WellFormedChild(cs[|cs| - 1]) then 1 else 0)
  }

  /** The number of well-formed categories, and of well-formed children inside them. */
  function WellFormedCounts(cats: Catalog): (counts: (nat, nat))
    decreases |cats|
  {
    if cats == [] then (0, 0)
    else
      var before := WellFormedCounts(cats[..|cats| - 1]);
      var c := cats[|cats| - 1];
      if WellFormedCategory(c) then (before.0 + 1, before.1 + WellFormedChildCount(ChildrenOf(c))) else before
  }

  lemma {:induction false} ChildHeadingCount(cs: seq<Child>)
    ensures |HeadingsInChildren(cs)| == WellFormedChildCount(cs)
    decreases |cs|
  {
    if cs != [] {
      ChildHeadingCount(cs[..|cs| - 1]);
    }
  }

  /** There is one heading per well-formed category and one per well-formed child inside one. */
  lemma {:induction false} HeadingCount(cats: Catalog)
    ensures |HeadingsInCatalog(cats)| == WellFormedCounts(cats).0 + WellFormedCounts(cats).1
    decreases |cats|
  {
    if cats != [] {
      HeadingCount(cats[..|cats| - 1]);
      ChildHeadingCount(ChildrenOf(cats[|cats| - 1]));
    }
  }
}
