/**
 * `pr_build_dropdown`: the catalog tree flattened into the `<option>` list of a
 * `<select>`. The list is modelled as a sequence of option records; the HTML
 * text of each record is given by `OptionMarkup`, with the escaping functions
 * left to the host.
 */
module Dropdown {
  import opened Wrappers
  import opened Catalog
  import opened WordPress
  import Actions
  import Php
  import Cache
  import Settings

  /** One `<option>`: the leading "no redirect" choice, a disabled category or child heading,
      or a selectable product whose value is its url. */
  datatype Entry =
    | NoRedirect
    | CategoryHeader(name: Field)
    | ChildHeader(name: Field)
    | ProductChoice(url: Field, name: Field, selected: bool)

  // The specification of the list, level by level, in the order the loops append.

  /** The options of each element of `xs`, one after the other. */
  function FlatMap<T>(xs: seq<T>, f: T -> seq<Entry>): seq<Entry>
    decreases |xs|
  {
    if xs == [] then [] else FlatMap(xs[..|xs| - 1], f) + f(xs[|xs| - 1])
  }

  lemma {:induction false} FlatMapAppend<T>(a: seq<T>, b: seq<T>, f: T -> seq<Entry>)
    ensures FlatMap(a + b, f) == FlatMap(a, f) + FlatMap(b, f)
    decreases |b|
  {
    if b == [] {
      assert a + b == a;
    } else {
      assert (a + b)[..|a + b| - 1] == a + b[..|b| - 1];
      FlatMapAppend(a, b[..|b| - 1], f);
    }
  }

  lemma FlatMapStep<T>(xs: seq<T>, i: nat, f: T -> seq<Entry>)
    requires i < |xs|
    ensures FlatMap(xs[..i + 1], f) == FlatMap(xs[..i], f) + f(xs[i])
  {
    assert xs[..i + 1][..i] == xs[..i];
  }

  /** `$selected_redirect === $product['url']`: only a string url equal to the selection. */
  predicate Matches(url: Field, selected: string) {
    url == Text(selected)
  }

  function ProductOption(p: Product, selected: string): seq<Entry> {
    if WellFormedProduct(p) then [ProductChoice(p.url.value, p.name.value, Matches(p.url.value, selected))] else []
  }

  function ProductStep(selected: string): Product -> seq<Entry> {
    p => ProductOption(p, selected)
  }

  function ChildOptions(c: Child, selected: string): seq<Entry> {
    if WellFormedChild(c) then [ChildHeader(c.name.value)] + FlatMap(ProductsOf(c), ProductStep(selected)) else []
  }

  function ChildStep(selected: string): Child -> seq<Entry> {
    c => ChildOptions(c, selected)
  }

  function CategoryOptions(c: Category, selected: string): seq<Entry> {
    if WellFormedCategory(c) then [CategoryHeader(c.name.value)] + FlatMap(ChildrenOf(c), ChildStep(selected)) else []
  }

  function CategoryStep(selected: string): Category -> seq<Entry> {
    c => CategoryOptions(c, selected)
  }

  /** The whole option list: "no redirect" first, then the catalog in tree order. */
  function Options(cats: Catalog, selected: string): (r: seq<Entry>)
    ensures |r| >= 1 && r[0] == NoRedirect
    ensures cats == [] ==> r == [NoRedirect]
  {
    [NoRedirect] + FlatMap(cats, CategoryStep(selected))
  }

  // Views of an option list, to compare with the catalog's reference views.

  /** The selectable product options, with their selected flag, in order. */
  function Choices(es: seq<Entry>): seq<(Listed, bool)>
    decreases |es|
  {
    if es == [] then []
    else
      var last := es[|es| - 1];
      Choices(es[..|es| - 1]) + (if last.ProductChoice? then [(Listed(last.url, last.name), last.selected)] else [])
  }

  /** The disabled headings, in order. */
  function Headings(es: seq<Entry>): seq<Heading>
    decreases |es|
  {
    if es == [] then []
    else
      var last := es[|es| - 1];
      Headings(es[..|es| - 1]) +
      (match last
       case CategoryHeader(n) => [CategoryHeading(n)]
       case ChildHeader(n) => [ChildHeading(n)]
       case _ => [])
  }

  /** Each listed product paired with whether it matches the selection. */
  function Marked(ls: seq<Listed>, selected: string): seq<(Listed, bool)> {
    seq(|ls|, i requires 0 <= i < |ls| => (ls[i], Matches(ls[i].url, selected)))
  }

  /** Every product option in `es` is selected exactly when its url matches. */
  predicate SelectionExact(es: seq<Entry>, selected: string) {
    forall e :: e in es && e.ProductChoice? ==> (e.selected <==> Matches(e.url, selected))
  }

  /** What each level's lemma establishes about the options it contributes. */
  predicate Shaped(es: seq<Entry>, listed: seq<Listed>, headings: seq<Heading>, selected: string) {
    Choices(es) == Marked(listed, selected) && Headings(es) == headings &&
    NoRedirect !in es && SelectionExact(es, selected)
  }

  lemma {:induction false} ChoicesAppend(a: seq<Entry>, b: seq<Entry>)
    ensures Choices(a + b) == Choices(a) + Choices(b)
    decreases |b|
  {
    if b == [] {
      assert a + b == a;
    } else {
      assert (a + b)[..|a + b| - 1] == a + b[..|b| - 1];
      ChoicesAppend(a, b[..|b| - 1]);
    }
  }

  lemma {:induction false} HeadingsAppend(a: seq<Entry>, b: seq<Entry>)
    ensures Headings(a + b) == Headings(a) + Headings(b)
    decreases |b|
  {
    if b == [] {
      assert a + b == a;
    } else {
      assert (a + b)[..|a + b| - 1] == a + b[..|b| - 1];
      HeadingsAppend(a, b[..|b| - 1]);
    }
  }

  lemma ShapedAppend(a: seq<Entry>, la: seq<Listed>, ha: seq<Heading>,
                     b: seq<Entry>, lb: seq<Listed>, hb: seq<Heading>, selected: string)
    requires Shaped(a, la, ha, selected) && Shaped(b, lb, hb, selected)
    ensures Shaped(a + b, la + lb, ha + hb, selected)
  {
    ChoicesAppend(a, b);
    HeadingsAppend(a, b);
    assert Marked(la + lb, selected) == Marked(la, selected) + Marked(lb, selected);
  }

  lemma HeaderShaped(h: Entry, rest: seq<Entry>, listed: seq<Listed>, headings: seq<Heading>, selected: string)
    requires h.CategoryHeader? || h.ChildHeader?
    requires Shaped(rest, listed, headings, selected)
    ensures Shaped([h] + rest, listed,
                   [if h.CategoryHeader? then CategoryHeading(h.name) else ChildHeading(h.name)] + headings, selected)
  {
    assert Choices([h]) == [] by { assert [h][..0] == []; }
    assert Headings([h]) == [if h.CategoryHeader? then CategoryHeading(h.name) else ChildHeading(h.name)] by {
      assert [h][..0] == [];
    }
    assert Marked([], selected) == [];
    ShapedAppend([h], [], Headings([h]), rest, listed, headings, selected);
  }

  lemma ProductOptionShaped(p: Product, selected: string)
    ensures Shaped(ProductOption(p, selected), ListedProduct(p), [], selected)
  {
    var e := ProductOption(p, selected);
    if WellFormedProduct(p) {
      var l := Listed(p.url.value, p.name.value);
      assert e == [ProductChoice(l.url, l.name, Matches(l.url, selected))];
      assert e[..0] == [];
      assert Choices(e) == [(l, Matches(l.url, selected))];
      assert Headings(e) == [];
      assert Marked([l], selected) == [(l, Matches(l.url, selected))];
    } else {
      assert Marked([], selected) == [];
    }
  }

  lemma {:induction false} ProductsShaped(ps: seq<Product>, selected: string)
    ensures Shaped(FlatMap(ps, ProductStep(selected)), ListedInProducts(ps), [], selected)
    decreases |ps|
  {
    if ps == [] {
      assert Marked([], selected) == [];
    } else {
      var init, last := ps[..|ps| - 1], ps[|ps| - 1];
      ProductsShaped(init, selected);
      var e := ProductOption(last, selected);
      ProductOptionShaped(last, selected);
      ShapedAppend(FlatMap(init, ProductStep(selected)), ListedInProducts(init), [],
                   e, ListedProduct(last), [], selected);
    }
  }

  lemma {:induction false} ChildrenShaped(cs: seq<Child>, selected: string)
    ensures Shaped(FlatMap(cs, ChildStep(selected)), ListedInChildren(cs), HeadingsInChildren(cs), selected)
    decreases |cs|
  {
    if cs == [] {
      assert Marked([], selected) == [];
    } else {
      var init, last := cs[..|cs| - 1], cs[|cs| - 1];
      ChildrenShaped(init, selected);
      if WellFormedChild(last) {
        ProductsShaped(ProductsOf(last), selected);
        HeaderShaped(ChildHeader(last.name.value), FlatMap(ProductsOf(last), ProductStep(selected)),
                     ListedInProducts(ProductsOf(last)), [], selected);
      } else {
        assert Marked([], selected) == [];
      }
      ShapedAppend(FlatMap(init, ChildStep(selected)), ListedInChildren(init), HeadingsInChildren(init),
                   ChildOptions(last, selected), ListedInChild(last), ChildHeadings(last), selected);
    }
  }

  lemma {:induction false} CategoriesShaped(cats: Catalog, selected: string)
    ensures Shaped(FlatMap(cats, CategoryStep(selected)), ListedInCatalog(cats), HeadingsInCatalog(cats), selected)
    decreases |cats|
  {
    if cats == [] {
      assert Marked([], selected) == [];
    } else {
      var init, last := cats[..|cats| - 1], cats[|cats| - 1];
      CategoriesShaped(init, selected);
      if WellFormedCategory(last) {
        ChildrenShaped(ChildrenOf(last), selected);
        HeaderShaped(CategoryHeader(last.name.value), FlatMap(ChildrenOf(last), ChildStep(selected)),
                     ListedInChildren(ChildrenOf(last)), HeadingsInChildren(ChildrenOf(last)), selected);
      } else {
        assert Marked([], selected) == [];
      }
      ShapedAppend(FlatMap(init, CategoryStep(selected)), ListedInCatalog(init), HeadingsInCatalog(init),
                   CategoryOptions(last, selected), ListedInCategory(last), CategoryHeadings(last), selected);
    }
  }

  /** The product options are exactly the well-formed products in tree order, each selected
      exactly when its url is the string `selected`. */
  lemma ChoicesAreListedProducts(cats: Catalog, selected: string)
    ensures Choices(Options(cats, selected)) == Marked(ListedInCatalog(cats), selected)
    ensures |Choices(Options(cats, selected))| == |ListedInCatalog(cats)|
  {
    CategoriesShaped(cats, selected);
    ChoicesAppend([NoRedirect], FlatMap(cats, CategoryStep(selected)));
    assert Choices([NoRedirect]) == [] by { assert [NoRedirect][..0] == []; }
  }

  /** The disabled headings are exactly the well-formed categories, each followed by its
      well-formed children, and there are as many as there are of those. */
  lemma HeadingsAreWellFormedNodes(cats: Catalog, selected: string)
    ensures Headings(Options(cats, selected)) == HeadingsInCatalog(cats)
    ensures |Headings(Options(cats, selected))| == WellFormedCounts(cats).0 + WellFormedCounts(cats).1
  {
    CategoriesShaped(cats, selected);
    HeadingsAppend([NoRedirect], FlatMap(cats, CategoryStep(selected)));
    assert Headings([NoRedirect]) == [] by { assert [NoRedirect][..0] == []; }
    HeadingCount(cats);
  }

  /** "No redirect" is the first option and no other option is. */
  lemma NoRedirectOnlyFirst(cats: Catalog, selected: string)
    ensures forall i :: 0 < i < |Options(cats, selected)| ==> Options(cats, selected)[i] != NoRedirect
  {
    var r := Options(cats, selected);
    CategoriesShaped(cats, selected);
    forall i | 0 < i < |r| ensures r[i] != NoRedirect {
      assert r[i] == FlatMap(cats, CategoryStep(selected))[i - 1];
    }
  }

  /** A product option is selected iff its url is exactly the selected string. */
  lemma SelectedIffExactMatch(cats: Catalog, selected: string, i: nat)
    requires i < |Options(cats, selected)| && Options(cats, selected)[i].ProductChoice?
    ensures Options(cats, selected)[i].selected <==> Options(cats, selected)[i].url == Text(selected)
  {
    CategoriesShaped(cats, selected);
    assert Options(cats, selected)[i] in FlatMap(cats, CategoryStep(selected));
  }

  /** A selection that no well-formed product's url equals selects nothing. */
  lemma NothingSelectedWithoutMatch(cats: Catalog, selected: string)
    requires forall l :: l in ListedInCatalog(cats) ==> l.url != Text(selected)
    ensures forall i :: 0 <= i < |Options(cats, selected)| && Options(cats, selected)[i].ProductChoice?
              ==> !Options(cats, selected)[i].selected
  {
    var r := Options(cats, selected);
    forall i | 0 <= i < |r| && r[i].ProductChoice? ensures !r[i].selected {
      SelectedIffExactMatch(cats, selected, i);
      ChoiceListed(r, i);
      ChoicesAreListedProducts(cats, selected);
      var k :| 0 <= k < |Choices(r)| && Choices(r)[k] == (Listed(r[i].url, r[i].name), r[i].selected);
      assert Choices(r)[k].0 in ListedInCatalog(cats);
    }
  }

  /** Each product option of a list appears among its choices. */
  lemma {:induction false} ChoiceListed(es: seq<Entry>, i: nat)
    requires i < |es| && es[i].ProductChoice?
    ensures (Listed(es[i].url, es[i].name), es[i].selected) in Choices(es)
    decreases |es|
  {
    if i < |es| - 1 {
      ChoiceListed(es[..|es| - 1], i);
    }
  }

  // Skipped nodes: removing a malformed node leaves the list as it was.

  /** An element whose options are empty can be dropped from a `FlatMap`. */
  lemma FlatMapSkip<T>(before: seq<T>, x: T, after: seq<T>, f: T -> seq<Entry>)
    requires f(x) == []
    ensures FlatMap(before + [x] + after, f) == FlatMap(before + after, f)
  {
    assert FlatMap([x], f) == [] by { assert [x][..0] == []; }
    FlatMapAppend(before + [x], after, f);
    FlatMapAppend(before, [x], f);
    FlatMapAppend(before, after, f);
  }

  /** A category that is not an array or has no name contributes nothing, children included. */
  lemma MalformedCategorySkipped(before: Catalog, c: Category, after: Catalog, selected: string)
    requires !WellFormedCategory(c)
    ensures Options(before + [c] + after, selected) == Options(before + after, selected)
  {
    FlatMapSkip(before, c, after, CategoryStep(selected));
  }

  /** A child that is not an array or has no name contributes nothing, products included. */
  lemma MalformedChildSkipped(name: Field, before: seq<Child>, c: Child, after: seq<Child>, selected: string)
    requires !WellFormedChild(c)
    ensures CategoryOptions(CategoryArray(Some(name), Some(before + [c] + after)), selected) ==
            CategoryOptions(CategoryArray(Some(name), Some(before + after)), selected)
  {
    FlatMapSkip(before, c, after, ChildStep(selected));
  }

  /** A product that is not an array or lacks its url or its name contributes nothing. */
  lemma MalformedProductSkipped(name: Field, before: seq<Product>, p: Product, after: seq<Product>, selected: string)
    requires !WellFormedProduct(p)
    ensures ChildOptions(ChildArray(Some(name), Some(before + [p] + after)), selected) ==
            ChildOptions(ChildArray(Some(name), Some(before + after)), selected)
  {
    FlatMapSkip(before, p, after, ProductStep(selected));
  }

  // The loops of pr_build_dropdown.

  lemma CategoryOptionsCases(c: Category, selected: string)
    ensures CategoryStep(selected)(c) ==
            if c.CategoryArray? && c.name.Some? then
              [CategoryHeader(c.name.value)] + (if c.children.Some? then FlatMap(c.children.value, ChildStep(selected)) else [])
            else []
  {
    if c.CategoryArray? && c.name.Some? && c.children.None? {
      assert [CategoryHeader(c.name.value)] + [] == [CategoryHeader(c.name.value)];
    }
  }

  lemma ChildOptionsCases(c: Child, selected: string)
    ensures ChildStep(selected)(c) ==
            if c.ChildArray? && c.name.Some? then
              [ChildHeader(c.name.value)] + (if c.products.Some? then FlatMap(c.products.value, ProductStep(selected)) else [])
            else []
  {
    if c.ChildArray? && c.name.Some? && c.products.None? {
      assert [ChildHeader(c.name.value)] + [] == [ChildHeader(c.name.value)];
    }
  }

  // The three nested `foreach` loops of pr_build_dropdown, one method per level, each appending
  // one option at a time.

  /** The innermost loop: one option per well-formed product of a child. */
  method AppendProducts(products: seq<Product>, selected: string) returns (options: seq<Entry>)
    ensures options == FlatMap(products, ProductStep(selected))
  {
    options := [];
    for k := 0 to |products|
      invariant options == FlatMap(products[..k], ProductStep(selected))
    {
      var product := products[k];
      if product.ProductArray? && product.url.Some? && product.name.Some? {
        options := options + [ProductChoice(product.url.value, product.name.value, product.url.value == Text(selected))];
      }
      assert options == FlatMap(products[..k], ProductStep(selected)) + ProductOption(product, selected);
      FlatMapStep(products, k, ProductStep(selected));
    }
    assert products[..|products|] == products;
  }

  /** One pass of the middle loop: a well-formed child's heading followed by its products. */
  method ChildBlock(child: Child, selected: string) returns (block: seq<Entry>)
    ensures block == ChildStep(selected)(child)
  {
    block := [];
    if child.ChildArray? && child.name.Some? {
      block := [ChildHeader(child.name.value)];
      if child.products.Some? {
        var productOptions := AppendProducts(child.products.value, selected);
        block := block + productOptions;
      }
    }
    ChildOptionsCases(child, selected);
  }

  /** The middle loop: a heading per well-formed child, followed by its products. */
  method AppendChildren(children: seq<Child>, selected: string) returns (options: seq<Entry>)
    ensures options == FlatMap(children, ChildStep(selected))
  {
    options := [];
    for j := 0 to |children|
      invariant options == FlatMap(children[..j], ChildStep(selected))
    {
      var block := ChildBlock(children[j], selected);
      options := options + block;
      FlatMapStep(children, j, ChildStep(selected));
    }
    assert children[..|children|] == children;
  }

  /** One pass of the outer loop: a well-formed category's heading followed by its children. */
  method CategoryBlock(parent: Category, selected: string) returns (block: seq<Entry>)
    ensures block == CategoryStep(selected)(parent)
  {
    block := [];
    if parent.CategoryArray? && parent.name.Some? {
      block := [CategoryHeader(parent.name.value)];
      if parent.children.Some? {
        var childOptions := AppendChildren(parent.children.value, selected);
        block := block + childOptions;
      }
    }
    CategoryOptionsCases(parent, selected);
  }

  /** The outer loop, after the leading "no redirect" option. */
  method BuildOptions(catalog: Catalog, selected: string) returns (entries: seq<Entry>)
    ensures entries == Options(catalog, selected)
  {
    entries := [NoRedirect];
    for i := 0 to |catalog|
      invariant entries == [NoRedirect] + FlatMap(catalog[..i], CategoryStep(selected))
    {
      var block := CategoryBlock(catalog[i], selected);
      entries := entries + block;
      FlatMapStep(catalog, i, CategoryStep(selected));
    }
    assert catalog[..|catalog|] == catalog;
  }

  // The markup.

  /** The "-- No Redirect --" label (translation is not modelled). */
  const NoRedirectLabel: string := "-- No Redirect --"
  /** The first option of every dropdown. */
  const NoRedirectMarkup: string := "<option value=\"\">" + NoRedirectLabel + "</option>"

  function OptionMarkup(e: Entry, host: Host): string {
    match e
    case NoRedirect => NoRedirectMarkup
    case CategoryHeader(n) => "<option value=\"\" disabled=\"disabled\">" + host.escHtml(Shown(n)) + "</option>"
    case ChildHeader(n) => "<option value=\"\" disabled=\"disabled\">-- " + host.escHtml(Shown(n)) + "</option>"
    case ProductChoice(u, n, s) =>
      "<option value=\"" + host.escAttr(Shown(u)) + "\" " + (if s then "selected=\"selected\"" else "") +
      ">--- " + host.escHtml(Shown(n)) + "</option>"
  }

  /** The text PHP makes of a scalar. */
  function Shown(f: Field): string {
    match f
    case Text(s) => s
    case NonText(s) => s
  }

  function OptionsMarkup(es: seq<Entry>, host: Host): string
    decreases |es|
  {
    if es == [] then "" else OptionMarkup(es[0], host) + OptionsMarkup(es[1..], host)
  }

  /** The opening tag; a non-zero product id adds the id and a nonce bound to that product. */
  function SelectOpenTag(selectId: string, productId: nat, host: Host): string {
    "<select name=\"" + host.escAttr(selectId) + "\" id=\"" + host.escAttr(selectId) + "\" style=\"width:100%;\"" +
    (if productId != 0 then
       " data-product-id=\"" + Php.DecimalString(productId) + "\"" +
       " data-nonce=\"" + host.escAttr(host.createNonce(Actions.UpdateAction(productId))) + "\" class=\"pr-redirect-dropdown\""
     else "") +
    ">"
  }

  function DropdownMarkup(selectId: string, productId: nat, es: seq<Entry>, host: Host): string {
    SelectOpenTag(selectId, productId, host) + OptionsMarkup(es, host) + "</select>"
  }

  lemma OptionsMarkupStartsWith(es: seq<Entry>, host: Host)
    requires |es| >= 1 && es[0] == NoRedirect
    ensures OptionsMarkup(es, host) == NoRedirectMarkup + OptionsMarkup(es[1..], host)
  {
  }

  /** The markup opens with the select tag followed directly by the "no redirect" option. */
  lemma MarkupStartsWithNoRedirect(selectId: string, productId: nat, cats: Catalog, selected: string, host: Host)
    ensures SelectOpenTag(selectId, productId, host) + NoRedirectMarkup
            <= DropdownMarkup(selectId, productId, Options(cats, selected), host)
  {
    var es := Options(cats, selected);
    var open := SelectOpenTag(selectId, productId, host);
    var rest := OptionsMarkup(es[1..], host);
    OptionsMarkupStartsWith(es, host);
    var whole := open + NoRedirectMarkup + rest + "</select>";
    assert whole[..|open + NoRedirectMarkup|] == open + NoRedirectMarkup;
  }

  /** `pr_build_dropdown( $selected_redirect, $select_id, $product_id )`: read the catalog through the
      cache, then render it. */
  method BuildDropdown(selected: string, selectId: string, productId: nat, host: Host,
                       options: Settings.OptionStore, cache: Cache.TransientStore, response: Cache.FetchResult)
    returns (html: string, fetchedFrom: Option<string>)
    modifies cache
    ensures var r := Cache.ReadThrough(old(cache.apiData), options.Current(), response);
            cache.apiData == r.entry && fetchedFrom == r.fetchedFrom &&
            html == DropdownMarkup(selectId, productId, Options(r.data, selected), host)
  {
    var data;
    data, fetchedFrom := Cache.GetApiData(options, cache, response);
    var entries := BuildOptions(data, selected);
    html := DropdownMarkup(selectId, productId, entries, host);
  }
}
