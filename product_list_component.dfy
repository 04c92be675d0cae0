/** The catalogue page (frontend/src/app/product-list/product-list.component.ts):
    products fetched from the products endpoint with display defaults
    filled in, the distinct categories they carry, a category filter the
    user toggles, the lowest variation price, and the burger menu state.
    Prices are integer cents. */
module ProductListComponent {
  import opened Common
  import opened Tables
  import opened Text

  /** A variation as the products endpoint returns it; a null or missing
      price is None. */
  datatype Variation = Variation(price: Option<int>)

  /** A product as the endpoint returns it. A missing or null field is None. */
  datatype RawProduct = RawProduct(
    id: Option<string>,
    title: Option<string>,
    category: Option<string>,
    price: Option<int>,
    variations: Option<seq<Variation>>)

  /** The displayed price: an amount, or the "not available" text. */
  datatype Price = Amount(cents: int) | Unavailable

  /** A product after the page filled in its defaults. */
  datatype Product = Product(
    id: Option<string>,
    title: string,
    category: string,
    price: Price,
    variations: Option<seq<Variation>>)

  const NO_TITLE: string := "Produit sans titre"
  const NO_CATEGORY: string := "Catégorie inconnue"
  /** The text shown for the `Unavailable` price. */
  const PRICE_UNAVAILABLE: string := "Prix non disponible"
  const FETCH_ERROR: string := "Erreur lors de la récupération des produits."

  /** A present, non-blank text: `x && x.trim() !== ''`. */
  predicate Filled(x: Option<string>)
  {
    x.Some? && !Blank(x.value)
  }

  /** The defaults `fetchProducts` fills in: a missing or blank title or
      category is replaced, a missing price becomes unavailable, and every
      other field is kept. */
  function Normalize(p: RawProduct): (r: Product)
    ensures r.id == p.id && r.variations == p.variations
    ensures !Blank(r.title) && !Blank(r.category)
    ensures Filled(p.title) ==> r.title == p.title.value
    ensures !Filled(p.title) ==> r.title == NO_TITLE
    ensures Filled(p.category) ==> r.category == p.category.value
    ensures !Filled(p.category) ==> r.category == NO_CATEGORY
    ensures r.price == if p.price.Some? then Amount(p.price.value) else Unavailable
  {
    assert !IsSpace(NO_TITLE[0]) && !IsSpace(NO_CATEGORY[0]);
    Product(
      p.id,
      if Filled(p.title) then p.title.value else NO_TITLE,
      if Filled(p.category) then p.category.value else NO_CATEGORY,
      if p.price.Some? then Amount(p.price.value) else Unavailable,
      p.variations)
  }

  function NormalizeAll(ps: seq<RawProduct>): (r: seq<Product>)
    ensures |r| == |ps| && forall i :: 0 <= i < |ps| ==> r[i] == Normalize(ps[i])
  {
    seq(|ps|, i requires 0 <= i < |ps| => Normalize(ps[i]))
  }

  /** The position of the first occurrence of `x` in `s`. */
  function IndexOf(s: seq<string>, x: string): (r: nat)
    requires x in s
    ensures r < |s| && s[r] == x && forall j :: 0 <= j < r ==> s[j] != x
  {
    if s[0] == x then 0 else IndexOf(s[1..], x) + 1
  }

  /** `[...new Set(cs.filter(Boolean))]`: the non-empty texts of `cs`, each
      once, in the order of their first occurrence. */
  function FirstSeen(cs: seq<string>): seq<string>
  {
    if |cs| == 0 then []
    else
      var d := FirstSeen(cs[..|cs| - 1]);
      var c := cs[|cs| - 1];
      if c == "" || c in d then d else d + [c]
  }

  lemma {:induction false} FirstSeenSpec(cs: seq<string>)
    ensures forall c :: c in FirstSeen(cs) <==> c in cs && c != ""
    ensures forall i, j :: 0 <= i < j < |FirstSeen(cs)| ==> FirstSeen(cs)[i] != FirstSeen(cs)[j]
    ensures forall i, j :: 0 <= i < j < |FirstSeen(cs)| ==> IndexOf(cs, FirstSeen(cs)[i]) < IndexOf(cs, FirstSeen(cs)[j])
  {
    if |cs| > 0 {
      var init := cs[..|cs| - 1];
      var c := cs[|cs| - 1];
      var d := FirstSeen(init);
      FirstSeenSpec(init);
      assert cs == init + [c];
      forall y | y in init ensures IndexOf(cs, y) == IndexOf(init, y) {
        var a := IndexOf(init, y);
        assert cs[a] == y;
      }
      if !(c == "" || c in d) {
        assert c !in init;
        assert IndexOf(cs, c) == |cs| - 1;
        assert FirstSeen(cs) == d + [c];
      }
    }
  }

  /** The categories of the fetched products, for the filter menu. */
  function Categories(products: seq<Product>): (r: seq<string>)
  {
    FirstSeen(seq(|products|, i requires 0 <= i < |products| => products[i].category))
  }

  /** Every non-empty category of the products is offered once, in the
      order it first appears; nothing else is. After the defaults are filled
      in no category is empty. */
  lemma CategoriesOfProducts(products: seq<Product>)
    ensures forall c :: c in Categories(products) <==> c != "" && exists i :: 0 <= i < |products| && products[i].category == c
    ensures forall i, j :: 0 <= i < j < |Categories(products)| ==> Categories(products)[i] != Categories(products)[j]
    ensures forall i :: 0 <= i < |products| && !Blank(products[i].category) ==> products[i].category in Categories(products)
  {
    var cs := seq(|products|, i requires 0 <= i < |products| => products[i].category);
    FirstSeenSpec(cs);
    assert forall i :: 0 <= i < |products| ==> cs[i] == products[i].category && cs[i] in cs;
    forall c | c in cs ensures exists i :: 0 <= i < |products| && products[i].category == c {
      var i :| 0 <= i < |cs| && cs[i] == c;
    }
    forall i | 0 <= i < |products| && !Blank(products[i].category) ensures products[i].category in Categories(products) {
      assert cs[i] in cs;
    }
  }

  /** The prices of the variations that have one, in order. */
  function Prices(vs: seq<Variation>): (r: seq<int>)
    ensures forall x :: x in r <==> exists i :: 0 <= i < |vs| && vs[i].price == Some(x)
  {
    if |vs| == 0 then []
    else
      var rest := Prices(vs[1..]);
      assert forall i :: 0 < i < |vs| ==> vs[i] == vs[1..][i - 1];
      (if vs[0].price.Some? then [vs[0].price.value] else []) + rest
  }

  /** `Math.min(...s)` for a non-empty list. */
  function Min(s: seq<int>): (m: int)
    requires |s| > 0
    ensures m in s && forall x :: x in s ==> m <= x
  {
    if |s| == 1 then s[0]
    else
      var m := Min(s[1..]);
      assert forall x :: x in s ==> x == s[0] || x in s[1..];
      if s[0] <= m then s[0] else m
  }

  /** `getMinPrice`: nothing when there are no variations or none has a
      price; otherwise the lowest price a variation has. */
  function MinPrice(p: Product): (r: Option<int>)
    ensures r.Some? <==> p.variations.Some? && exists i :: 0 <= i < |p.variations.value| && p.variations.value[i].price.Some?
    ensures r.Some? ==> exists i :: 0 <= i < |p.variations.value| && p.variations.value[i].price == Some(r.value)
    ensures r.Some? ==> forall i :: 0 <= i < |p.variations.value| && p.variations.value[i].price.Some? ==>
                          r.value <= p.variations.value[i].price.value
  {
    if p.variations.None? || |p.variations.value| == 0 then None
    else
      var prices := Prices(p.variations.value);
      if |prices| > 0 then
        var m := Min(prices);
        assert forall i :: 0 <= i < |p.variations.value| && p.variations.value[i].price.Some? ==>
                 p.variations.value[i].price.value in prices;
        Some(m)
      else
        None
  }

  /** The selection after `toggleCategoryFilter(c)`: a selected category is
      removed, any other is appended. */
  function Toggled(selected: seq<string>, c: string): (r: seq<string>)
    ensures c in r <==> c !in selected
    ensures forall x :: x != c ==> (x in r <==> x in selected)
  {
    if c in selected then Filter(selected, x => x != c) else selected + [c]
  }

  /** Toggling a category twice gives back the same selection when it was
      not selected, and the same members when it was. */
  lemma ToggleTwice(selected: seq<string>, c: string)
    ensures c !in selected ==> Toggled(Toggled(selected, c), c) == selected
    ensures forall x :: x in Toggled(Toggled(selected, c), c) <==> x in selected
  {
    if c !in selected {
      var f := x => x != c;
      assert Toggled(selected + [c], c) == Filter(selected + [c], f);
      FilterSnoc(selected, c, f);
      FilterKeepsAll(selected, f);
    }
  }

  /** `applyFilters`: every product when nothing is selected, otherwise the
      products whose category is selected, in their order. */
  function Visible(products: seq<Product>, selected: seq<string>): (r: seq<Product>)
    ensures selected == [] ==> r == products
    ensures selected != [] ==> forall p :: p in r <==> p in products && p.category in selected
    ensures |r| <= |products|
  {
    if |selected| > 0 then Filter(products, (p: Product) => p.category in selected) else products
  }

  /** `toggleMenu(c)`: the same menu closes, any other opens. */
  function NextMenu(active: Option<string>, c: string): (r: Option<string>)
    ensures r == Some(c) <==> active != Some(c)
    ensures r.None? <==> active == Some(c)
  {
    if active == Some(c) then None else Some(c)
  }

  class ProductList {
    var products: seq<Product>
    var filtered: seq<Product>
    var categories: seq<string>
    var selected: seq<string>
    var errorMessage: string
    var burgerMenuOpen: bool
    var activeMenu: Option<string>

    constructor ()
      ensures products == [] && filtered == [] && categories == [] && selected == [] && errorMessage == ""
      ensures !burgerMenuOpen && activeMenu.None?
    {
      products := [];
      filtered := [];
      categories := [];
      selected := [];
      errorMessage := "";
      burgerMenuOpen := false;
      activeMenu := None;
    }

    /** The reply to `getProducts()`: None is a failed request, which only
        sets the error message; `Some(None)` is a body without `products`,
        read as an empty list. The filter is not reapplied. */
    method Fetch(reply: Option<Option<seq<RawProduct>>>)
      modifies this
      ensures selected == old(selected) && burgerMenuOpen == old(burgerMenuOpen) && activeMenu == old(activeMenu)
      ensures reply.None? ==> && errorMessage == FETCH_ERROR && products == old(products)
                              && filtered == old(filtered) && categories == old(categories)
      ensures reply.Some? ==> && errorMessage == old(errorMessage)
                              && products == NormalizeAll(if reply.value.Some? then reply.value.value else [])
                              && filtered == products && categories == Categories(products)
    {
      if reply.None? {
        errorMessage := FETCH_ERROR;
        return;
      }
      products := NormalizeAll(if reply.value.Some? then reply.value.value else []);
      filtered := products;
      categories := Categories(products);
    }

    /** `applyFilters`. */
    method ApplyFilters()
      modifies this
      ensures filtered == Visible(products, selected)
      ensures products == old(products) && categories == old(categories) && selected == old(selected)
      ensures errorMessage == old(errorMessage) && burgerMenuOpen == old(burgerMenuOpen) && activeMenu == old(activeMenu)
    {
      if |selected| > 0 {
        var sel := selected;
        filtered := Filter(products, (p: Product) => p.category in sel);
      } else {
        filtered := products;
      }
    }

    /** `toggleCategoryFilter(c)`: remove or push the category, then filter. */
    method ToggleCategoryFilter(c: string)
      modifies this
      ensures selected == Toggled(old(selected), c)
      ensures filtered == Visible(products, selected)
      ensures products == old(products) && categories == old(categories)
      ensures errorMessage == old(errorMessage) && burgerMenuOpen == old(burgerMenuOpen) && activeMenu == old(activeMenu)
    {
      if c in selected {
        selected := Filter(selected, x => x != c);
      } else {
        selected := selected + [c];
      }
      ApplyFilters();
    }

    /** `toggleBurgerMenu`: closing the burger also closes the open menu. */
    method ToggleBurgerMenu()
      modifies this
      ensures burgerMenuOpen == !old(burgerMenuOpen)
      ensures !burgerMenuOpen ==> activeMenu.None?
      ensures burgerMenuOpen ==> activeMenu == old(activeMenu)
      ensures products == old(products) && filtered == old(filtered) && categories == old(categories)
      ensures selected == old(selected) && errorMessage == old(errorMessage)
    {
      burgerMenuOpen := !burgerMenuOpen;
      if !burgerMenuOpen {
        activeMenu := None;
      }
    }

    method ToggleMenu(c: string)
      modifies this
      ensures activeMenu == NextMenu(old(activeMenu), c)
      ensures burgerMenuOpen == old(burgerMenuOpen)
      ensures products == old(products) && filtered == old(filtered) && categories == old(categories)
      ensures selected == old(selected) && errorMessage == old(errorMessage)
    {
      activeMenu := if activeMenu == Some(c) then None else Some(c);
    }

    method CloseMenu()
      modifies this
      ensures activeMenu.None? && !burgerMenuOpen
      ensures products == old(products) && filtered == old(filtered) && categories == old(categories)
      ensures selected == old(selected) && errorMessage == old(errorMessage)
    {
      activeMenu := None;
      burgerMenuOpen := false;
    }

    /** `onClickOutside`: `inMenu` says whether the click landed inside a
        category item, the burger icon or the burger menu. */
    method OnClickOutside(inMenu: bool)
      modifies this
      ensures !inMenu ==> activeMenu.None? && !burgerMenuOpen
      ensures inMenu ==> activeMenu == old(activeMenu) && burgerMenuOpen == old(burgerMenuOpen)
      ensures products == old(products) && filtered == old(filtered) && categories == old(categories)
      ensures selected == old(selected) && errorMessage == old(errorMessage)
    {
      if !inMenu {
        CloseMenu();
      }
    }
  }
}
