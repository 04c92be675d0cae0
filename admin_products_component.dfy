/** The admin products page
    (frontend/src/app/admin/admin-products/admin-products.component.ts): a
    product draft with at least one variation, checked before it is sent;
    title search over the listed products; and deleting the product whose
    title is selected. Prices are integer cents. API calls and alerts are
    recorded in the order they happen; replies arrive as later calls. */
module AdminProductsComponent {
  import opened Common
  import opened Tables
  import opened Text

  /** One variation row of the form; a null price is None. */
  datatype Variation = Variation(sku: string, price: Option<int>, weight: string, stock: int)

  /** The product being written in the form. */
  datatype Draft = Draft(
    title: string,
    imageUrl: string,
    category: string,
    subCategory: string,
    brand: string,
    variations: seq<Variation>,
    description: string)

  /** A product as the listing returns it. */
  datatype Listed = Listed(id: int, title: string, sku: string)

  datatype ApiCall = AddProduct(draft: Draft) | RemoveProduct(productId: int) | ListProducts

  const BLANK_VARIATION: Variation := Variation("", None, "", 0)
  const INITIAL_DRAFT: Draft := Draft("", "", "", "", "", [BLANK_VARIATION], "")
  const NOT_AVAILABLE: string := "N/A"

  const INCOMPLETE_FORM: string := "Veuillez remplir tous les champs obligatoires avant d'enregistrer."
  const SAVE_FAILED: string := "Erreur lors de l'enregistrement du produit."
  const SAVED: string := "Produit enregistré avec succès !"
  const NO_PRODUCT_SELECTED: string := "Veuillez sélectionner un produit valide à supprimer."
  const DELETE_FAILED: string := "Erreur lors de la suppression du produit."
  const DELETED: string := "Produit supprimé avec succès !"
  const ONE_VARIATION_LEFT: string := "Il doit y avoir au moins une variation."

  /** A variation can be saved: a non-blank sku, a price above 0 (a null
      price reads as 0) and a stock of at least 0. */
  predicate VariationOk(v: Variation)
  {
    !Blank(v.sku) && v.price.Some? && v.price.value > 0 && v.stock >= 0
  }

  /** `isValidProduct`. */
  predicate IsValidProduct(d: Draft)
  {
    !Blank(d.title) && forall i :: 0 <= i < |d.variations| ==> VariationOk(d.variations[i])
  }

  /** The form as it opens cannot be saved, and neither can any draft right
      after a blank variation is added to it. */
  lemma BlankDraftsInvalid(d: Draft)
    ensures !IsValidProduct(INITIAL_DRAFT)
    ensures !IsValidProduct(d.(variations := d.variations + [BLANK_VARIATION]))
  {
    assert INITIAL_DRAFT.variations[0] == BLANK_VARIATION;
    var e := d.(variations := d.variations + [BLANK_VARIATION]);
    assert e.variations[|d.variations|] == BLANK_VARIATION;
  }

  /** The start index `splice(index, 1)` uses: a negative index counts from
      the end. */
  function SpliceStart(len: nat, index: int): (start: nat)
    ensures index >= 0 ==> start == index
    ensures index < 0 ==> start == if len + index >= 0 then len + index else 0
  {
    if index >= 0 then index else if len + index >= 0 then len + index else 0
  }

  /** `s.splice(index, 1)`: removes the entry at the start index, or nothing
      when that index is past the end. */
  function SpliceOne<T>(s: seq<T>, index: int): (r: seq<T>)
    ensures SpliceStart(|s|, index) < |s| ==> r == RemoveAt(s, SpliceStart(|s|, index))
    ensures SpliceStart(|s|, index) >= |s| ==> r == s
    ensures |s| > 0 && -|s| <= index < |s| ==> |r| == |s| - 1
  {
    var start := SpliceStart(|s|, index);
    if start < |s| then RemoveAt(s, start) else s
  }

  /** The titles of the listed products, in order. */
  function Titles(products: seq<Listed>): (r: seq<string>)
    ensures |r| == |products| && forall i :: 0 <= i < |products| ==> r[i] == products[i].title
  {
    seq(|products|, i requires 0 <= i < |products| => products[i].title)
  }

  /** `filterProducts` and `filterProductTitles`, which are the same: the
      titles that contain the filter text, ignoring case, in list order. */
  function FilterTitles(products: seq<Listed>, value: string): (r: seq<string>)
    ensures forall t :: t in r <==> t in Titles(products) && Contains(Lower(t), Lower(value))
    ensures |r| <= |products|
  {
    var v := Lower(value);
    Filter(Titles(products), t => Contains(Lower(t), v))
  }

  /** Filtering a list extended by one product extends the filtered titles
      by that product's title exactly when it matches: the titles keep the
      list's order and duplicates. */
  lemma FilterTitlesSnoc(products: seq<Listed>, p: Listed, value: string)
    ensures FilterTitles(products + [p], value)
      == FilterTitles(products, value) + (if Contains(Lower(p.title), Lower(value)) then [p.title] else [])
  {
    var v := Lower(value);
    assert Titles(products + [p]) == Titles(products) + [p.title];
    FilterSnoc(Titles(products), p.title, t => Contains(Lower(t), v));
  }

  /** An empty filter lists every title. */
  lemma EmptyFilterListsAll(products: seq<Listed>)
    ensures FilterTitles(products, "") == Titles(products)
  {
    var keep := (t: string) => Contains(Lower(t), Lower(""));
    forall t | t in Titles(products) ensures keep(t) {
      assert Contains(Lower(t), "");
    }
    FilterKeepsAll(Titles(products), keep);
  }

  function ListedTitle(p: Listed): string
  {
    p.title
  }

  /** `updateSelectedProductSKU`: the sku of the first product with the
      selected title, or "N/A" when there is none. */
  function SkuFor(products: seq<Listed>, selection: string): (r: string)
    ensures (forall i :: 0 <= i < |products| ==> products[i].title != selection) ==> r == NOT_AVAILABLE
    ensures forall i :: (0 <= i < |products| && products[i].title == selection &&
                         forall j :: 0 <= j < i ==> products[j].title != selection) ==> r == products[i].sku
  {
    match Find(products, ListedTitle, selection)
    case None =>
      FindAbsent(products, ListedTitle, selection);
      NOT_AVAILABLE
    case Some(i) => products[i].sku
  }

  class AdminProducts {
    var products: seq<Listed>
    var activeTab: string
    /** The title typed or picked in the delete form. */
    var selection: string
    var selectedSku: string
    /** The text typed in the title search of the add form. */
    var titleFilter: string
    var draft: Draft
    var imagePreview: Option<string>
    var alerts: seq<string>
    var calls: seq<ApiCall>

    /** The form always has at least one variation row. */
    ghost predicate Valid()
      reads this
    {
      |draft.variations| >= 1
    }

    constructor ()
      ensures Valid()
      ensures products == [] && activeTab == "add" && selection == "" && selectedSku == "" && titleFilter == ""
      ensures draft == INITIAL_DRAFT && imagePreview.None? && alerts == [] && calls == []
    {
      products := [];
      activeTab := "add";
      selection := "";
      selectedSku := "";
      titleFilter := "";
      draft := INITIAL_DRAFT;
      imagePreview := None;
      alerts := [];
      calls := [];
    }

    method SetActiveTab(tab: string)
      modifies this
      ensures activeTab == tab
      ensures products == old(products) && selection == old(selection) && selectedSku == old(selectedSku)
      ensures draft == old(draft) && alerts == old(alerts) && calls == old(calls)
    {
      activeTab := tab;
    }

    /** The reply to the listing request: `response || []`; a failed
        request is caught and also reads as an empty list. */
    method LoadProducts(reply: Option<seq<Listed>>)
      modifies this
      ensures products == if reply.Some? then reply.value else []
      ensures selection == old(selection) && selectedSku == old(selectedSku)
      ensures draft == old(draft) && alerts == old(alerts) && calls == old(calls)
    {
      products := if reply.Some? then reply.value else [];
    }

    method SetSelection(title: string)
      modifies this
      ensures selection == title
      ensures products == old(products) && selectedSku == old(selectedSku)
      ensures draft == old(draft) && alerts == old(alerts) && calls == old(calls)
    {
      selection := title;
    }

    method SetTitleFilter(value: string)
      modifies this
      ensures titleFilter == value
      ensures products == old(products) && selection == old(selection) && selectedSku == old(selectedSku)
      ensures draft == old(draft) && alerts == old(alerts) && calls == old(calls)
    {
      titleFilter := value;
    }

    /** The suggestions under the title search. */
    function Suggestions(): seq<string>
      reads this
    {
      FilterTitles(products, titleFilter)
    }

    method UpdateSelectedProductSku()
      modifies this
      ensures selectedSku == SkuFor(products, selection)
      ensures products == old(products) && selection == old(selection)
      ensures draft == old(draft) && alerts == old(alerts) && calls == old(calls)
    {
      var found := Find(products, ListedTitle, selection);
      selectedSku := if found.Some? then products[found.value].sku else NOT_AVAILABLE;
    }

    /** `deleteProduct`: without a product of the selected title it only
        alerts; otherwise it asks to delete the first such product. */
    method DeleteProduct()
      modifies this
      ensures (forall i :: 0 <= i < |products| ==> products[i].title != selection) ==>
                calls == old(calls) && alerts == old(alerts) + [NO_PRODUCT_SELECTED]
      ensures forall i :: (0 <= i < |products| && products[i].title == selection &&
                           forall j :: 0 <= j < i ==> products[j].title != selection) ==>
                calls == old(calls) + [RemoveProduct(products[i].id)] && alerts == old(alerts)
      ensures products == old(products) && selection == old(selection) && selectedSku == old(selectedSku)
      ensures draft == old(draft)
    {
      var found := Find(products, ListedTitle, selection);
      if found.None? {
        FindAbsent(products, ListedTitle, selection);
        alerts := alerts + [NO_PRODUCT_SELECTED];
        return;
      }
      calls := calls + [RemoveProduct(products[found.value].id)];
      assert products[found.value].title == selection;
    }

    /** The reply to a delete: on success the list is reloaded and the
        selection cleared; a failure only alerts. */
    method DeleteDone(ok: bool)
      modifies this
      ensures ok ==> && alerts == old(alerts) + [DELETED] && calls == old(calls) + [ListProducts]
                     && selection == "" && selectedSku == ""
      ensures !ok ==> && alerts == old(alerts) + [DELETE_FAILED] && calls == old(calls)
                      && selection == old(selection) && selectedSku == old(selectedSku)
      ensures products == old(products) && draft == old(draft) && titleFilter == old(titleFilter)
    {
      if ok {
        alerts := alerts + [DELETED];
        calls := calls + [ListProducts];
        selection := "";
        selectedSku := "";
      } else {
        alerts := alerts + [DELETE_FAILED];
      }
    }

    /** The form fields other than the variations. */
    method EditDetails(title: string, category: string, subCategory: string, brand: string, description: string)
      requires Valid()
      modifies this
      ensures Valid()
      ensures draft == old(draft).(title := title, category := category, subCategory := subCategory,
                                   brand := brand, description := description)
      ensures products == old(products) && alerts == old(alerts) && calls == old(calls)
    {
      draft := draft.(title := title, category := category, subCategory := subCategory, brand := brand,
                      description := description);
    }

    /** Editing the fields of a variation row shown in the form. */
    method EditVariation(index: nat, v: Variation)
      requires Valid() && index < |draft.variations|
      modifies this
      ensures Valid()
      ensures draft == old(draft).(variations := old(draft).variations[index := v])
      ensures products == old(products) && alerts == old(alerts) && calls == old(calls)
    {
      draft := draft.(variations := draft.variations[index := v]);
    }

    /** `onFileSelected` once the file is read: the preview and the draft's
        image both get the data URL. */
    method ImageLoaded(dataUrl: string)
      requires Valid()
      modifies this
      ensures Valid()
      ensures imagePreview == Some(dataUrl) && draft == old(draft).(imageUrl := dataUrl)
      ensures products == old(products) && alerts == old(alerts) && calls == old(calls)
    {
      imagePreview := Some(dataUrl);
      draft := draft.(imageUrl := dataUrl);
    }

    /** `addVariation`: exactly one blank row more. */
    method AddVariation()
      requires Valid()
      modifies this
      ensures Valid()
      ensures draft == old(draft).(variations := old(draft).variations + [BLANK_VARIATION])
      ensures products == old(products) && alerts == old(alerts) && calls == old(calls)
    {
      draft := draft.(variations := draft.variations + [BLANK_VARIATION]);
    }

    /** `removeVariation(index)`: splices one row out only while there is
        more than one, so the form never loses its last row. */
    method RemoveVariation(index: int)
      requires Valid()
      modifies this
      ensures Valid()
      ensures |old(draft).variations| > 1 ==>
                draft == old(draft).(variations := SpliceOne(old(draft).variations, index)) && alerts == old(alerts)
      ensures |old(draft).variations| <= 1 ==> draft == old(draft) && alerts == old(alerts) + [ONE_VARIATION_LEFT]
      ensures products == old(products) && calls == old(calls)
    {
      if |draft.variations| > 1 {
        draft := draft.(variations := SpliceOne(draft.variations, index));
      } else {
        alerts := alerts + [ONE_VARIATION_LEFT];
      }
    }

    /** `saveProduct`: an invalid draft only alerts and sends nothing. */
    method SaveProduct()
      requires Valid()
      modifies this
      ensures Valid()
      ensures !IsValidProduct(draft) ==> calls == old(calls) && alerts == old(alerts) + [INCOMPLETE_FORM]
      ensures IsValidProduct(draft) ==> calls == old(calls) + [AddProduct(draft)] && alerts == old(alerts)
      ensures draft == old(draft) && products == old(products)
    {
      if !IsValidProduct(draft) {
        alerts := alerts + [INCOMPLETE_FORM];
        return;
      }
      calls := calls + [AddProduct(draft)];
    }

    /** The reply to a save: on success the list is reloaded, the title
        search cleared and the preview dropped; the draft itself is kept. */
    method SaveDone(ok: bool)
      requires Valid()
      modifies this
      ensures Valid()
      ensures ok ==> && alerts == old(alerts) + [SAVED] && calls == old(calls) + [ListProducts]
                     && titleFilter == "" && imagePreview.None?
      ensures !ok ==> && alerts == old(alerts) + [SAVE_FAILED] && calls == old(calls)
                      && titleFilter == old(titleFilter) && imagePreview == old(imagePreview)
      ensures draft == old(draft) && products == old(products)
    {
      if ok {
        alerts := alerts + [SAVED];
        calls := calls + [ListProducts];
        titleFilter := "";
        imagePreview := None;
      } else {
        alerts := alerts + [SAVE_FAILED];
      }
    }
  }
}
