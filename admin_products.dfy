/**
 * The admin products page (src/pages/admin/AdminProducts.tsx): a three-way
 * stock badge, the product search with a category filter, the category list,
 * and the product form that "Edit" fills from a product and that "Add" and
 * "Update" empty again. The page lists a fixed product list; here the list is
 * a parameter.
 */
module AdminProducts {
  import opened Outcomes
  import opened Seqs
  import opened Text

  datatype Product = Product(id: string, name: string, category: string, price: int, stock: int,
                             description: string, image: string)

  /** The form's six inputs, all text. */
  datatype ProductForm = ProductForm(name: string, category: string, price: string, stock: string,
                                     description: string, image: string)

  const EmptyForm := ProductForm("", "", "", "", "", "")

  // ---------------------------------------------------------------------------
  // The stock badge

  function StockStatus(stock: int): string {
    if stock == 0 then "Out of Stock"
    else if stock <= 5 then "Low Stock"
    else "Active"
  }

  function StatusColor(status: string): string {
    if status == "Active" then "bg-green-500"
    else if status == "Low Stock" then "bg-yellow-500"
    else if status == "Out of Stock" then "bg-red-500"
    else "bg-gray-500"
  }

  /** Exactly one of the three badges applies: none at 0, low from 1 to 5 (and, as the
      comparisons stand, for a negative stock), active above 5. */
  lemma StockStatusThreeWay(stock: int)
    ensures StockStatus(stock) == "Out of Stock" <==> stock == 0
    ensures StockStatus(stock) == "Low Stock" <==> stock != 0 && stock <= 5
    ensures StockStatus(stock) == "Active" <==> stock > 5
  {
  }

  /** The badge colour of a stock level is never the gray fallback. */
  lemma StockBadgeNeverGray(stock: int)
    ensures StatusColor(StockStatus(stock)) != "bg-gray-500"
    ensures StatusColor(StockStatus(stock)) in {"bg-green-500", "bg-yellow-500", "bg-red-500"}
  {
  }

  // ---------------------------------------------------------------------------
  // Search, filter and categories

  predicate ProductMatches(p: Product, search: string, categoryFilter: string) {
    (MatchesIgnoringCase(p.name, search) || MatchesIgnoringCase(p.category, search))
    && (categoryFilter == "all" || p.category == categoryFilter)
  }

  function FilteredProducts(products: seq<Product>, search: string, categoryFilter: string): seq<Product> {
    Filter(products, (p: Product) => ProductMatches(p, search, categoryFilter))
  }

  /** The table keeps exactly the matching products, every copy of each, in their order; with
      an empty search and "all" it keeps them all. */
  lemma {:induction false} FilteredProductsSpec(products: seq<Product>, search: string, categoryFilter: string)
    ensures IsSubsequence(FilteredProducts(products, search, categoryFilter), products)
    ensures forall p :: p in FilteredProducts(products, search, categoryFilter) <==>
      p in products && ProductMatches(p, search, categoryFilter)
    ensures forall p ::
      multiset(FilteredProducts(products, search, categoryFilter))[p] ==
      (if ProductMatches(p, search, categoryFilter) then multiset(products)[p] else 0)
    ensures FilteredProducts(products, "", "all") == products
  {
    FilterIsSubsequence(products, (p: Product) => ProductMatches(p, search, categoryFilter));
    FilterMultiplicity(products, (p: Product) => ProductMatches(p, search, categoryFilter));
    forall p | p in products
      ensures ProductMatches(p, "", "all")
    {
      EmptySearchMatches(p.name);
    }
    FilterKeepsAll(products, (p: Product) => ProductMatches(p, "", "all"));
  }

  function CategoriesOf(products: seq<Product>): (cs: seq<string>)
    ensures |cs| == |products|
    ensures forall i :: 0 <= i < |products| ==> cs[i] == products[i].category
  {
    if products == [] then [] else [products[0].category] + CategoriesOf(products[1..])
  }

  /** `[...new Set(products.map(p => p.category))]`. */
  function Categories(products: seq<Product>): seq<string> {
    Dedup(CategoriesOf(products))
  }

  /** The category list has no repeats, lists every product's category and nothing else, in
      the order in which the categories first appear. */
  lemma {:induction false} CategoriesSpec(products: seq<Product>)
    ensures Distinct(Categories(products))
    ensures forall i :: 0 <= i < |products| ==> products[i].category in Categories(products)
    ensures forall c :: c in Categories(products) ==> exists i :: 0 <= i < |products| && products[i].category == c
    ensures forall i, j :: 0 <= i < j < |Categories(products)| ==>
      FirstIndex(CategoriesOf(products), Categories(products)[i]) < FirstIndex(CategoriesOf(products), Categories(products)[j])
  {
    var cs := CategoriesOf(products);
    forall i | 0 <= i < |products|
      ensures products[i].category in Categories(products)
    {
      assert cs[i] == products[i].category;
    }
    DedupFirstOccurrenceOrder(cs);
  }

  // ---------------------------------------------------------------------------
  // Number text

  function DigitChar(d: nat): char
    requires d < 10
  {
    "0123456789"[d]
  }

  predicate IsDigit(c: char) {
    '0' <= c <= '9'
  }

  function DigitValue(c: char): nat
    requires IsDigit(c)
  {
    (c - '0') as nat
  }

  /** The decimal digits of `n`, without leading zeros. */
  function NatToString(n: nat): (s: string)
    ensures |s| >= 1 && forall i :: 0 <= i < |s| ==> IsDigit(s[i])
    ensures s[0] == '0' ==> n == 0
  {
    if n < 10 then [DigitChar(n)] else NatToString(n / 10) + [DigitChar(n % 10)]
  }

  /** `n.toString()` on an integer. */
  function IntToString(n: int): string {
    if n < 0 then "-" + NatToString(-n) else NatToString(n)
  }

  /** The value of a string of decimal digits. */
  function DigitsValue(s: string): nat
    requires forall i :: 0 <= i < |s| ==> IsDigit(s[i])
  {
    if s == [] then 0 else DigitsValue(s[..|s| - 1]) * 10 + DigitValue(s[|s| - 1])
  }

  /** Reading a price or stock back from the form: an optional "-" then at least one digit. */
  function ParseInt(s: string): Option<int> {
    if |s| >= 2 && s[0] == '-' && forall i :: 1 <= i < |s| ==> IsDigit(s[i]) then Some(-(DigitsValue(s[1..]) as int))
    else if |s| >= 1 && forall i :: 0 <= i < |s| ==> IsDigit(s[i]) then Some(DigitsValue(s))
    else None
  }

  lemma {:induction false} DigitsOfNat(n: nat)
    ensures DigitsValue(NatToString(n)) == n
  {
    if n >= 10 {
      DigitsOfNat(n / 10);
      var s := NatToString(n);
      assert s[..|s| - 1] == NatToString(n / 10);
    }
  }

  lemma ParseNonNegativeText(n: int)
    requires n >= 0
    ensures ParseInt(IntToString(n)) == Some(n)
  {
    DigitsOfNat(n);
    var s := NatToString(n);
    assert IntToString(n) == s;
    assert IsDigit(s[0]);
  }

  lemma ParseNegativeText(n: int)
    requires n < 0
    ensures ParseInt(IntToString(n)) == Some(n)
  {
    DigitsOfNat(-n);
    var d := NatToString(-n);
    var s := "-" + d;
    assert IntToString(n) == s;
    assert s[1..] == d;
    assert forall i :: 1 <= i < |s| ==> s[i] == d[i - 1];
  }

  /** Reading back what `IntToString` wrote gives the number again. */
  lemma IntToStringRoundTrip(n: int)
    ensures ParseInt(IntToString(n)) == Some(n)
  {
    if n < 0 {
      ParseNegativeText(n);
    } else {
      ParseNonNegativeText(n);
    }
  }

  /** The form "Edit" shows: every field copied, price and stock as text. */
  function EditForm(p: Product): ProductForm {
    ProductForm(p.name, p.category, IntToString(p.price), IntToString(p.stock), p.description, p.image)
  }

  /** The edit form loses nothing: its price and stock read back as the product's. */
  lemma {:induction false} EditFormRoundTrip(p: Product)
    ensures var f := EditForm(p);
      && f.name == p.name && f.category == p.category && f.description == p.description && f.image == p.image
      && ParseInt(f.price) == Some(p.price) && ParseInt(f.stock) == Some(p.stock)
  {
    IntToStringRoundTrip(p.price);
    IntToStringRoundTrip(p.stock);
  }

  // ---------------------------------------------------------------------------
  // The page

  class ProductsPage {
    var selected: Option<Product>
    var form: ProductForm
    var addDialogOpen: bool

    constructor ()
      ensures selected == None && form == EmptyForm && !addDialogOpen
    {
      selected, form, addDialogOpen := None, EmptyForm, false;
    }

    /** `handleEditProduct`: select the product and fill the form from it. */
    method EditProduct(p: Product)
      modifies this
      ensures selected == Some(p) && form == EditForm(p) && addDialogOpen == old(addDialogOpen)
    {
      selected := Some(p);
      form := EditForm(p);
    }

    /** `handleAddProduct`: close the add dialog and empty the form. */
    method AddProduct()
      modifies this
      ensures !addDialogOpen && form == EmptyForm && selected == old(selected)
    {
      addDialogOpen := false;
      form := EmptyForm;
    }

    /** `handleUpdateProduct`: with no product selected it throws (it reads the selection's id)
        before changing anything; otherwise it clears the selection and empties the form. */
    method UpdateProduct() returns (threw: bool)
      modifies this
      ensures threw <==> old(selected).None?
      ensures threw ==> selected == old(selected) && form == old(form)
      ensures !threw ==> selected == None && form == EmptyForm
      ensures addDialogOpen == old(addDialogOpen)
    {
      if selected.None? {
        return true;
      }
      selected := None;
      form := EmptyForm;
      return false;
    }

    /** `handleDeleteProduct` changes no state. */
    method DeleteProduct(productId: string)
      modifies this
      ensures selected == old(selected) && form == old(form) && addDialogOpen == old(addDialogOpen)
    {
    }
  }
}
