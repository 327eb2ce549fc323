/** The shop page: the product search-and-category filter, adding an
    in-stock product to the cart, and the two cart lookups the product
    cards show. */
module Shop {
  import opened Text
  import Seqs
  import opened CartStore

  datatype Product = Product(
    id: string,
    name: string,
    price: real,
    description: string,
    category: string,
    farmName: string,
    inStock: bool,
    unit: string)

  /** The lower-cased search term occurs in the lower-cased name,
      description or farm name. */
  predicate MatchesSearch(p: Product, searchTerm: string) {
    var term := ToLower(searchTerm);
    || Contains(ToLower(p.name), term)
    || Contains(ToLower(p.description), term)
    || Contains(ToLower(p.farmName), term)
  }

  /** The selected category is the "all" wildcard or the product's own. */
  predicate MatchesCategory(p: Product, selectedCategory: string) {
    selectedCategory == "all" || p.category == selectedCategory
  }

  predicate Shown(p: Product, searchTerm: string, selectedCategory: string) {
    MatchesSearch(p, searchTerm) && MatchesCategory(p, selectedCategory)
  }

  /** `filteredProducts`: the products that match both the search and the
      category, in catalogue order. */
  function FilteredProducts(products: seq<Product>, searchTerm: string, selectedCategory: string)
    : (r: seq<Product>)
    ensures Seqs.IsSubsequence(r, products)
    ensures forall i :: 0 <= i < |r| ==> Shown(r[i], searchTerm, selectedCategory)
    ensures forall i :: 0 <= i < |products| && Shown(products[i], searchTerm, selectedCategory)
              ==> products[i] in r
    ensures forall p :: multiset(r)[p] == if Shown(p, searchTerm, selectedCategory) then multiset(products)[p] else 0
  {
    var keep := p => Shown(p, searchTerm, selectedCategory);
    Seqs.FilterIsSubsequence(products, keep);
    Seqs.Filter(products, keep)
  }

  /** With an empty search box and the "all" category every product is
      shown. */
  lemma EmptySearchShowsAll(products: seq<Product>)
    ensures FilteredProducts(products, "", "all") == products
  {
    Seqs.FilterKeepsAll(products, p => Shown(p, "", "all"));
  }

  /** The search ignores the case of what is typed. */
  lemma SearchIgnoresCase(products: seq<Product>, searchTerm: string, selectedCategory: string)
    ensures FilteredProducts(products, ToLower(searchTerm), selectedCategory)
            == FilteredProducts(products, searchTerm, selectedCategory)
  {
    ToLowerIdempotent(searchTerm);
    Seqs.FilterCongruent(products,
      p => Shown(p, ToLower(searchTerm), selectedCategory),
      p => Shown(p, searchTerm, selectedCategory));
  }

  /** Narrowing the category never shows a product the "all" category
      hides. */
  lemma CategoryNarrows(products: seq<Product>, searchTerm: string, selectedCategory: string)
    ensures forall p :: p in FilteredProducts(products, searchTerm, selectedCategory)
              ==> p in FilteredProducts(products, searchTerm, "all")
  {
    var all := FilteredProducts(products, searchTerm, "all");
    forall p | p in FilteredProducts(products, searchTerm, selectedCategory) ensures p in all {
      var i :| 0 <= i < |products| && products[i] == p;
      assert Shown(products[i], searchTerm, "all");
    }
  }

  /** `isInCart`: `some` scans the lines for this product id; it holds
      exactly when some line has it. */
  function IsInCart(items: seq<CartItem>, productId: string): (b: bool)
    ensures b <==> exists i :: 0 <= i < |items| && items[i].id == productId
  {
    if items == [] then false
    else if items[0].id == productId then true
    else
      var b := IsInCart(items[1..], productId);
      assert b <==> exists i :: 0 <= i < |items| && items[i].id == productId by {
        if exists i :: 0 <= i < |items| && items[i].id == productId {
          var i :| 0 <= i < |items| && items[i].id == productId;
          assert items[1..][i - 1] == items[i];
        }
      }
      b
  }

  /** `getCartQuantity`: the quantity of the first line with this id, 0 if
      there is none. */
  function GetCartQuantity(items: seq<CartItem>, productId: string): (q: int)
    ensures !IsInCart(items, productId) ==> q == 0
    ensures IsInCart(items, productId) ==>
              exists i :: && 0 <= i < |items| && items[i].id == productId && q == items[i].quantity
                          && forall j :: 0 <= j < i ==> items[j].id != productId
  {
    if items == [] then 0
    else if items[0].id == productId then items[0].quantity
    else
      var q := GetCartQuantity(items[1..], productId);
      assert IsInCart(items, productId) ==> IsInCart(items[1..], productId) by {
        if IsInCart(items, productId) {
          var i :| 0 <= i < |items| && items[i].id == productId;
          assert items[1..][i - 1] == items[i];
        }
      }
      assert IsInCart(items, productId) ==>
               exists i :: && 0 <= i < |items| && items[i].id == productId && q == items[i].quantity
                           && forall j :: 0 <= j < i ==> items[j].id != productId
      by {
        if IsInCart(items, productId) {
          var k :| && 0 <= k < |items[1..]| && items[1..][k].id == productId && q == items[1..][k].quantity
                   && forall j :: 0 <= j < k ==> items[1..][j].id != productId;
          assert items[k + 1] == items[1..][k];
          assert forall j :: 0 < j < k + 1 ==> items[j] == items[1..][j - 1];
        }
      }
      q
  }

  /** The payload `handleAddToCart` hands to `addItem`: the product's id,
      name, price and farm name, and nothing else of the product. */
  function Payload(p: Product): (r: NewItem)
    ensures r.id == p.id && r.name == p.name && r.price == p.price && r.farmName == p.farmName
  {
    NewItem(p.id, p.name, p.price, p.farmName)
  }

  class ShopPage {
    var searchTerm: string
    var selectedCategory: string
    var isLoading: bool
    const cart: Cart

    constructor (cart: Cart)
      ensures this.cart == cart
      ensures searchTerm == "" && selectedCategory == "all" && !isLoading
    {
      this.cart := cart;
      searchTerm, selectedCategory, isLoading := "", "all", false;
    }

    /** The search box's `onChange` and "Clear Search". */
    method SetSearchTerm(text: string)
      modifies this`searchTerm
      ensures searchTerm == text
    {
      searchTerm := text;
    }

    /** A category button, and "Show All Categories" with `"all"`. */
    method SelectCategory(category: string)
      modifies this`selectedCategory
      ensures selectedCategory == category
    {
      selectedCategory := category;
    }

    /** `handleAddToCart`: an out-of-stock product does nothing; otherwise,
        after the simulated delay (`fails` selects the `catch` branch, kept
        as written although that timer never rejects), exactly
        one `addItem` with the product's id, name, price and farm name. */
    method HandleAddToCart(product: Product, fails: bool)
      modifies this`isLoading, cart
      ensures searchTerm == old(searchTerm) && selectedCategory == old(selectedCategory)
      ensures !product.inStock ==> isLoading == old(isLoading) && unchanged(cart)
      ensures product.inStock ==> !isLoading
      ensures product.inStock && fails ==> unchanged(cart)
      ensures product.inStock && !fails ==> cart.calls == old(cart.calls) + [CartCall.AddItem(Payload(product))]
    {
      if !product.inStock {
        return;
      }
      isLoading := true;
      if !fails {
        cart.AddItem(Payload(product));
      }
      isLoading := false;
    }
  }
}
