/** The pure helpers of the browser script: text truncation, the cart badge
    count, the category list and filter of the products page, and the
    featured products of the home page. */
module Storefront {
  import opened Catalog
  import opened Carts

  /** `truncateText(text, maxLength)`: the text itself when it fits, else its
      first `maxLength` characters followed by "..." (`substring` treats a
      negative end as 0). */
  function TruncateText(text: string, maxLength: int): (r: string)
    ensures |text| <= maxLength ==> r == text
    ensures |text| > maxLength ==>
      var keep := if maxLength < 0 then 0 else maxLength;
      && |r| == keep + 3
      && r[..keep] == text[..keep]
      && r[keep..] == "..."
  {
    if |text| > maxLength then text[..if maxLength < 0 then 0 else maxLength] + "..." else text
  }

  /** Truncating an already truncated text changes nothing. */
  lemma TruncateIdempotent(text: string, maxLength: int)
    ensures TruncateText(TruncateText(text, maxLength), maxLength) == TruncateText(text, maxLength)
  {
    var r := TruncateText(text, maxLength);
    if |text| > maxLength && maxLength >= 0 {
      assert r[..maxLength] == text[..maxLength];
    }
  }

  /** The cart badge: `cartItems.reduce((total, item) => total + item.quantity, 0)`. */
  function TotalItems(items: seq<CartItem>): (total: int)
    ensures items == [] ==> total == 0
    ensures (forall k :: 0 <= k < |items| ==> items[k].quantity >= 0) ==> total >= 0
    ensures |items| == 1 ==> total == items[0].quantity
  {
    if items == [] then 0 else items[0].quantity + TotalItems(items[1..])
  }

  lemma {:induction false} TotalConcat(a: seq<CartItem>, b: seq<CartItem>)
    ensures TotalItems(a + b) == TotalItems(a) + TotalItems(b)
  {
    if a == [] {
      assert a + b == b;
    } else {
      assert (a + b)[0] == a[0] && (a + b)[1..] == a[1..] + b;
      TotalConcat(a[1..], b);
    }
  }

  /** The badge grows by exactly the quantity added, whether the add merged
      into an existing line or appended a new one. */
  lemma TotalAfterAdd(cart: seq<CartItem>, productId: int, p: Product, quantity: int)
    ensures TotalItems(AddLine(cart, productId, p, quantity)) == TotalItems(cart) + quantity
  {
    var r := AddLine(cart, productId, p, quantity);
    match IndexOfLine(cart, productId)
    case Some(i) =>
      assert cart == cart[..i] + [cart[i]] + cart[i + 1..];
      assert r == cart[..i] + [r[i]] + cart[i + 1..];
      TotalConcat(cart[..i] + [cart[i]], cart[i + 1..]);
      TotalConcat(cart[..i], [cart[i]]);
      TotalConcat(cart[..i] + [r[i]], cart[i + 1..]);
      TotalConcat(cart[..i], [r[i]]);
    case None =>
      TotalConcat(cart, [r[|cart|]]);
      assert r == cart + [r[|cart|]];
  }

  /** In a cart with one line per product, removing a product lowers the
      badge by that line's quantity, and by nothing when it is absent. */
  lemma {:induction false} TotalAfterRemove(cart: seq<CartItem>, productId: int)
    requires UniqueProducts(cart)
    ensures TotalItems(Without(cart, productId)) ==
      TotalItems(cart) - (match IndexOfLine(cart, productId)
                          case Some(i) => cart[i].quantity
                          case None => 0)
  {
    if cart != [] {
      assert cart == [cart[0]] + cart[1..];
      UniqueCons(cart[0], cart[1..]);
      if cart[0].productId == productId {
        assert Without(cart, productId) == Without(cart[1..], productId);
        WithoutAbsent(cart[1..], productId);
      } else {
        TotalAfterRemove(cart[1..], productId);
      }
    }
  }

  /** No value occurs twice. */
  predicate NoDuplicates(xs: seq<string>) {
    forall i, j :: 0 <= i < j < |xs| ==> xs[i] != xs[j]
  }

  /** `[...new Set(xs)]`: each value once, in the order of first insertion. */
  function Distinct(xs: seq<string>): (r: seq<string>)
    ensures forall x :: x in r <==> x in xs
    ensures NoDuplicates(r)
  {
    if xs == [] then []
    else
      var d := Distinct(xs[..|xs| - 1]);
      assert xs == xs[..|xs| - 1] + [xs[|xs| - 1]];
      if xs[|xs| - 1] in d then d else d + [xs[|xs| - 1]]
  }

  /** Position of the first occurrence of `x`. */
  function FirstIndex(xs: seq<string>, x: string): (k: nat)
    requires x in xs
    ensures k < |xs| && xs[k] == x && x !in xs[..k]
  {
    if xs[0] == x then 0 else 1 + FirstIndex(xs[1..], x)
  }

  /** An occurrence inside a prefix is the first occurrence of the whole. */
  lemma {:induction false} FirstIndexInPrefix(xs: seq<string>, m: nat, x: string)
    requires m <= |xs| && x in xs[..m]
    ensures FirstIndex(xs, x) == FirstIndex(xs[..m], x)
  {
    var k, k' := FirstIndex(xs, x), FirstIndex(xs[..m], x);
    assert xs[..m][k'] == xs[k'];
  }

  /** The distinct values come in the order of their first occurrence. */
  lemma {:induction false} DistinctFirstOccurrenceOrder(xs: seq<string>)
    ensures forall i, j :: 0 <= i < j < |Distinct(xs)| ==>
      FirstIndex(xs, Distinct(xs)[i]) < FirstIndex(xs, Distinct(xs)[j])
  {
    if xs != [] {
      var n := |xs| - 1;
      var init := xs[..n];
      var d := Distinct(init);
      DistinctFirstOccurrenceOrder(init);
      assert xs == init + [xs[n]];
      forall i, j | 0 <= i < j < |Distinct(xs)|
        ensures FirstIndex(xs, Distinct(xs)[i]) < FirstIndex(xs, Distinct(xs)[j])
      {
        var r := Distinct(xs);
        FirstIndexInPrefix(xs, n, r[i]);
        assert init[..n] == init;
        if j < |d| {
          FirstIndexInPrefix(xs, n, r[j]);
        } else {
          assert r[j] == xs[n] && r[j] !in init;
          assert FirstIndex(xs, r[j]) == n;
        }
      }
    }
  }

  /** `products.map(product => product.category)`. */
  function CategoryOf(products: seq<Product>): (cs: seq<string>)
    ensures |cs| == |products|
    ensures forall i :: 0 <= i < |products| ==> cs[i] == products[i].category
  {
    seq(|products|, i requires 0 <= i < |products| => products[i].category)
  }

  /** The category filter buttons: every category of the products exactly
      once, in the order the categories first appear. */
  function Categories(products: seq<Product>): (r: seq<string>)
    ensures forall c :: c in r <==> exists p :: p in products && p.category == c
    ensures NoDuplicates(r)
  {
    var cs := CategoryOf(products);
    assert forall c :: c in cs <==> exists p :: p in products && p.category == c by {
      forall c | c in cs ensures exists p :: p in products && p.category == c {
        var i :| 0 <= i < |cs| && cs[i] == c;
        assert products[i] in products;
      }
      forall c | exists p :: p in products && p.category == c ensures c in cs {
        var p :| p in products && p.category == c;
        var i :| 0 <= i < |products| && products[i] == p;
        assert cs[i] == c;
      }
    }
    Distinct(cs)
  }

  /** The catalog shows two category buttons, electronics first. */
  lemma CatalogCategories()
    ensures Categories(PRODUCTS) == ["electronics", "accessories"]
  {
    var cs := CategoryOf(PRODUCTS);
    assert cs == ["electronics", "electronics", "electronics", "accessories"];
    assert cs[..1] == ["electronics"];
    assert cs[..2] == ["electronics", "electronics"];
    assert cs[..3] == ["electronics", "electronics", "electronics"];
    assert cs[..3][..2] == cs[..2] && cs[..2][..1] == cs[..1] && cs[..1][..0] == [];
    assert Distinct(cs[..1]) == ["electronics"];
    assert Distinct(cs[..2]) == ["electronics"];
    assert Distinct(cs[..3]) == ["electronics"];
  }

  /** `products.filter(product => product.category === category)`. */
  function WithCategory(products: seq<Product>, category: string): (r: seq<Product>)
    ensures forall p :: p in r <==> p in products && p.category == category
    ensures |r| <= |products|
  {
    if products == [] then []
    else (if products[0].category == category then [products[0]] else []) + WithCategory(products[1..], category)
  }

  /** The click handler of a filter button: 'all' shows the list as it is,
      any other category only its products. */
  function FilterByCategory(products: seq<Product>, category: string): (r: seq<Product>)
    ensures category == "all" ==> r == products
    ensures category != "all" ==> forall p :: p in r <==> p in products && p.category == category
  {
    if category == "all" then products else WithCategory(products, category)
  }

  /** Filtering keeps the products' order: it works product by product. */
  lemma {:induction false} WithCategoryConcat(a: seq<Product>, b: seq<Product>, category: string)
    ensures WithCategory(a + b, category) == WithCategory(a, category) + WithCategory(b, category)
  {
    if a == [] {
      assert a + b == b;
    } else {
      assert (a + b)[0] == a[0] && (a + b)[1..] == a[1..] + b;
      WithCategoryConcat(a[1..], b, category);
    }
  }

  /** A list whose products all have the category passes the filter whole. */
  lemma {:induction false} WithCategoryAll(products: seq<Product>, category: string)
    requires forall p :: p in products ==> p.category == category
    ensures WithCategory(products, category) == products
  {
    if products != [] {
      assert products[0] in products;
      WithCategoryAll(products[1..], category);
    }
  }

  /** Filtering twice by the same category is filtering once. */
  lemma FilterIdempotent(products: seq<Product>, category: string)
    ensures FilterByCategory(FilterByCategory(products, category), category) == FilterByCategory(products, category)
  {
    if category != "all" {
      WithCategoryAll(WithCategory(products, category), category);
    }
  }

  /** Every category button shows at least one product. */
  lemma FilterOnListedCategory(products: seq<Product>, category: string)
    requires category in Categories(products)
    ensures FilterByCategory(products, category) != []
  {
    var p :| p in products && p.category == category;
    if category != "all" {
      assert p in FilterByCategory(products, category);
    }
  }

  /** The home page's `products.slice(0, 4)`. */
  function Featured(products: seq<Product>): (r: seq<Product>)
    ensures |r| == if |products| < 4 then |products| else 4
    ensures forall i :: 0 <= i < |r| ==> r[i] == products[i]
  {
    if |products| < 4 then products else products[..4]
  }

  /** The catalog has exactly four products, so all of them are featured. */
  lemma FeaturedCatalog()
    ensures Featured(PRODUCTS) == PRODUCTS
  {
  }
}
