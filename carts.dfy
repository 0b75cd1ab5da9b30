/** The server's in-memory cart table: user id -> ordered list of cart lines,
    with the GET, add (POST) and remove endpoints that read and update it. */
module Carts {
  import opened Common
  import opened Catalog

  /** One cart line: the requested product id, a snapshot of the product's
      name, price and image taken when the line was created, and a quantity. */
  datatype CartItem = CartItem(productId: int, name: string, price: Price, image: string, quantity: int)

  /** A missing `user_id` stands for the user "default". */
  function UserKey(userId: Option<string>): (user: string)
    ensures userId.Some? ==> user == userId.value
    ensures userId.None? ==> user == "default"
  {
    match userId
    case Some(u) => u
    case None => "default"
  }

  /** `not product_id`: an absent id and the id 0 are both rejected. The
      check turns away no id the catalog holds. */
  predicate Falsy(productId: Option<int>)
    ensures Falsy(productId) ==> productId.None? || forall p :: p in PRODUCTS ==> p.id != productId.value
  {
    productId.None? || productId.value == 0
  }

  /** A missing `quantity` stands for 1; a given one is taken as it is. */
  function QuantityOr1(quantity: Option<int>): (q: int)
    ensures quantity.Some? ==> q == quantity.value
    ensures quantity.None? ==> q == 1
  {
    match quantity
    case Some(q) => q
    case None => 1
  }

  /** `CARTS.get(user, [])`: the stored cart of `user`, the empty list when
      there is none. */
  function CartOf(carts: map<string, seq<CartItem>>, user: string): (cart: seq<CartItem>)
    ensures user in carts ==> cart == carts[user]
    ensures user !in carts ==> cart == []
  {
    if user in carts then carts[user] else []
  }

  /** The line appended for a product that is not yet in the cart: the
      requested id and quantity, with the product's name, price and image. */
  function Snapshot(productId: int, p: Product, quantity: int): (line: CartItem)
    ensures line.productId == productId && line.quantity == quantity
    ensures IndexOfId(PRODUCTS, productId).Some? && p == PRODUCTS[IndexOfId(PRODUCTS, productId).value] ==>
      IsCatalogSnapshot(line)
  {
    CartItem(productId, p.name, p.price, p.image, quantity)
  }

  function LineProductId(line: CartItem): int {
    line.productId
  }

  /** Position of the first line of `cart` for `productId`. */
  function IndexOfLine(cart: seq<CartItem>, productId: int): Option<nat> {
    IndexOf(cart, LineProductId, productId)
  }

  /** The cart after adding `quantity` of product `p` under `productId`: the
      existing line's quantity grows, or a new line is appended at the end. */
  function AddLine(cart: seq<CartItem>, productId: int, p: Product, quantity: int): (r: seq<CartItem>)
    ensures IndexOfLine(cart, productId).Some? ==>
      var i := IndexOfLine(cart, productId).value;
      && |r| == |cart|
      && r[i].quantity == cart[i].quantity + quantity
      && r[i] == cart[i].(quantity := r[i].quantity)
      && forall j :: 0 <= j < |cart| && j != i ==> r[j] == cart[j]
    ensures IndexOfLine(cart, productId).None? ==>
      && |r| == |cart| + 1
      && r[..|cart|] == cart
      && r[|cart|].productId == productId
      && r[|cart|].name == p.name && r[|cart|].price == p.price && r[|cart|].image == p.image
      && r[|cart|].quantity == quantity
  {
    match IndexOfLine(cart, productId)
    case Some(i) => cart[i := cart[i].(quantity := cart[i].quantity + quantity)]
    case None => cart + [Snapshot(productId, p, quantity)]
  }

  /** The cart without its lines for `productId`, the others in their order. */
  function Without(cart: seq<CartItem>, productId: int): (r: seq<CartItem>)
    ensures forall line :: line in r <==> line in cart && line.productId != productId
    ensures |r| <= |cart|
  {
    if cart == [] then []
    else (if cart[0].productId == productId then [] else [cart[0]]) + Without(cart[1..], productId)
  }

  /** At most one line per product id. */
  predicate UniqueProducts(cart: seq<CartItem>) {
    forall i, j :: 0 <= i < |cart| && 0 <= j < |cart| && cart[i].productId == cart[j].productId ==> i == j
  }

  /** The line's product is in the catalog and the line carries that
      product's name, price and image. */
  predicate IsCatalogSnapshot(line: CartItem) {
    match IndexOfId(PRODUCTS, line.productId)
    case None => false
    case Some(k) =>
      line.name == PRODUCTS[k].name && line.price == PRODUCTS[k].price && line.image == PRODUCTS[k].image
  }

  predicate FromCatalog(cart: seq<CartItem>) {
    forall line :: line in cart ==> IsCatalogSnapshot(line)
  }

  lemma {:induction false} UniqueCons(line: CartItem, rest: seq<CartItem>)
    ensures UniqueProducts([line] + rest) <==>
      (forall other :: other in rest ==> other.productId != line.productId) && UniqueProducts(rest)
  {
    var c := [line] + rest;
    if UniqueProducts(c) {
      forall i, j | 0 <= i < |rest| && 0 <= j < |rest| && rest[i].productId == rest[j].productId
        ensures i == j
      {
        assert c[i + 1] == rest[i] && c[j + 1] == rest[j];
      }
      forall other | other in rest ensures other.productId != line.productId {
        var k :| 0 <= k < |rest| && rest[k] == other;
        assert c[k + 1] == other && c[0] == line;
      }
    }
    if (forall other :: other in rest ==> other.productId != line.productId) && UniqueProducts(rest) {
      forall i, j | 0 <= i < |c| && 0 <= j < |c| && c[i].productId == c[j].productId
        ensures i == j
      {
        if i > 0 && j > 0 {
          assert c[i] == rest[i - 1] && c[j] == rest[j - 1];
        }
      }
    }
  }

  /** Adding keeps at most one line per product: the lookup runs before the
      append, and incrementing does not touch product ids. */
  lemma AddLinePreservesUnique(cart: seq<CartItem>, productId: int, p: Product, quantity: int)
    requires UniqueProducts(cart)
    ensures UniqueProducts(AddLine(cart, productId, p, quantity))
  {
    var r := AddLine(cart, productId, p, quantity);
    if IndexOfLine(cart, productId).None? {
      forall i, j | 0 <= i < |r| && 0 <= j < |r| && r[i].productId == r[j].productId
        ensures i == j
      {
        if i < |cart| { assert r[i] == cart[i]; }
        if j < |cart| { assert r[j] == cart[j]; }
      }
    }
  }

  /** Adding a catalog product keeps every line a snapshot of its catalog entry. */
  lemma AddLinePreservesCatalog(cart: seq<CartItem>, productId: int, quantity: int)
    requires FromCatalog(cart)
    requires IndexOfId(PRODUCTS, productId).Some?
    ensures FromCatalog(AddLine(cart, productId, PRODUCTS[IndexOfId(PRODUCTS, productId).value], quantity))
  {
    var r := AddLine(cart, productId, PRODUCTS[IndexOfId(PRODUCTS, productId).value], quantity);
    forall line | line in r ensures IsCatalogSnapshot(line) {
      var k :| 0 <= k < |r| && r[k] == line;
      if k < |cart| {
        assert cart[k] in cart;
      }
    }
  }

  /** Removing keeps at most one line per product. */
  lemma {:induction false} WithoutPreservesUnique(cart: seq<CartItem>, productId: int)
    requires UniqueProducts(cart)
    ensures UniqueProducts(Without(cart, productId))
  {
    if cart != [] {
      assert cart == [cart[0]] + cart[1..];
      UniqueCons(cart[0], cart[1..]);
      WithoutPreservesUnique(cart[1..], productId);
      if cart[0].productId != productId {
        UniqueCons(cart[0], Without(cart[1..], productId));
      }
    }
  }

  /** Removal keeps the relative order: it works line by line. */
  lemma {:induction false} WithoutConcat(a: seq<CartItem>, b: seq<CartItem>, productId: int)
    ensures Without(a + b, productId) == Without(a, productId) + Without(b, productId)
  {
    if a != [] {
      assert (a + b)[0] == a[0] && (a + b)[1..] == a[1..] + b;
      WithoutConcat(a[1..], b, productId);
      calc {
        Without(a + b, productId);
        (if a[0].productId == productId then [] else [a[0]]) + Without(a[1..] + b, productId);
        (if a[0].productId == productId then [] else [a[0]]) + (Without(a[1..], productId) + Without(b, productId));
      }
    } else {
      assert a + b == b;
    }
  }

  /** A cart without a line for the product is left as it is. */
  lemma {:induction false} WithoutAbsent(cart: seq<CartItem>, productId: int)
    requires forall line :: line in cart ==> line.productId != productId
    ensures Without(cart, productId) == cart
  {
    if cart != [] {
      assert cart[0] in cart;
      WithoutAbsent(cart[1..], productId);
    }
  }

  /** Removing twice is removing once. */
  lemma WithoutIdempotent(cart: seq<CartItem>, productId: int)
    ensures Without(Without(cart, productId), productId) == Without(cart, productId)
  {
    WithoutAbsent(Without(cart, productId), productId);
  }

  /** Adding the same product twice with the default quantity gives one line
      of quantity 2 at the end of the cart, not two lines. */
  lemma AddTwiceMerges(cart: seq<CartItem>, productId: int, p: Product)
    requires IndexOfLine(cart, productId).None?
    ensures var r := AddLine(AddLine(cart, productId, p, 1), productId, p, 1);
      && |r| == |cart| + 1
      && r[..|cart|] == cart
      && r[|cart|] == Snapshot(productId, p, 2)
  {
    var once := AddLine(cart, productId, p, 1);
    assert once[..|cart|] == cart;
    assert IndexOfLine(once, productId) == Some(|cart|);
  }

  /** The process-global cart table of the server. */
  class CartStore {
    var carts: map<string, seq<CartItem>>

    /** Every stored cart has one line per product, each a catalog snapshot. */
    ghost predicate Valid()
      reads this
    {
      forall u :: u in carts ==> UniqueProducts(carts[u]) && FromCatalog(carts[u])
    }

    /** The table starts empty. */
    constructor ()
      ensures Valid() && carts == map[]
    {
      carts := map[];
    }

    /** GET /api/cart: the user's stored cart, the empty list for a user
        without one; reading never inserts an entry. */
    function GetCart(userId: Option<string>): (cart: seq<CartItem>)
      reads this
      ensures UserKey(userId) in carts ==> cart == carts[UserKey(userId)]
      ensures UserKey(userId) !in carts ==> cart == []
      ensures Valid() ==> UniqueProducts(cart) && FromCatalog(cart)
    {
      CartOf(carts, UserKey(userId))
    }

    /** POST /api/cart: validate the product id, look the product up, create
        the user's cart if needed, then increment or append. */
    method AddToCart(userId: Option<string>, productId: Option<int>, quantity: Option<int>)
      returns (r: Response<seq<CartItem>>)
      requires Valid()
      modifies this
      ensures Valid()
      ensures Falsy(productId) ==> r == Err(BadRequest, ProductIdRequired) && carts == old(carts)
      ensures !Falsy(productId) && IndexOfId(PRODUCTS, productId.value).None? ==>
        r == Err(NotFound, ProductNotFound) && carts == old(carts)
      ensures !Falsy(productId) && IndexOfId(PRODUCTS, productId.value).Some? ==>
        var user := UserKey(userId);
        && carts == old(carts)[user := AddLine(CartOf(old(carts), user), productId.value,
                                               PRODUCTS[IndexOfId(PRODUCTS, productId.value).value],
                                               QuantityOr1(quantity))]
        && r == Ok(carts[user])
    {
      var user := UserKey(userId);
      var q := QuantityOr1(quantity);
      if Falsy(productId) {
        return Err(BadRequest, ProductIdRequired);
      }
      var id := productId.value;
      var found := IndexOfId(PRODUCTS, id);
      if found.None? {
        return Err(NotFound, ProductNotFound);
      }
      var product := PRODUCTS[found.value];
      if user !in carts {
        carts := carts[user := []];
      }
      var cart := carts[user];
      AddLinePreservesUnique(cart, id, product, q);
      AddLinePreservesCatalog(cart, id, q);
      match IndexOfLine(cart, id) {
        case Some(i) =>
          carts := carts[user := cart[i := cart[i].(quantity := cart[i].quantity + q)]];
        case None =>
          carts := carts[user := cart + [Snapshot(id, product, q)]];
      }
      r := Ok(carts[user]);
    }

    /** POST /api/cart/remove: drop the product's lines from an existing cart;
        a user without a cart keeps having none. */
    method RemoveFromCart(userId: Option<string>, productId: Option<int>)
      returns (r: Response<seq<CartItem>>)
      requires Valid()
      modifies this
      ensures Valid()
      ensures Falsy(productId) ==> r == Err(BadRequest, ProductIdRequired) && carts == old(carts)
      ensures !Falsy(productId) && UserKey(userId) in old(carts) ==>
        carts == old(carts)[UserKey(userId) := Without(old(carts)[UserKey(userId)], productId.value)]
      ensures !Falsy(productId) && UserKey(userId) !in old(carts) ==> carts == old(carts)
      ensures !Falsy(productId) ==> r == Ok(CartOf(carts, UserKey(userId)))
    {
      var user := UserKey(userId);
      if Falsy(productId) {
        return Err(BadRequest, ProductIdRequired);
      }
      if user in carts {
        WithoutPreservesUnique(carts[user], productId.value);
        carts := carts[user := Without(carts[user], productId.value)];
      }
      r := Ok(CartOf(carts, user));
    }
  }

  /** A client of the store: a fresh user reads an empty cart, a repeated add
      merges into one line of quantity 2, and a remove empties the cart. */
  method RepeatAddThenRemove() {
    var store := new CartStore();
    var empty := store.GetCart(Some("u1"));
    assert empty == [];
    var first := store.AddToCart(Some("u1"), Some(1), None);
    var second := store.AddToCart(Some("u1"), Some(1), None);
    assert second.Ok? && |second.value| == 1 && second.value[0].quantity == 2;
    var removed := store.RemoveFromCart(Some("u1"), Some(1));
    assert removed == Ok([]);
    var missing := store.AddToCart(Some("u1"), Some(0), None);
    assert missing == Err(BadRequest, ProductIdRequired);
    var unknown := store.AddToCart(Some("u2"), Some(99), None);
    assert unknown.Err? && unknown.status.Code() == 404 && "u2" !in store.carts;
  }
}
