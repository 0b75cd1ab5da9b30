/** The fixed product catalog of the server and the single-product lookup. */
module Catalog {
  import opened Common

  /** A price in hundredths of the currency unit. Prices are copied from the
      catalog into cart lines and never computed on. */
  datatype Price = Cents(cents: nat)

  datatype Product = Product(
    id: int,
    name: string,
    price: Price,
    description: string,
    image: string,
    category: string)

  /** The server's product list, in its declared order. */
  const PRODUCTS: seq<Product> := [
    Product(1, "Wireless Headphones", Cents(9999),
            "High-quality wireless headphones with noise cancellation",
            "/static/images/headphones.jpg", "electronics"),
    Product(2, "Smart Watch", Cents(19999),
            "Feature-packed smartwatch with health monitoring",
            "/static/images/smartwatch.jpg", "electronics"),
    Product(3, "Bluetooth Speaker", Cents(7999),
            "Portable speaker with 20-hour battery life",
            "/static/images/speaker.jpg", "electronics"),
    Product(4, "Laptop Backpack", Cents(4999),
            "Durable backpack with USB charging port",
            "/static/images/backpack.jpg", "accessories")
  ]

  function ProductId(p: Product): int {
    p.id
  }

  /** Position of the first product whose id is `id`. */
  function IndexOfId(products: seq<Product>, id: int): Option<nat> {
    IndexOf(products, ProductId, id)
  }

  /** GET /api/products/<id>: the catalog entry with that id, or 404. */
  function GetProduct(id: int): (r: Response<Product>)
    ensures r.Ok? <==> exists p :: p in PRODUCTS && p.id == id
    ensures r.Ok? ==> r.value in PRODUCTS && r.value.id == id
    ensures r.Err? ==> r.status == NotFound && r.message == ProductNotFound
  {
    match IndexOfId(PRODUCTS, id)
    case Some(k) => Ok(PRODUCTS[k])
    case None => Err(NotFound, ProductNotFound)
  }

  /** Every product of the catalog has its own id, so "the first product with
      this id" is "the product with this id". */
  lemma CatalogIdsDistinct()
    ensures forall i, j :: 0 <= i < |PRODUCTS| && 0 <= j < |PRODUCTS| && PRODUCTS[i].id == PRODUCTS[j].id ==> i == j
  {
  }

  /** The catalog answers exactly the ids 1 to 4. */
  lemma GetProductKnownIds(id: int)
    ensures GetProduct(id).Ok? <==> 1 <= id <= 4
  {
    if 1 <= id <= 4 {
      assert PRODUCTS[id - 1] in PRODUCTS;
    }
  }
}
