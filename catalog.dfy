/** The fixed product catalog of backend/products.js: six records, read-only
    for the whole life of the process. Prices are in integer cents and
    ratings in tenths of a star, so 29.99 is 2999 and 4.8 is 48. */
module Catalog {
  import opened Opt
  import opened Seqs

  datatype Product = Product(
    id: int,
    name: string,
    description: string,
    price: int,              // cents
    oldPrice: Option<int>,   // cents; present only on discounted products
    category: string,
    image: string,
    rating: int,             // tenths of a star
    ratingCount: nat,
    badge: Option<string>,
    isNew: bool,
    stock: nat
  )

  const PRODUCTS: seq<Product> := [
    Product(1, "Classic White T-Shirt",
      "A timeless classic, this white t-shirt is made from 100% premium cotton for ultimate comfort and durability. Perfect for any occasion, it features a relaxed fit and a ribbed crew neck.",
      2999, Some(3999), "Fashion", "/frontend/assets/products/tshirt.png", 48, 1250, Some("Sale"), false, 150),
    Product(2, "Bluetooth Headphones",
      "Experience immersive sound with these noise-cancelling Bluetooth headphones. Featuring a 40-hour battery life, plush earcups, and a built-in microphone for calls.",
      12999, None, "Electronics", "/frontend/assets/products/headphones.png", 49, 2340, Some("New"), true, 75),
    Product(3, "Organic Skincare Set",
      "Revitalize your skin with this all-in-one organic skincare set. Includes a cleanser, toner, serum, and moisturizer, all made with natural, cruelty-free ingredients.",
      8999, None, "Beauty", "/frontend/assets/products/skincare.png", 47, 890, Some("Premium"), false, 90),
    Product(4, "Smart Fitness Watch",
      "Track your fitness goals with this advanced smartwatch. Monitors heart rate, steps, sleep, and GPS, with a vibrant AMOLED display and a 2-week battery life.",
      19999, Some(24999), "Electronics", "/frontend/assets/products/smartwatch.png", 46, 1500, Some("Sale"), false, 60),
    Product(5, "Slim-Fit Denim Jeans",
      "A modern take on a classic style. These slim-fit jeans are made with a comfortable stretch denim, perfect for everyday wear. Available in multiple washes.",
      7999, None, "Fashion", "/frontend/assets/products/jeans.png", 45, 980, Some("Best Seller"), false, 120),
    Product(6, "Trail Running Shoes",
      "Conquer any trail with these durable and comfortable running shoes. Featuring a waterproof GORE-TEX membrane, high-traction outsole, and responsive cushioning.",
      14999, None, "Sports", "/frontend/assets/products/running-shoes.png", 48, 1120, Some("Featured"), false, 80)
  ]

  predicate DifferentIds(a: Product, b: Product) {
    a.id != b.id
  }

  /** No two products share an id. */
  predicate UniqueIds(s: seq<Product>) {
    Pairwise(s, DifferentIds)
  }

  /** What the data model promises of every product: a non-negative price,
      a rating between 0 and 5 stars, and a discount only off a higher price. */
  predicate WellFormed(p: Product) {
    && p.price >= 0
    && 0 <= p.rating <= 50
    && (p.oldPrice.Some? ==> p.oldPrice.value > p.price)
  }

  /** The catalog keeps the data model's promises: ids are unique and every
      record is well formed. */
  lemma CatalogWellFormed()
    ensures UniqueIds(PRODUCTS)
    ensures forall i :: 0 <= i < |PRODUCTS| ==> WellFormed(PRODUCTS[i])
    ensures forall i :: 0 <= i < |PRODUCTS| ==> PRODUCTS[i].id == i + 1
  {
    var s := PRODUCTS;
    assert |s| == 6;
    assert s[0].id == 1 && WellFormed(s[0]);
    assert s[1].id == 2 && WellFormed(s[1]);
    assert s[2].id == 3 && WellFormed(s[2]);
    assert s[3].id == 4 && WellFormed(s[3]);
    assert s[4].id == 5 && WellFormed(s[4]);
    assert s[5].id == 6 && WellFormed(s[5]);
    IndexIdsUnique(s);
  }

  /** Ids that count up from 1 are unique. */
  lemma IndexIdsUnique(s: seq<Product>)
    requires forall i :: 0 <= i < |s| ==> s[i].id == i + 1
    ensures UniqueIds(s)
  {
  }

  /** `products.map(p => p.category)`. */
  function CategoryList(s: seq<Product>): (r: seq<string>)
    ensures |r| == |s|
    ensures forall i :: 0 <= i < |s| ==> r[i] == s[i].category
  {
    if s == [] then [] else [s[0].category] + CategoryList(s[1..])
  }
}
