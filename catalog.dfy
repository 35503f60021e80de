/** The static product catalog of src/data/products.js and the size-keyed
    price rule shared by the product modal and the cart. */
module Catalog {

  datatype Product = Product(
    id: int,
    name: string,
    description: string,
    price50ml: int,
    price100ml: int,
    image: string)

  const Products: seq<Product> := [
    Product(1, "Golden IRIS (Men)",
      "A luxurious blend of iris with notes of saffron and rose",
      499, 899, "images/products/product-5.jpeg"),
    Product(2, "Golden IRIS (Women)",
      "Enchanting jasmine with hints of sandalwood and vanilla",
      499, 899, "images/products/product-6.jpeg"),
    Product(3, "Ananta AGHORI (Men)",
      "A mystical blend with sandalwood, amber, and exotic spices for a spiritual experience - perfect for meditation and introspection. Ideal for those seeking inner peace and spiritual awakening.",
      1000, 1800, "images/products/product-7.jpeg"),
    Product(4, "Ananta AGHORI (Women)",
      "Warm amber with exotic spices and a touch of leather - a sensual and mysterious fragrance for the modern woman",
      1400, 2400, "images/products/product-8.jpeg"),
    Product(5, "Ananta Infinite (Unisex)",
      "Delicate gardenia with white florals and musk - a timeless and versatile fragrance for everyone, perfect for any occasion. A perfect gift for all seasons. Ideal for gifting during festivals and special occasions.",
      1100, 1900, "images/products/product-9.jpeg"),
    Product(6, "Ananta Premium Set",
      "Creamy sandalwood with amber and vanilla undertones - a luxurious collection for the discerning fragrance lover. Includes multiple fragrances in one elegant set.",
      1599, 2799, "images/products/product-11.jpeg"),
    Product(7, "Ananta Men Fit",
      "Zesty lemon and bergamot with green tea notes - a refreshing and uplifting fragrance perfect for daytime wear. Great for those who love bright, cheerful scents.",
      1199, 1999, "images/products/product-12.jpeg"),
    Product(8, "Ananta Women Cure",
      "Rich rose with patchouli and a hint of chocolate",
      1600, 2800, "images/products/product-13.jpeg"),
    Product(9, "Ananta AGHORI+IRIS",
      "Spiritual incense with frankincense and myrrh",
      1500, 2600, "images/products/product-14.jpeg")
  ]

  /** The unit price for a size: the 50ml price for exactly "50ml", the
      100ml price for every other size string. */
  function PriceFor(p: Product, size: string): (price: int)
    ensures size == "50ml" ==> price == p.price50ml
    ensures size != "50ml" ==> price == p.price100ml
  {
    if size == "50ml" then p.price50ml else p.price100ml
  }

  /** Nine products whose ids are 1..9 in order (hence all distinct). */
  lemma CatalogIds()
    ensures |Products| == 9
    ensures forall i :: 0 <= i < |Products| ==> Products[i].id == i + 1
    ensures forall i, j :: 0 <= i < j < |Products| ==> Products[i].id != Products[j].id
  {
  }

  /** Every price is a positive whole number; the larger bottle always costs
      more, and always less than two small ones. */
  lemma CatalogPrices()
    ensures forall p :: p in Products ==> SensiblyPriced(p)
  {
    forall i | 0 <= i < |Products| ensures SensiblyPriced(Products[i]) {
    }
  }

  predicate SensiblyPriced(p: Product) {
    0 < p.price50ml < p.price100ml < 2 * p.price50ml
  }
}
