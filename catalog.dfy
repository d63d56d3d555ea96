/** The static product catalog every page reads, and the lookup of a product
    by its name (product.js `getProductFromURL`, cart.js `renderCart`). */
module Catalog {
  import opened Seqs
  import opened Urls

  /** A catalog entry. `price` is an integer amount of the smallest currency unit. */
  datatype Product = Product(
    name: string,
    manufacturer: string,
    category: string,
    price: nat,
    tags: seq<string>)

  /** `products.find((p) => p.name === name)`: the first product with that name, if any. */
  function FindProduct(catalog: seq<Product>, name: string): (r: Option<Product>)
    ensures r.None? <==> forall i :: 0 <= i < |catalog| ==> catalog[i].name != name
    ensures r.Some? ==> exists i :: 0 <= i < |catalog| && catalog[i] == r.value && r.value.name == name
                                    && forall j :: 0 <= j < i ==> catalog[j].name != name
  {
    if catalog == [] then None
    else if catalog[0].name == name then Some(catalog[0])
    else
      var r := FindProduct(catalog[1..], name);
      if r.Some? then
        var i :| 0 <= i < |catalog[1..]| && catalog[1..][i] == r.value && r.value.name == name
                 && forall j :: 0 <= j < i ==> catalog[1..][j].name != name;
        assert catalog[i + 1] == r.value;
        r
      else r
  }

  /** The product page's product: the one named by the `name` parameter. A missing
      parameter is `null`, which no product name equals. */
  function GetProductFromUrl(url: Url, catalog: seq<Product>): (r: Option<Product>)
    ensures r.Some? ==> "name" in url && r.value in catalog && r.value.name == url["name"]
    ensures r.Some? ==> exists i :: 0 <= i < |catalog| && catalog[i] == r.value
                                    && forall j :: 0 <= j < i ==> catalog[j].name != url["name"]
    ensures r.None? <==> "name" !in url || forall i :: 0 <= i < |catalog| ==> catalog[i].name != url["name"]
  {
    if "name" in url then FindProduct(catalog, url["name"]) else None
  }
}
