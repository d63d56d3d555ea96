/** The option lists the filter panels offer (scripts/search.js and scripts/filters.js
    `renderFilters`): for each category, the tags of its products, sorted and each once;
    the categories, sorted; and, on the search page, the manufacturers, sorted. */
module FilterIndex {
  import opened Seqs
  import opened LexOrder
  import opened Catalog

  /** The tags of one product, as a set. */
  function TagSet(p: Product): set<string> {
    set k | 0 <= k < |p.tags| :: p.tags[k]
  }

  /** Every category some product of the catalog has. */
  function CategoriesOf(catalog: seq<Product>): set<string> {
    set i | 0 <= i < |catalog| :: catalog[i].category
  }

  /** Every manufacturer some product of the catalog has. */
  function ManufacturersOf(catalog: seq<Product>): set<string> {
    set i | 0 <= i < |catalog| :: catalog[i].manufacturer
  }

  /** The union of the tags of the products of category `c`. */
  function CategoryTags(catalog: seq<Product>, c: string): set<string> {
    set i, k | 0 <= i < |catalog| && catalog[i].category == c && 0 <= k < |catalog[i].tags| :: catalog[i].tags[k]
  }

  lemma CategoriesStep(catalog: seq<Product>, i: nat)
    requires i < |catalog|
    ensures CategoriesOf(catalog[..i + 1]) == CategoriesOf(catalog[..i]) + {catalog[i].category}
  {
    var a, b := catalog[..i], catalog[..i + 1];
    assert b[i] == catalog[i];
    forall c | c in CategoriesOf(b) ensures c in CategoriesOf(a) + {catalog[i].category} {
      var j :| 0 <= j < |b| && b[j].category == c;
      if j < i {
        assert a[j] == b[j];
      }
    }
    forall c | c in CategoriesOf(a) ensures c in CategoriesOf(b) {
      var j :| 0 <= j < |a| && a[j].category == c;
      assert b[j] == a[j];
    }
  }

  /** Adding product `i` adds its tags to its own category and changes no other category. */
  lemma CategoryTagsStep(catalog: seq<Product>, i: nat, c: string)
    requires i < |catalog|
    ensures CategoryTags(catalog[..i + 1], c) ==
            CategoryTags(catalog[..i], c) + (if catalog[i].category == c then TagSet(catalog[i]) else {})
  {
    var a, b := catalog[..i], catalog[..i + 1];
    var extra := if catalog[i].category == c then TagSet(catalog[i]) else {};
    assert b[i] == catalog[i];
    forall t | t in CategoryTags(b, c) ensures t in CategoryTags(a, c) + extra {
      var j, k :| 0 <= j < |b| && b[j].category == c && 0 <= k < |b[j].tags| && b[j].tags[k] == t;
      if j < i {
        assert a[j] == b[j];
      }
    }
    forall t | t in CategoryTags(a, c) ensures t in CategoryTags(b, c) {
      var j, k :| 0 <= j < |a| && a[j].category == c && 0 <= k < |a[j].tags| && a[j].tags[k] == t;
      assert b[j] == a[j];
    }
    forall t | t in extra ensures t in CategoryTags(b, c) {
      var k :| 0 <= k < |catalog[i].tags| && catalog[i].tags[k] == t;
      assert b[i].tags[k] == t;
    }
  }

  /** `product.tags.forEach((tag) => set.add(tag))`. */
  method AddTags(s: set<string>, tags: seq<string>) returns (r: set<string>)
    ensures r == s + set k | 0 <= k < |tags| :: tags[k]
  {
    r := s;
    var j := 0;
    while j < |tags|
      invariant 0 <= j <= |tags|
      invariant r == s + set k | 0 <= k < j :: tags[k]
    {
      r := r + {tags[j]};
      j := j + 1;
    }
  }

  /** The `reduce` into a category -> `Set` accumulator: one entry per category, holding the
      tags of that category's products. */
  method GroupTags(catalog: seq<Product>) returns (acc: map<string, set<string>>)
    ensures acc.Keys == CategoriesOf(catalog)
    ensures forall c :: c in acc ==> acc[c] == CategoryTags(catalog, c)
  {
    acc := map[];
    var i := 0;
    while i < |catalog|
      invariant 0 <= i <= |catalog|
      invariant acc.Keys == CategoriesOf(catalog[..i])
      invariant forall c :: c in acc ==> acc[c] == CategoryTags(catalog[..i], c)
    {
      var p := catalog[i];
      CategoriesStep(catalog, i);
      if p.category !in acc {
        acc := acc[p.category := {}];
      }
      var tags := AddTags(acc[p.category], p.tags);
      acc := acc[p.category := tags];
      forall c | c in acc ensures acc[c] == CategoryTags(catalog[..i + 1], c) {
        CategoryTagsStep(catalog, i, c);
      }
      i := i + 1;
    }
    assert catalog[..i] == catalog;
  }

  /** `for (const category in ...) ... = [...set].sort()`: every set becomes its sorted,
      duplicate-free list of elements. */
  method SortGroups(acc: map<string, set<string>>) returns (index: map<string, seq<string>>)
    ensures index.Keys == acc.Keys
    ensures forall c :: c in index ==> StrictlySorted(index[c]) && Distinct(index[c])
    ensures forall c, t :: c in index ==> (t in index[c] <==> t in acc[c])
  {
    index := map[];
    var rest := acc.Keys;
    while rest != {}
      invariant rest <= acc.Keys
      invariant index.Keys == acc.Keys - rest
      invariant forall c :: c in index ==> StrictlySorted(index[c]) && Distinct(index[c])
      invariant forall c, t :: c in index ==> (t in index[c] <==> t in acc[c])
      decreases rest
    {
      var c :| c in rest;
      var sorted := SortedElements(acc[c]);
      SortedIsDistinct(sorted);
      index := index[c := sorted];
      rest := rest - {c};
    }
  }

  /** The grouping, the sort of each group and `Object.keys(...).sort()` for the category list. */
  method BuildTagIndex(catalog: seq<Product>) returns (index: map<string, seq<string>>, categories: seq<string>)
    ensures index.Keys == CategoriesOf(catalog)
    ensures forall c :: c in index ==> StrictlySorted(index[c]) && Distinct(index[c])
    ensures forall c, t :: c in index ==> (t in index[c] <==> t in CategoryTags(catalog, c))
    ensures StrictlySorted(categories) && Distinct(categories)
    ensures forall c :: c in categories <==> c in CategoriesOf(catalog)
  {
    var acc := GroupTags(catalog);
    index := SortGroups(acc);
    categories := SortedElements(acc.Keys);
    SortedIsDistinct(categories);
  }

  /** `[...new Set(products.map((p) => p.manufacturer))].sort()`. */
  method SortedManufacturers(catalog: seq<Product>) returns (r: seq<string>)
    ensures StrictlySorted(r) && Distinct(r)
    ensures forall m :: m in r <==> m in ManufacturersOf(catalog)
  {
    r := SortedElements(ManufacturersOf(catalog));
    SortedIsDistinct(r);
  }
}
