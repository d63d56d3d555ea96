/** The search page's filter engine and its URL state (scripts/search.js):
    the filter state read back from the URL, the per-product predicate, the
    parameter update that every checkbox handler goes through, the handlers
    themselves and the clear-filters button. */
module Search {
  import opened Seqs
  import opened Text
  import opened Numbers
  import opened Urls
  import opened Catalog
  import opened SearchCodec

  /** The state `getStateFromURL` derives from the URL. `page` is `parseInt`'s result. */
  datatype FilterState = FilterState(
    q: string,
    categories: seq<string>,
    manufacturers: seq<string>,
    tags: seq<string>,
    page: Option<int>)

  /** A selection list whose values are all single-spaced. A parsed list of that kind holds
      only values the codec carries unchanged (`ParsedValuesAreSafe`). */
  ghost predicate AllSingleSpaced(values: seq<string>) {
    forall i :: 0 <= i < |values| ==> SingleSpaced(values[i])
  }

  /** A selection as `getStateFromURL` reads it: the parameter's `_`-separated values, decoded. */
  function ReadList(url: Url, key: string): seq<string> {
    ParseList(Param(url, key))
  }

  /** The page as `getStateFromURL` reads it: `parseInt(urlParams.get('page') || '1')`. */
  function ReadPage(url: Url): Option<int> {
    ParseInt(if Param(url, "page") == "" then "1" else Param(url, "page"))
  }

  /** `getStateFromURL`. */
  function StateFromUrl(url: Url): FilterState {
    FilterState(
      Normalize(Param(url, "q")),
      ReadList(url, "category"),
      ReadList(url, "manufacturer"),
      ReadList(url, "tags"),
      ReadPage(url))
  }

  /** The query read from any URL is normal. */
  lemma StateQueryIsNormal(url: Url)
    ensures IsNormal(StateFromUrl(url).q)
  {
    NormalizeIsNormal(Param(url, "q"));
  }

  /** A selection read from any URL holds non-empty values free of the delimiter `_`
      and of the placeholder `-`. */
  lemma ReadListIsWellFormed(url: Url, key: string)
    ensures forall i :: 0 <= i < |ReadList(url, key)| ==>
              ReadList(url, key)[i] != [] && '_' !in ReadList(url, key)[i] && '-' !in ReadList(url, key)[i]
  {
  }

  /** A parsed value that is single-spaced is one the codec carries unchanged. */
  lemma ParsedValuesAreSafe(values: seq<string>, raw: string)
    requires values == ParseList(raw) && AllSingleSpaced(values)
    ensures forall i :: 0 <= i < |values| ==> CodecSafe(values[i])
  {
  }

  /** The text the query is matched against: name, category, manufacturer and tags. */
  function SearchText(p: Product): string {
    Normalize(p.name + " " + p.category + " " + p.manufacturer + " " + Delimited.Join(p.tags, ' '))
  }

  /** The predicate `getFilteredProducts` passes to `products.filter`. */
  predicate Matches(p: Product, st: FilterState) {
    && (st.q == [] || Contains(SearchText(p), st.q))
    && (st.categories == [] || p.category in st.categories)
    && (st.manufacturers == [] || p.manufacturer in st.manufacturers)
    && (st.tags == [] || exists t :: t in st.tags && t in p.tags)
  }

  function MatchesState(st: FilterState): Product -> bool {
    p => Matches(p, st)
  }

  /** `getFilteredProducts`: the matching products, in catalog order. */
  function FilterProducts(catalog: seq<Product>, st: FilterState): (r: seq<Product>)
    ensures IsSubsequence(r, catalog)
  {
    FilterIsSubsequence(MatchesState(st), catalog);
    Filter(MatchesState(st), catalog)
  }

  /** A product is listed exactly when it is in the catalog and passes all four tests. */
  lemma FilterIncludes(catalog: seq<Product>, st: FilterState, p: Product)
    ensures p in FilterProducts(catalog, st) <==>
      && p in catalog
      && (st.q == [] || Contains(SearchText(p), st.q))
      && (st.categories == [] || p.category in st.categories)
      && (st.manufacturers == [] || p.manufacturer in st.manufacturers)
      && (st.tags == [] || exists t :: t in st.tags && t in p.tags)
  {
    var r := FilterProducts(catalog, st);
    if p in r {
      var i :| 0 <= i < |r| && r[i] == p;
    }
    if p in catalog && Matches(p, st) {
      var i :| 0 <= i < |catalog| && catalog[i] == p;
    }
  }

  /** `areFiltersActive`. */
  predicate FiltersActive(st: FilterState) {
    st.q != [] || |st.categories| > 0 || |st.manufacturers| > 0 || |st.tags| > 0
  }

  /** With no query and no selection the whole catalog is listed, in order. */
  lemma InactiveFiltersListAll(catalog: seq<Product>, st: FilterState)
    requires !FiltersActive(st)
    ensures FilterProducts(catalog, st) == catalog
  {
    FilterAll(MatchesState(st), catalog);
  }

  /** A query found in no product's text lists nothing. */
  lemma UnmatchedQueryListsNothing(catalog: seq<Product>, st: FilterState)
    requires st.q != []
    requires forall i :: 0 <= i < |catalog| ==> !Contains(SearchText(catalog[i]), st.q)
    ensures FilterProducts(catalog, st) == []
  {
  }

  // ---------------------------------------------------------------------------
  // updateURLParams

  /** The values the handlers pass for a parameter: `null`, a string, an array or a number. */
  datatype ParamValue = Null | Str(text: string) | List(items: seq<string>) | Number(n: int)

  /** `value === null || value === undefined || value.length === 0`. A number has no length. */
  predicate IsBlank(v: ParamValue) {
    v.Null? || (v.Str? && v.text == []) || (v.List? && v.items == [])
  }

  /** The text written for a value that is not blank. */
  function EncodeValue(v: ParamValue): string {
    match v
    case Null => ""
    case Str(s) => Encode(s)
    case List(xs) => EncodeList(xs)
    case Number(n) => Encode(IntToString(n))
  }

  /** The effect of one entry on the URL: deleted when blank, set otherwise. */
  function SetParam(url: Url, key: string, v: ParamValue): Url {
    if IsBlank(v) then url - {key} else url[key := EncodeValue(v)]
  }

  /** The URL after the entries have been applied in order. */
  function ApplyParams(url: Url, params: seq<(string, ParamValue)>): Url
    decreases |params|
  {
    if params == [] then url else ApplyParams(SetParam(url, params[0].0, params[0].1), params[1..])
  }

  /** The keys of an object literal's entries are distinct. */
  ghost predicate DistinctKeys(params: seq<(string, ParamValue)>) {
    forall i, j :: 0 <= i < j < |params| ==> params[i].0 != params[j].0
  }

  ghost predicate Mentions(params: seq<(string, ParamValue)>, key: string) {
    exists i :: 0 <= i < |params| && params[i].0 == key
  }

  /** `key` holds what one entry says: absent for a blank value, the encoded value otherwise. */
  ghost predicate Applied(url: Url, key: string, v: ParamValue) {
    if IsBlank(v) then key !in url else key in url && url[key] == EncodeValue(v)
  }

  /** Each mentioned key holds what its entry says, and every other key is left as it was. */
  lemma {:induction false} ApplyParamsEffect(url: Url, params: seq<(string, ParamValue)>)
    requires DistinctKeys(params)
    ensures forall i :: 0 <= i < |params| ==> Applied(ApplyParams(url, params), params[i].0, params[i].1)
    ensures forall k :: !Mentions(params, k) ==> Untouched(url, ApplyParams(url, params), k)
    decreases |params|
  {
    if params != [] {
      var (key, v) := params[0];
      var next := SetParam(url, key, v);
      var tail := params[1..];
      ApplyParamsEffect(next, tail);
      var r := ApplyParams(url, params);
      assert r == ApplyParams(next, tail);
      assert !Mentions(tail, key) by {
        forall i | 0 <= i < |tail| ensures tail[i].0 != key {
          assert tail[i] == params[i + 1];
        }
      }
      forall i | 0 <= i < |params|
        ensures Applied(r, params[i].0, params[i].1)
      {
        if i > 0 {
          assert params[i] == tail[i - 1];
        }
      }
      forall k | !Mentions(params, k)
        ensures Untouched(url, r, k)
      {
        assert k != key;
        assert !Mentions(tail, k) by {
          forall i | 0 <= i < |tail| ensures tail[i].0 != k {
            assert tail[i] == params[i + 1];
          }
        }
      }
    }
  }

  /** `updateURLParams`: apply each entry of the object to the URL in turn. */
  method UpdateUrlParams(url: Url, params: seq<(string, ParamValue)>) returns (r: Url)
    requires DistinctKeys(params)
    ensures forall i :: 0 <= i < |params| ==> Applied(r, params[i].0, params[i].1)
    ensures forall k :: !Mentions(params, k) ==> Untouched(url, r, k)
  {
    r := url;
    var i := 0;
    while i < |params|
      invariant 0 <= i <= |params|
      invariant ApplyParams(r, params[i..]) == ApplyParams(url, params)
    {
      var (key, value) := params[i];
      assert params[i..][1..] == params[i + 1..];
      if IsBlank(value) {
        r := r - {key};
      } else {
        r := r[key := EncodeValue(value)];
      }
      i := i + 1;
    }
    ApplyParamsEffect(url, params);
  }

  /** A page number written by `updateURLParams` is read back as the same number. */
  lemma PageReadsBack(url: Url, n: int)
    requires Applied(url, "page", Number(n))
    ensures ReadPage(url) == Some(n)
  {
    var text := IntToString(n);
    assert SingleSpaced(text) by {
      assert forall i :: 0 <= i < |text| ==> text[i] == '-' || IsDigit(text[i]);
    }
    ReplaceRunsOfSingleSpaced(text, '-');
    assert Encode(text) == text;
    ParseIntToString(n);
  }

  /** A list written by a handler is read back unchanged when its values are codec-safe. */
  lemma ListReadsBack(url: Url, key: string, values: seq<string>)
    requires Applied(url, key, List(values))
    requires forall i :: 0 <= i < |values| ==> CodecSafe(values[i])
    ensures ParseList(Param(url, key)) == values
  {
    ParseEncodeList(values);
    ParseEncodeList([]);
  }

  function Other(value: string): string -> bool {
    c => c != value
  }

  /** The new selection after a category or manufacturer checkbox changes:
      appended when checked (`[...xs, value]`), every occurrence removed otherwise. */
  function Toggled(values: seq<string>, checked: bool, value: string): seq<string> {
    if checked then values + [value] else Filter(Other(value), values)
  }

  /** The call every checkbox handler ends with: `updateURLParams({ [key]: values, page: 1 })`. */
  method UpdateSelection(url: Url, key: string, values: seq<string>) returns (r: Url)
    requires key != "page"
    ensures ReadPage(r) == Some(1)
    ensures forall k :: k != key && k != "page" ==> Untouched(url, r, k)
    ensures (forall i :: 0 <= i < |values| ==> CodecSafe(values[i])) ==> ReadList(r, key) == values
  {
    var ps := [(key, List(values)), ("page", Number(1))];
    r := UpdateUrlParams(url, ps);
    forall k | k != key && k != "page" ensures Untouched(url, r, k) {
      assert !Mentions(ps, k);
    }
    assert Applied(r, ps[0].0, ps[0].1) && Applied(r, ps[1].0, ps[1].1);
    PageReadsBack(r, 1);
    if forall i :: 0 <= i < |values| ==> CodecSafe(values[i]) {
      ListReadsBack(r, key, values);
    }
  }

  /** Toggling keeps a selection of codec-safe values codec-safe. */
  lemma ToggledIsSafe(values: seq<string>, checked: bool, value: string)
    requires forall i :: 0 <= i < |values| ==> CodecSafe(values[i])
    requires checked ==> CodecSafe(value)
    ensures forall i :: 0 <= i < |Toggled(values, checked, value)| ==> CodecSafe(Toggled(values, checked, value)[i])
  {
    var r := Toggled(values, checked, value);
    forall i | 0 <= i < |r| ensures CodecSafe(r[i]) {
      if checked {
        if i < |values| { assert r[i] == values[i]; }
      } else {
        var j :| 0 <= j < |values| && values[j] == r[i];
      }
    }
  }

  /** Unchecking removes every occurrence of the value and keeps the other values, in order. */
  lemma UncheckRemovesValue(values: seq<string>, value: string)
    ensures value !in Toggled(values, false, value)
    ensures IsSubsequence(Toggled(values, false, value), values)
    ensures forall x :: x in values && x != value ==> x in Toggled(values, false, value)
  {
    var r := Toggled(values, false, value);
    FilterIsSubsequence(Other(value), values);
    forall x | x in values && x != value ensures x in r {
      var i :| 0 <= i < |values| && values[i] == x;
    }
  }

  /** `handleCategoryChange`: the category list is updated and `page` is reset to 1. */
  method HandleCategoryChange(url: Url, checked: bool, value: string) returns (r: Url)
    ensures ReadPage(r) == Some(1)
    ensures forall k :: k != "category" && k != "page" ==> Untouched(url, r, k)
    ensures AllSingleSpaced(ReadList(url, "category")) && (checked ==> CodecSafe(value)) ==>
              ReadList(r, "category") == Toggled(ReadList(url, "category"), checked, value)
  {
    var categories := ReadList(url, "category");
    var newCategories := Toggled(categories, checked, value);
    r := UpdateSelection(url, "category", newCategories);
    if AllSingleSpaced(categories) && (checked ==> CodecSafe(value)) {
      ParsedValuesAreSafe(categories, Param(url, "category"));
      ToggledIsSafe(categories, checked, value);
    }
  }

  /** `handleManufacturerChange`: the manufacturer list is updated and `page` is reset to 1. */
  method HandleManufacturerChange(url: Url, checked: bool, value: string) returns (r: Url)
    ensures ReadPage(r) == Some(1)
    ensures forall k :: k != "manufacturer" && k != "page" ==> Untouched(url, r, k)
    ensures AllSingleSpaced(ReadList(url, "manufacturer")) && (checked ==> CodecSafe(value)) ==>
              ReadList(r, "manufacturer") == Toggled(ReadList(url, "manufacturer"), checked, value)
  {
    var manufacturers := ReadList(url, "manufacturer");
    var newManufacturers := Toggled(manufacturers, checked, value);
    r := UpdateSelection(url, "manufacturer", newManufacturers);
    if AllSingleSpaced(manufacturers) && (checked ==> CodecSafe(value)) {
      ParsedValuesAreSafe(manufacturers, Param(url, "manufacturer"));
      ToggledIsSafe(manufacturers, checked, value);
    }
  }

  /** The new tag selection: a checked tag is added as to a set (`[...new Set([...tags, value])]`),
      an unchecked one has every occurrence removed. */
  function ToggledTags(tags: seq<string>, checked: bool, value: string): seq<string> {
    if checked then Dedupe(tags + [value]) else Filter(Other(value), tags)
  }

  /** Checking a tag leaves each tag selected once, the checked one among them. */
  lemma CheckedTagsAreASet(tags: seq<string>, value: string)
    ensures Distinct(ToggledTags(tags, true, value))
    ensures forall t :: t in ToggledTags(tags, true, value) <==> t in tags || t == value
    ensures Distinct(tags) ==> ToggledTags(tags, true, value) == if value in tags then tags else tags + [value]
  {
    var r := ToggledTags(tags, true, value);
    var s := tags + [value];
    forall t ensures t in r <==> t in tags || t == value {
      if t in r {
        var i :| 0 <= i < |r| && r[i] == t;
      }
      if t in s {
        var i :| 0 <= i < |s| && s[i] == t;
      }
    }
    if Distinct(tags) {
      DedupeSnoc(tags, value);
      DedupeDistinct(tags);
    }
  }

  lemma ToggledTagsIsSafe(tags: seq<string>, checked: bool, value: string)
    requires forall i :: 0 <= i < |tags| ==> CodecSafe(tags[i])
    requires checked ==> CodecSafe(value)
    ensures forall i :: 0 <= i < |ToggledTags(tags, checked, value)| ==> CodecSafe(ToggledTags(tags, checked, value)[i])
  {
    var r := ToggledTags(tags, checked, value);
    forall i | 0 <= i < |r| ensures CodecSafe(r[i]) {
      if checked {
        assert r[i] in tags + [value];
        var j :| 0 <= j < |tags + [value]| && (tags + [value])[j] == r[i];
        if j < |tags| { assert r[i] == tags[j]; }
      } else {
        var j :| 0 <= j < |tags| && tags[j] == r[i];
      }
    }
  }

  /** `handleTagChange`: the tag list is updated and `page` is reset to 1. */
  method HandleTagChange(url: Url, checked: bool, value: string) returns (r: Url)
    ensures ReadPage(r) == Some(1)
    ensures forall k :: k != "tags" && k != "page" ==> Untouched(url, r, k)
    ensures AllSingleSpaced(ReadList(url, "tags")) && (checked ==> CodecSafe(value)) ==>
              ReadList(r, "tags") == ToggledTags(ReadList(url, "tags"), checked, value)
  {
    var tags := ReadList(url, "tags");
    var newTags := ToggledTags(tags, checked, value);
    r := UpdateSelection(url, "tags", newTags);
    if AllSingleSpaced(tags) && (checked ==> CodecSafe(value)) {
      ParsedValuesAreSafe(tags, Param(url, "tags"));
      ToggledTagsIsSafe(tags, checked, value);
    }
  }

  /** An absent parameter reads as no query or as an empty selection. */
  lemma AbsentReadsEmpty(url: Url, key: string)
    requires key !in url
    ensures Normalize(Param(url, key)) == [] && ParseList(Param(url, key)) == []
  {
    assert Normalize("") == "";
    assert ParseList("") == [] by {
      ParseEncodeList([]);
    }
  }

  /** With no query, no category and no tag in the URL, a filter is active exactly when a
      manufacturer is selected. */
  lemma ActiveAfterClearing(url: Url)
    requires "q" !in url && "category" !in url && "tags" !in url
    ensures FiltersActive(StateFromUrl(url)) <==> ReadList(url, "manufacturer") != []
  {
    AbsentReadsEmpty(url, "q");
    AbsentReadsEmpty(url, "category");
    AbsentReadsEmpty(url, "tags");
  }

  /** The entries `handleClearFilters` passes: `q`, `category` and `tags` cleared, page 1. */
  function ClearParams(): seq<(string, ParamValue)> {
    [("q", Null), ("category", Null), ("tags", Null), ("page", Number(1))]
  }

  /** `handleClearFilters` as written: the manufacturer selection is kept. */
  method HandleClearFilters(url: Url) returns (r: Url)
    ensures "q" !in r && "category" !in r && "tags" !in r
    ensures ReadPage(r) == Some(1)
    ensures forall k :: k != "q" && k != "category" && k != "tags" && k != "page" ==> Untouched(url, r, k)
    ensures ReadList(r, "manufacturer") == ReadList(url, "manufacturer")
  {
    var ps := ClearParams();
    r := UpdateUrlParams(url, ps);
    forall k | k != "q" && k != "category" && k != "tags" && k != "page" ensures Untouched(url, r, k) {
      assert !Mentions(ps, k);
    }
    assert Applied(r, ps[0].0, ps[0].1) && Applied(r, ps[1].0, ps[1].1) && Applied(r, ps[2].0, ps[2].1);
    assert Untouched(url, r, "manufacturer");
    assert Applied(r, ps[3].0, ps[3].1);
    PageReadsBack(r, 1);
  }

  /** After clearing, a URL that selected a manufacturer still has an active filter. */
  lemma ClearFiltersLeavesManufacturer()
    ensures FiltersActive(StateFromUrl(ApplyParams(map["manufacturer" := "Intel"], ClearParams())))
  {
    var url := map["manufacturer" := "Intel"];
    var ps := ClearParams();
    ApplyParamsEffect(url, ps);
    var r := ApplyParams(url, ps);
    assert !Mentions(ps, "manufacturer");
    assert Untouched(url, r, "manufacturer");
    assert Param(r, "manufacturer") == "Intel";
    Delimited.SplitWithout("Intel", '_');
    assert Delimited.Parse("Intel", '_') == ["Intel"];
    assert ParseList("Intel") != [];
  }

  /** The entries of a clear-filters action that clears every filter the button looks at. */
  function ClearAllParams(): seq<(string, ParamValue)> {
    [("q", Null), ("category", Null), ("manufacturer", Null), ("tags", Null), ("page", Number(1))]
  }

  /** Clear filters as evidently intended: afterwards no filter is active. */
  method HandleClearAllFilters(url: Url) returns (r: Url)
    ensures !FiltersActive(StateFromUrl(r))
    ensures ReadPage(r) == Some(1)
    ensures forall k :: k != "q" && k != "category" && k != "manufacturer" && k != "tags" && k != "page" ==>
              Untouched(url, r, k)
  {
    var ps := ClearAllParams();
    r := UpdateUrlParams(url, ps);
    forall k | k != "q" && k != "category" && k != "manufacturer" && k != "tags" && k != "page"
      ensures Untouched(url, r, k)
    {
      assert !Mentions(ps, k);
    }
    assert Applied(r, ps[0].0, ps[0].1) && Applied(r, ps[1].0, ps[1].1);
    assert Applied(r, ps[2].0, ps[2].1) && Applied(r, ps[3].0, ps[3].1);
    assert Applied(r, ps[4].0, ps[4].1);
    PageReadsBack(r, 1);
    ActiveAfterClearing(r);
    AbsentReadsEmpty(r, "manufacturer");
  }
}
