/** The older filter panel (scripts/filters.js): selections travel in the URL as
    `,`-joined lists without any value encoding, checking always appends, and the
    page number is never touched. */
module LegacyFilters {
  import opened Seqs
  import opened Delimited
  import opened Urls
  import opened Search

  /** `getFiltersFromURL`. */
  datatype LegacyState = LegacyState(categories: seq<string>, tags: seq<string>)

  /** A selection as `getFiltersFromURL` reads it: `(get(key) || '').split(',').filter(Boolean)`. */
  function ReadCommaList(url: Url, key: string): (r: seq<string>)
    ensures forall i :: 0 <= i < |r| ==> r[i] != [] && ',' !in r[i]
  {
    Parse(Param(url, key), ',')
  }

  function FiltersFromUrl(url: Url): LegacyState {
    LegacyState(ReadCommaList(url, "category"), ReadCommaList(url, "tags"))
  }

  /** `updateURL`: an empty value deletes the key, any other value is stored as it is. */
  method UpdateUrl(url: Url, key: string, value: string) returns (r: Url)
    ensures value == [] ==> key !in r
    ensures value != [] ==> key in r && r[key] == value
    ensures forall k :: k != key ==> Untouched(url, r, k)
  {
    r := url;
    if value == [] {
      r := r - {key};
    } else {
      r := r[key := value];
    }
  }

  /** A value the `,` list carries unchanged. */
  predicate CommaSafe(v: string) {
    v != [] && ',' !in v
  }

  /** Joining with `,` and reading back recovers the list. */
  lemma CommaListReadsBack(url: Url, key: string, values: seq<string>)
    requires forall i :: 0 <= i < |values| ==> CommaSafe(values[i])
    requires Join(values, ',') == [] ==> key !in url
    requires Join(values, ',') != [] ==> key in url && url[key] == Join(values, ',')
    ensures ReadCommaList(url, key) == values
  {
    ParseJoin(values, ',');
  }

  /** The toggled selection of comma-safe values is comma-safe when the new value is. */
  lemma ToggledIsCommaSafe(values: seq<string>, checked: bool, value: string)
    requires forall i :: 0 <= i < |values| ==> CommaSafe(values[i])
    requires checked ==> CommaSafe(value)
    ensures forall i :: 0 <= i < |Toggled(values, checked, value)| ==> CommaSafe(Toggled(values, checked, value)[i])
  {
    var r := Toggled(values, checked, value);
    forall i | 0 <= i < |r| ensures CommaSafe(r[i]) {
      if checked {
        if i < |values| { assert r[i] == values[i]; }
      } else {
        var j :| 0 <= j < |values| && values[j] == r[i];
      }
    }
  }

  /** `handleCategoryChange`: the new list is joined with `,` and written; nothing else,
      not even `page`, changes. */
  method HandleCategoryChange(url: Url, checked: bool, value: string) returns (r: Url)
    ensures forall k :: k != "category" ==> Untouched(url, r, k)
    ensures (checked ==> CommaSafe(value)) ==>
              FiltersFromUrl(r).categories == Toggled(FiltersFromUrl(url).categories, checked, value)
  {
    var categories := FiltersFromUrl(url).categories;
    var newCategories := Toggled(categories, checked, value);
    r := UpdateUrl(url, "category", Join(newCategories, ','));
    if checked ==> CommaSafe(value) {
      ToggledIsCommaSafe(categories, checked, value);
      CommaListReadsBack(r, "category", newCategories);
    }
  }

  /** `handleTagChange`: as for categories, with the `tags` key. */
  method HandleTagChange(url: Url, checked: bool, value: string) returns (r: Url)
    ensures forall k :: k != "tags" ==> Untouched(url, r, k)
    ensures (checked ==> CommaSafe(value)) ==>
              FiltersFromUrl(r).tags == Toggled(FiltersFromUrl(url).tags, checked, value)
  {
    var tags := FiltersFromUrl(url).tags;
    var newTags := Toggled(tags, checked, value);
    r := UpdateUrl(url, "tags", Join(newTags, ','));
    if checked ==> CommaSafe(value) {
      ToggledIsCommaSafe(tags, checked, value);
      CommaListReadsBack(r, "tags", newTags);
    }
  }

  /** Checking a value that is already selected selects it twice here, while the search
      page's tag filter keeps it once. */
  lemma CheckingKeepsDuplicates()
    ensures Toggled(["ssd"], true, "ssd") == ["ssd", "ssd"]
    ensures ToggledTags(["ssd"], true, "ssd") == ["ssd"]
  {
    CheckedTagsAreASet(["ssd"], "ssd");
  }
}
