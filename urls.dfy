/** A page URL's query string, as the storefront reads and writes it through
    `URLSearchParams`: each parameter name with its value. Percent-escaping is
    the browser's business and is not modelled. */
module Urls {

  type Url = map<string, string>

  /** `urlParams.get(key) || ''`: a missing parameter reads as the empty string. */
  function Param(url: Url, key: string): string {
    if key in url then url[key] else ""
  }

  /** `key` is present in `after` exactly when it was in `before`, with the same value. */
  ghost predicate Untouched(before: Url, after: Url, key: string) {
    (key in after <==> key in before) && (key in before ==> after[key] == before[key])
  }
}
