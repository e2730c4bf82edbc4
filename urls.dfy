/** URLs that the monitor never records and never watches. */
module Urls {

  predicate StartsWith(s: string, prefix: string)
  {
    |prefix| <= |s| && s[..|prefix|] == prefix
  }

  /** A missing or empty URL, or one of the browser's own pages (`chrome://…`, `about:…`).
      The empty string stands for every falsy JavaScript value of `tab.url`. */
  predicate IsRestricted(url: string)
  {
    url == "" || StartsWith(url, "chrome://") || StartsWith(url, "about:")
  }
}
