/** URLs as the client uses them (Go's `net/url`): a record of the parts the
    client reads or combines, with the query already decoded into a map from
    key to values. Parsing and printing are the library's and are passed in. */
module Urls {
  import opened Common

  type Query = map<string, seq<string>>

  datatype Url = Url(
    scheme: string,
    user: Option<string>,
    host: string,
    path: string,
    query: Query,
    fragment: string)

  /** `URL.IsAbs`: the URL has a scheme. */
  predicate IsAbs(u: Url)
  {
    u.scheme != ""
  }

  /** `url.Parse` (None: the parse error) and `URL.String`. */
  datatype UrlSyntax = UrlSyntax(parse: string -> Option<Url>, render: Url -> string)

  /** The syntax reads back what it prints for `u`, and prints something. */
  predicate RoundTrips(syn: UrlSyntax, u: Url)
  {
    syn.render(u) != "" && syn.parse(syn.render(u)) == Some(u)
  }

  /** `url.Parse("")` succeeds with the empty URL, which is not absolute. */
  predicate ParsesEmptyAsRelative(syn: UrlSyntax)
  {
    syn.parse("").Some? && !IsAbs(syn.parse("").value)
  }
}
