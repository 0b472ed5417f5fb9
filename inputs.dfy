/** What the audit rules receive from the network and the markup parser,
    taken as given values. */
module Inputs {

  datatype Option<T> = None | Some(value: T)

  /** The outcome of one `requests.get`: a response with its status code and
      decoded body, or a raised exception (timeout, DNS or connection failure). */
  datatype Fetch = Response(status: int, text: string) | Failed

  /** The response succeeded with HTTP 200. */
  predicate IsOk(f: Fetch)
  {
    f.Response? && f.status == 200
  }

  /** Facts about the homepage: its markup as text (`str(soup)`), the
      generator `<meta>` tag as text when there is one, the response headers
      (exact-key lookup), the JSON-LD script blocks in document order, and
      whether a `<link rel="manifest">` is present. */
  datatype PageFacts = PageFacts(
    markup: string,
    generatorTag: Option<string>,
    headers: map<string, string>,
    jsonLd: seq<string>,
    manifestLinked: bool)

  /** Outcomes of the well-known-path probes. The two identity probes have
      no local error handling, so only their status codes are modelled. */
  datatype Probes = Probes(
    robots: Fetch,
    sitemap: Fetch,
    sitemaps: Fetch,
    sitemapIndex: Fetch,
    wpSitemap: Fetch,
    aiTxt: Fetch,
    pluginStatus: int,
    webManifestStatus: int)
}
