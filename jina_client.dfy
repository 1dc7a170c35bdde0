/**
 * The requests the three tools send to the remote Jina endpoints, and the
 * shapes of the replies the tool handlers hand back. The network calls
 * themselves are not modelled: what is modelled is the pure construction of
 * headers, URLs and bodies, and the truncated raw text kept when a reply
 * cannot be parsed.
 */
module JinaClient {
  import opened Options
  import opened Strings

  /** Validated arguments of `read_webpage`; an absent flag is `false`. */
  datatype ReadWebPageArgs = ReadWebPageArgs(
    url: string,
    format: Option<string>,
    withLinks: bool,
    withImages: bool,
    withGeneratedAlt: bool,
    noCache: bool)

  /** Validated arguments of `search_web`. */
  datatype SearchWebArgs = SearchWebArgs(query: string, count: int)

  /** Validated arguments of `fact_check`. */
  datatype GroundingArgs = GroundingArgs(statement: string, deepdive: bool)

  /** The JSON body POSTed to the reader endpoint: `{url, options}`. */
  datatype ReaderBody = ReaderBody(url: string, options: string)

  /**
   * What a reader or grounding handler returns: the remote response after
   * its schema check (kept opaque as `D`), or an error object
   * `{status: "error", error, rawResponse?}`.
   */
  datatype Reply<D> = Document(doc: D) | ErrorReply(error: string, rawResponse: Option<string>)

  /** What the search handler returns: the raw result text, or `{status: "error", error}`. */
  datatype SearchReply = Results(text: string) | SearchFailed(error: string)

  /**
   * The reader request is POSTed to this fixed URL; the page to read travels
   * in the body (`ReaderBody`), not in the path as for the other two.
   */
  const ReaderEndpoint: string := "https://r.jina.ai/"

  const SearchEndpoint: string := "https://s.jina.ai/"
  const GroundingEndpoint: string := "https://g.jina.ai/"

  const DeepdiveQuery: string := "?deepdive=true"

  /** The number of characters of an unparsable reply that are kept for debugging. */
  const RawResponseLimit: nat := 500

  /** The message of the error object built when a reply is not valid JSON or fails its schema. */
  const UnparsableMessage: string := "\U{65E0}\U{6CD5}\U{89E3}\U{6790} API \U{54CD}\U{5E94}"

  const ReaderHeaderNames: set<string> := {
    "Authorization", "Content-Type", "Accept",
    "X-With-Links-Summary", "X-With-Images-Summary", "X-With-Generated-Alt", "X-No-Cache"
  }

  /**
   * The reader request's headers: the three fixed ones, then one `X-...: true`
   * header for each flag that is set.
   */
  method ReaderHeaders(apiKey: string, p: ReadWebPageArgs) returns (headers: map<string, string>)
    ensures headers.Keys <= ReaderHeaderNames
    ensures "Authorization" in headers && headers["Authorization"] == "Bearer " + apiKey
    ensures "Content-Type" in headers && headers["Content-Type"] == "application/json"
    ensures "Accept" in headers && headers["Accept"] == "application/json"
    ensures ("X-With-Links-Summary" in headers) == p.withLinks
    ensures ("X-With-Images-Summary" in headers) == p.withImages
    ensures ("X-With-Generated-Alt" in headers) == p.withGeneratedAlt
    ensures ("X-No-Cache" in headers) == p.noCache
    ensures forall h :: h in headers && h !in {"Authorization", "Content-Type", "Accept"} ==> headers[h] == "true"
  {
    headers := map[
      "Authorization" := "Bearer " + apiKey,
      "Content-Type" := "application/json",
      "Accept" := "application/json"
    ];
    if p.withLinks { headers := headers["X-With-Links-Summary" := "true"]; }
    if p.withImages { headers := headers["X-With-Images-Summary" := "true"]; }
    if p.withGeneratedAlt { headers := headers["X-With-Generated-Alt" := "true"]; }
    if p.noCache { headers := headers["X-No-Cache" := "true"]; }
  }

  /** The reader request's body; an absent or empty format selects `Default`. */
  function ReaderRequestBody(p: ReadWebPageArgs): (b: ReaderBody)
    ensures b.url == p.url
    ensures b.options != ""
    ensures p.format.Some? && p.format.value != "" ==> b.options == p.format.value
    ensures p.format.None? || p.format.value == "" ==> b.options == "Default"
  {
    ReaderBody(p.url, if p.format.Some? && p.format.value != "" then p.format.value else "Default")
  }

  /** The search request's headers: the credential, and a request for results without page content. */
  function SearchHeaders(apiKey: string): (headers: map<string, string>)
    ensures headers.Keys == {"Authorization", "X-Respond-With"}
    ensures headers["Authorization"] == "Bearer " + apiKey
    ensures headers["X-Respond-With"] == "no-content"
  {
    map["Authorization" := "Bearer " + apiKey, "X-Respond-With" := "no-content"]
  }

  /** The grounding request's headers: the credential and a JSON `Accept`. */
  function GroundingHeaders(apiKey: string): (headers: map<string, string>)
    ensures headers.Keys == {"Authorization", "Accept"}
    ensures headers["Authorization"] == "Bearer " + apiKey
    ensures headers["Accept"] == "application/json"
  {
    map["Authorization" := "Bearer " + apiKey, "Accept" := "application/json"]
  }

  /**
   * The search URL: the encoded query as the path, then the count.
   * `encode` stands for `encodeURIComponent`.
   */
  function SearchUrl(encode: string -> string, p: SearchWebArgs): (url: string)
    ensures |url| > |SearchEndpoint + encode(p.query)|
    ensures url[..|SearchEndpoint + encode(p.query)|] == SearchEndpoint + encode(p.query)
    ensures url[|SearchEndpoint + encode(p.query)|] == '?'
  {
    SearchEndpoint + encode(p.query) + "?count=" + IntToDecimal(p.count)
  }

  /** The grounding URL: the encoded statement as the path, then the deep-dive flag when set. */
  function GroundingUrl(encode: string -> string, p: GroundingArgs): (url: string)
    ensures |url| >= |GroundingEndpoint + encode(p.statement)|
    ensures url[..|GroundingEndpoint + encode(p.statement)|] == GroundingEndpoint + encode(p.statement)
    ensures p.deepdive <==> |url| > |GroundingEndpoint + encode(p.statement)|
    ensures p.deepdive ==> url[|GroundingEndpoint + encode(p.statement)|] == '?'
  {
    GroundingEndpoint + encode(p.statement) + (if p.deepdive then DeepdiveQuery else "")
  }

  /**
   * The search URL's query string is `count=` and the numeral of the count,
   * whenever the encoded query holds no `?` (as `encodeURIComponent`
   * guarantees); the count is read back from that numeral, and the URL is
   * exactly the path, the `?` and that query string.
   */
  lemma SearchUrlQuery(encode: string -> string, p: SearchWebArgs)
    requires '?' !in encode(p.query)
    ensures QueryOf(SearchUrl(encode, p)) == Some("count=" + IntToDecimal(p.count))
    ensures p.count >= 0 ==> DecimalValue(QueryOf(SearchUrl(encode, p)).value[6..]) == p.count
    ensures QueryOf(SearchUrl(encode, p)).Some?
         && SearchUrl(encode, p) == SearchEndpoint + encode(p.query) + "?" + QueryOf(SearchUrl(encode, p)).value
  {
    var path := SearchEndpoint + encode(p.query);
    assert SearchUrl(encode, p) == path + "?" + ("count=" + IntToDecimal(p.count));
    QueryOfAfterMark(path, "count=" + IntToDecimal(p.count));
    if p.count >= 0 {
      assert ("count=" + IntToDecimal(p.count))[6..] == NatToDecimal(p.count);
      DecimalRoundTrip(p.count);
    }
  }

  /**
   * The grounding URL carries a query string exactly when `deepdive` is set,
   * and that query is `deepdive=true`, whenever the encoded statement holds
   * no `?`. Without that assumption the URL still ends in `?deepdive=true`
   * exactly when `deepdive` is set, and is otherwise the bare path.
   */
  lemma GroundingUrlQuery(encode: string -> string, p: GroundingArgs)
    ensures p.deepdive ==> GroundingUrl(encode, p)[|GroundingUrl(encode, p)| - |DeepdiveQuery|..] == DeepdiveQuery
    ensures !p.deepdive ==> GroundingUrl(encode, p) == GroundingEndpoint + encode(p.statement)
    ensures '?' !in encode(p.statement) ==>
      QueryOf(GroundingUrl(encode, p)) == if p.deepdive then Some("deepdive=true") else None
    ensures '?' !in encode(p.statement) && p.deepdive ==>
      QueryOf(GroundingUrl(encode, p)).Some?
      && GroundingUrl(encode, p) == GroundingEndpoint + encode(p.statement) + "?" + QueryOf(GroundingUrl(encode, p)).value
  {
    var path := GroundingEndpoint + encode(p.statement);
    if '?' !in encode(p.statement) {
      if p.deepdive {
        assert GroundingUrl(encode, p) == path + "?" + "deepdive=true";
        QueryOfAfterMark(path, "deepdive=true");
      } else {
        QueryOfNoMark(path);
      }
    }
  }

  /** `text.substring(0, 500)`: the longest prefix of `text` of at most 500 characters. */
  function RawResponse(text: string): (r: string)
    ensures r <= text
    ensures |r| == if |text| < RawResponseLimit then |text| else RawResponseLimit
  {
    if |text| <= RawResponseLimit then text else text[..RawResponseLimit]
  }

  /** The error object a reader or grounding handler returns when the reply text cannot be parsed. */
  function UnparsableReply<D>(text: string): (r: Reply<D>)
    ensures r.ErrorReply? && r.error == UnparsableMessage
    ensures r.rawResponse == Some(RawResponse(text))
    ensures r.rawResponse.Some? && r.rawResponse.value <= text
    ensures |r.rawResponse.value| <= RawResponseLimit
    ensures |text| <= RawResponseLimit ==> r.rawResponse.value == text
  {
    ErrorReply(UnparsableMessage, Some(RawResponse(text)))
  }
}
