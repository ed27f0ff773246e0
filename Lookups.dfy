/**
 * The single-shot endpoints of `Client`: fetch an n-gram by id, the corpus
 * information and the total counts. Each issues one GET and maps the
 * response status: 200 to the decoded body, 404 (n-gram lookup only) to
 * "not found", anything else to an unexpected-status error.
 */
module Lookups {
  import opened Wrappers
  import opened Ints
  import opened Endpoint
  import opened Records
  import opened Errors
  import TotalCounts

  datatype CorpusStat = CorpusStat(
    numNgrams: U64,
    minYear: U16,
    maxYear: U16,
    minMatchCount: U32,
    maxMatchCount: U32,
    minTotalMatchCount: U64,
    maxTotalMatchCount: U64)

  datatype CorpusInfo = CorpusInfo(name: string, corpusLabel: string, stats: seq<CorpusStat>)

  /**
   * What one GET produced: a transport failure, or a status code together
   * with the outcome of decoding the body as JSON (`res.json()`, whose
   * failure is itself a `reqwest::Error`). The body is only decoded where
   * the code reads it.
   */
  datatype Response<T> =
    | SendFailed(err: TransportError)
    | Received(status: U16, body: Result<T, TransportError>)

  /** A lookup's request together with what the client makes of its response. */
  datatype Fetched<T> = Fetched(request: Request, result: Result<T, Error>)

  /**
   * `Client::get_ngram`: requests `<label>/<id>`; `?` turns every
   * `reqwest::Error` into a Connection error.
   */
  function GetNgram(corpus: Corpus, id: string, response: Response<Ngram>): (f: Fetched<Option<Ngram>>)
    ensures f.request == Request(Url(corpus, id), [])
    ensures f.result.Ok? && f.result.value.Some? <==>
      response.Received? && response.status == 200 && response.body.Ok?
    ensures f.result.Ok? && f.result.value.Some? ==> f.result.value.value == response.body.value
    ensures f.result == Ok(None) <==> response.Received? && response.status == 404
    ensures f.result.Err? ==> Kind(f.result.error) == Connection
    ensures response.Received? && response.status !in {200, 404} ==>
      f.result == Err(UnexpectedStatus(response.status))
  {
    var result :=
      match response
      case SendFailed(err) => Err(ConnectionError(err))
      case Received(status, body) =>
        if status == 200 then
          match body
          case Ok(ngram) => Ok(Some(ngram))
          case Err(err) => Err(ConnectionError(err))
        else if status == 404 then Ok(None)
        else Err(UnexpectedStatus(status));
    Fetched(Request(Url(corpus, id), []), result)
  }

  /**
   * The request and status match shared by `get_corpus_info` and
   * `get_total_counts`: one GET of `<label>/<resource>`, and only 200
   * succeeds.
   */
  function GetOk<T>(corpus: Corpus, resource: string, response: Response<T>): (f: Fetched<T>)
    ensures f.request == Request(Url(corpus, resource), [])
    ensures f.result.Ok? <==> response.Received? && response.status == 200 && response.body.Ok?
    ensures f.result.Ok? ==> f.result.value == response.body.value
    ensures f.result.Err? ==> Kind(f.result.error) == Connection
    ensures response.Received? && response.status != 200 ==>
      f.result == Err(UnexpectedStatus(response.status))
  {
    var result :=
      match response
      case SendFailed(err) => Err(ConnectionError(err))
      case Received(status, body) =>
        if status == 200 then
          match body
          case Ok(value) => Ok(value)
          case Err(err) => Err(ConnectionError(err))
        else Err(UnexpectedStatus(status));
    Fetched(Request(Url(corpus, resource), []), result)
  }

  /** `Client::get_corpus_info`, requesting `<label>/info`. */
  function GetCorpusInfo(corpus: Corpus, response: Response<CorpusInfo>): (f: Fetched<CorpusInfo>)
    ensures ParseUrl(f.request.url) == Some((corpus, "info")) && f.request.params == []
    ensures f.result.Ok? <==> response.Received? && response.status == 200 && response.body.Ok?
    ensures f.result.Ok? ==> f.result.value == response.body.value
    ensures f.result.Err? ==> Kind(f.result.error) == Connection
    ensures response.Received? && response.status != 200 ==>
      f.result == Err(UnexpectedStatus(response.status))
  {
    ParseUrlRoundTrip(corpus, "info");
    GetOk(corpus, "info", response)
  }

  /** `Client::get_total_counts`, requesting `<label>/total_counts`. */
  function GetTotalCounts(corpus: Corpus, response: Response<TotalCounts.TotalCounts>):
    (f: Fetched<TotalCounts.TotalCounts>)
    ensures ParseUrl(f.request.url) == Some((corpus, "total_counts")) && f.request.params == []
    ensures f.result.Ok? <==> response.Received? && response.status == 200 && response.body.Ok?
    ensures f.result.Ok? ==> f.result.value == response.body.value
    ensures f.result.Err? ==> Kind(f.result.error) == Connection
    ensures response.Received? && response.status != 200 ==>
      f.result == Err(UnexpectedStatus(response.status))
  {
    ParseUrlRoundTrip(corpus, "total_counts");
    GetOk(corpus, "total_counts", response)
  }

  /**
   * Unlike an n-gram lookup, a 404 from the corpus information or total
   * counts endpoints is an unexpected-status error, not an empty result.
   */
  lemma NotFoundOnlyForNgram(corpus: Corpus, id: string, e1: TransportError, e2: TransportError, e3: TransportError)
    ensures GetNgram(corpus, id, Received(404, Err(e1))).result == Ok(None)
    ensures GetCorpusInfo(corpus, Received(404, Err(e2))).result == Err(UnexpectedStatus(404))
    ensures GetTotalCounts(corpus, Received(404, Err(e3))).result == Err(UnexpectedStatus(404))
  {
  }

  /**
   * Each lookup sends one GET without query parameters to its own resource
   * of the requested corpus: the n-gram id, `info` or `total_counts`.
   */
  lemma LookupUrls(corpus: Corpus, id: string, r1: Response<Ngram>, r2: Response<CorpusInfo>,
                   r3: Response<TotalCounts.TotalCounts>)
    ensures ParseUrl(GetNgram(corpus, id, r1).request.url) == Some((corpus, id))
    ensures ParseUrl(GetCorpusInfo(corpus, r2).request.url) == Some((corpus, "info"))
    ensures ParseUrl(GetTotalCounts(corpus, r3).request.url) == Some((corpus, "total_counts"))
    ensures GetNgram(corpus, id, r1).request.params == []
  {
    ParseUrlRoundTrip(corpus, id);
  }

  /** An n-gram whose id is `info` is requested at the corpus information URL. */
  lemma NgramIdInfoCollides(corpus: Corpus, r1: Response<Ngram>, r2: Response<CorpusInfo>)
    ensures GetNgram(corpus, "info", r1).request == GetCorpusInfo(corpus, r2).request
  {
  }
}
