/**
 * The corpora the API serves and the shape of every request URL:
 * `BASE_URL/<corpus label>/<resource>`.
 */
module Endpoint {
  import opened Wrappers

  const BaseUrl: string := "https://api.ngrams.dev"

  datatype Corpus = English | German | Russian

  /** `Corpus::label`: the fixed three-letter path segment of a corpus. */
  function Label(c: Corpus): string {
    match c
    case English => "eng"
    case German => "ger"
    case Russian => "rus"
  }

  /** The corpus a path segment names, if any. */
  function CorpusOfLabel(s: string): Option<Corpus> {
    if s == "eng" then Some(English)
    else if s == "ger" then Some(German)
    else if s == "rus" then Some(Russian)
    else None
  }

  /** A GET request: its URL and its query parameters in order. */
  datatype Request = Request(url: string, params: seq<(string, string)>)

  /** The URL `internal::get` requests for a corpus and a resource. */
  function Url(corpus: Corpus, resource: string): string {
    BaseUrl + "/" + Label(corpus) + "/" + resource
  }

  /** Splits a URL of the client's shape back into corpus and resource. */
  function ParseUrl(u: string): Option<(Corpus, string)> {
    var b := |BaseUrl|;
    if |u| < b + 5 || u[..b] != BaseUrl || u[b] != '/' || u[b + 4] != '/' then None
    else match CorpusOfLabel(u[b + 1..b + 4])
      case None => None
      case Some(c) => Some((c, u[b + 5..]))
  }

  /** Labels are three letters long and name their corpus back. */
  lemma LabelRoundTrip(c: Corpus)
    ensures |Label(c)| == 3
    ensures CorpusOfLabel(Label(c)) == Some(c)
  {
  }

  /** A label is recognised only when it is the label of the corpus found. */
  lemma CorpusOfLabelSound(s: string, c: Corpus)
    ensures CorpusOfLabel(s) == Some(c) <==> s == Label(c)
  {
  }

  /** A request URL determines the corpus and the resource it was made for. */
  lemma {:induction false} ParseUrlRoundTrip(c: Corpus, resource: string)
    ensures ParseUrl(Url(c, resource)) == Some((c, resource))
  {
    var u := Url(c, resource);
    var b := |BaseUrl|;
    var l := Label(c);
    assert |l| == 3;
    assert u == BaseUrl + ("/" + l + "/" + resource);
    assert u[..b] == BaseUrl;
    assert u[b + 1..b + 4] == l;
    assert u[b + 5..] == resource;
  }

  lemma UrlInjective(c1: Corpus, r1: string, c2: Corpus, r2: string)
    ensures Url(c1, r1) == Url(c2, r2) ==> c1 == c2 && r1 == r2
  {
    ParseUrlRoundTrip(c1, r1);
    ParseUrlRoundTrip(c2, r2);
  }
}
