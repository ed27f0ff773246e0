/**
 * The response records, in their two forms: views, whose text borrows from
 * the raw response body, and owned records, which hold their own copies.
 * In this model text is a value in both forms, so a view and its owned
 * record differ only in type; the conversions are the deep copies
 * `From<&...View>` performs.
 */
module Records {
  import opened Wrappers
  import opened Ints

  /** The kinds of query token the server reports. */
  datatype QueryTokenKind =
    | Term | Star | Starstar
    | StarAdj | StarAdp | StarAdv | StarConj | StarDet | StarNoun
    | StarNum | StarPron | StarPrt | StarVerb
    | SentenceStart | SentenceEnd | Slash | Prefix | TermGroup

  /** The kinds of n-gram token the server reports. */
  datatype NgramTokenKind =
    | Term
    | TaggedAsAdj | TaggedAsAdp | TaggedAsAdv | TaggedAsConj | TaggedAsDet
    | TaggedAsNoun | TaggedAsNum | TaggedAsPron | TaggedAsPrt | TaggedAsVerb
    | SentenceStart | SentenceEnd

  /** An `f64`, kept as its bit pattern and copied verbatim. */
  datatype F64 = F64(bits: bv64)

  datatype QueryTokenView = QueryTokenView(kind: QueryTokenKind, text: string)
  datatype QueryToken = QueryToken(kind: QueryTokenKind, text: string)

  datatype NgramTokenView = NgramTokenView(kind: NgramTokenKind, text: string, inserted: bool, completed: bool)
  datatype NgramToken = NgramToken(kind: NgramTokenKind, text: string, inserted: bool, completed: bool)

  datatype NgramLiteView = NgramLiteView(
    id: string,
    absTotalMatchCount: U64,
    relTotalMatchCount: F64,
    tokens: seq<NgramTokenView>,
    isAbstract: bool)
  datatype NgramLite = NgramLite(
    id: string,
    absTotalMatchCount: U64,
    relTotalMatchCount: F64,
    tokens: seq<NgramToken>,
    isAbstract: bool)

  /** One page of search results. */
  datatype PageView = PageView(queryTokens: seq<QueryTokenView>, ngrams: seq<NgramLiteView>)
  datatype Page = Page(queryTokens: seq<QueryToken>, ngrams: seq<NgramLite>)

  /** The full record `get_ngram` returns. */
  datatype NgramStat = NgramStat(year: U16, absMatchCount: U64, relMatchCount: F64)
  datatype Ngram = Ngram(
    id: string,
    absTotalMatchCount: U64,
    relTotalMatchCount: F64,
    tokens: seq<NgramToken>,
    stats: seq<NgramStat>)

  // ---------------------------------------------------------------------
  // View -> owned conversions
  // ---------------------------------------------------------------------

  /** `QueryToken::from(&QueryTokenView)`. */
  function ToQueryToken(v: QueryTokenView): (t: QueryToken)
    ensures t.kind == v.kind && t.text == v.text
  {
    QueryToken(v.kind, v.text)
  }

  /** `iter().map(QueryToken::from).collect()`. */
  function ToQueryTokens(vs: seq<QueryTokenView>): (ts: seq<QueryToken>)
    ensures |ts| == |vs|
    ensures forall i :: 0 <= i < |vs| ==> ts[i].kind == vs[i].kind && ts[i].text == vs[i].text
  {
    if vs == [] then [] else [ToQueryToken(vs[0])] + ToQueryTokens(vs[1..])
  }

  /** `NgramToken::from(&NgramTokenView)`. */
  function ToNgramToken(v: NgramTokenView): (t: NgramToken)
    ensures t.kind == v.kind && t.text == v.text
    ensures t.inserted == v.inserted && t.completed == v.completed
  {
    NgramToken(v.kind, v.text, v.inserted, v.completed)
  }

  function ToNgramTokens(vs: seq<NgramTokenView>): (ts: seq<NgramToken>)
    ensures |ts| == |vs|
    ensures forall i :: 0 <= i < |vs| ==> ts[i] == ToNgramToken(vs[i])
  {
    if vs == [] then [] else [ToNgramToken(vs[0])] + ToNgramTokens(vs[1..])
  }

  /** `NgramLite::from(&NgramLiteView)`. */
  function ToNgramLite(v: NgramLiteView): (n: NgramLite)
    ensures n.id == v.id && n.isAbstract == v.isAbstract
    ensures n.absTotalMatchCount == v.absTotalMatchCount
    ensures n.relTotalMatchCount == v.relTotalMatchCount
    ensures |n.tokens| == |v.tokens|
    ensures forall i :: 0 <= i < |v.tokens| ==> n.tokens[i] == ToNgramToken(v.tokens[i])
  {
    NgramLite(v.id, v.absTotalMatchCount, v.relTotalMatchCount, ToNgramTokens(v.tokens), v.isAbstract)
  }

  function ToNgramLites(vs: seq<NgramLiteView>): (ns: seq<NgramLite>)
    ensures |ns| == |vs|
    ensures forall i :: 0 <= i < |vs| ==> ns[i] == ToNgramLite(vs[i])
  {
    if vs == [] then [] else [ToNgramLite(vs[0])] + ToNgramLites(vs[1..])
  }

  /** `Page::from(&PageView)` (`PageView::to_page`). */
  function ToPage(v: PageView): (p: Page)
    ensures |p.queryTokens| == |v.queryTokens| && |p.ngrams| == |v.ngrams|
    ensures forall i :: 0 <= i < |v.queryTokens| ==> p.queryTokens[i] == ToQueryToken(v.queryTokens[i])
    ensures forall i :: 0 <= i < |v.ngrams| ==> p.ngrams[i] == ToNgramLite(v.ngrams[i])
  {
    Page(ToQueryTokens(v.queryTokens), ToNgramLites(v.ngrams))
  }

  // ---------------------------------------------------------------------
  // Owned -> view, the reverse reading used to show the copy is lossless
  // ---------------------------------------------------------------------

  function ViewOfQueryToken(t: QueryToken): QueryTokenView {
    QueryTokenView(t.kind, t.text)
  }

  function ViewOfNgramToken(t: NgramToken): NgramTokenView {
    NgramTokenView(t.kind, t.text, t.inserted, t.completed)
  }

  function ViewOfNgramLite(n: NgramLite): NgramLiteView {
    NgramLiteView(n.id, n.absTotalMatchCount, n.relTotalMatchCount,
                  seq(|n.tokens|, i requires 0 <= i < |n.tokens| => ViewOfNgramToken(n.tokens[i])),
                  n.isAbstract)
  }

  function ViewOfPage(p: Page): PageView {
    PageView(seq(|p.queryTokens|, i requires 0 <= i < |p.queryTokens| => ViewOfQueryToken(p.queryTokens[i])),
             seq(|p.ngrams|, i requires 0 <= i < |p.ngrams| => ViewOfNgramLite(p.ngrams[i])))
  }

  /** Converting a view to an owned page and reading it back as a view gives the same view. */
  lemma PageRoundTrip(v: PageView)
    ensures ViewOfPage(ToPage(v)) == v
  {
    var w := ViewOfPage(ToPage(v));
    assert w.queryTokens == v.queryTokens;
    forall i | 0 <= i < |v.ngrams| ensures w.ngrams[i] == v.ngrams[i] {
      assert w.ngrams[i].tokens == v.ngrams[i].tokens;
    }
  }

  /** Every owned page is the copy of some view, namely its own reading as a view. */
  lemma PageOfView(p: Page)
    ensures ToPage(ViewOfPage(p)) == p
  {
    var q := ToPage(ViewOfPage(p));
    assert q.queryTokens == p.queryTokens;
    forall i | 0 <= i < |p.ngrams| ensures q.ngrams[i] == p.ngrams[i] {
      assert q.ngrams[i].tokens == p.ngrams[i].tokens;
    }
  }

  /** Hence two views convert to the same owned page only if they are equal. */
  lemma ToPageInjective(v1: PageView, v2: PageView)
    ensures ToPage(v1) == ToPage(v2) ==> v1 == v2
  {
    PageRoundTrip(v1);
    PageRoundTrip(v2);
  }

  // ---------------------------------------------------------------------
  // `#[serde(default)]`: absent boolean fields read as false
  // ---------------------------------------------------------------------

  /** An n-gram token as it appears in a response, optional fields still optional. */
  datatype NgramTokenJson = NgramTokenJson(
    kind: NgramTokenKind, text: string, inserted: Option<bool>, completed: Option<bool>)

  datatype NgramLiteJson = NgramLiteJson(
    id: string,
    absTotalMatchCount: U64,
    relTotalMatchCount: F64,
    tokens: seq<NgramTokenJson>,
    isAbstract: Option<bool>)

  function OrFalse(b: Option<bool>): (r: bool)
    ensures r <==> b == Some(true)
  {
    match b
    case None => false
    case Some(x) => x
  }

  /** Decoding into a view: an absent `inserted` or `completed` reads as false. */
  function DecodeNgramTokenView(j: NgramTokenJson): (v: NgramTokenView)
    ensures v.kind == j.kind && v.text == j.text
    ensures v.inserted <==> j.inserted == Some(true)
    ensures v.completed <==> j.completed == Some(true)
  {
    NgramTokenView(j.kind, j.text, OrFalse(j.inserted), OrFalse(j.completed))
  }

  /** Decoding the same record straight into an owned token, with the same defaults. */
  function DecodeNgramToken(j: NgramTokenJson): (t: NgramToken)
    ensures t.kind == j.kind && t.text == j.text
    ensures t.inserted <==> j.inserted == Some(true)
    ensures t.completed <==> j.completed == Some(true)
  {
    NgramToken(j.kind, j.text, OrFalse(j.inserted), OrFalse(j.completed))
  }

  /** Decoding into a view: an absent `abstract` reads as false. */
  function DecodeNgramLiteView(j: NgramLiteJson): (v: NgramLiteView)
    ensures v.id == j.id && v.absTotalMatchCount == j.absTotalMatchCount
    ensures v.relTotalMatchCount == j.relTotalMatchCount
    ensures v.isAbstract <==> j.isAbstract == Some(true)
    ensures |v.tokens| == |j.tokens|
    ensures forall i :: 0 <= i < |j.tokens| ==> v.tokens[i] == DecodeNgramTokenView(j.tokens[i])
  {
    NgramLiteView(j.id, j.absTotalMatchCount, j.relTotalMatchCount,
                  seq(|j.tokens|, i requires 0 <= i < |j.tokens| => DecodeNgramTokenView(j.tokens[i])),
                  OrFalse(j.isAbstract))
  }

  function DecodeNgramLite(j: NgramLiteJson): (n: NgramLite)
    ensures n.isAbstract <==> j.isAbstract == Some(true)
    ensures |n.tokens| == |j.tokens|
  {
    NgramLite(j.id, j.absTotalMatchCount, j.relTotalMatchCount,
              seq(|j.tokens|, i requires 0 <= i < |j.tokens| => DecodeNgramToken(j.tokens[i])),
              OrFalse(j.isAbstract))
  }

  /** Decoding into a view and copying it out equals decoding straight into owned form. */
  lemma DecodeThenConvert(j: NgramLiteJson)
    ensures ToNgramLite(DecodeNgramLiteView(j)) == DecodeNgramLite(j)
  {
    var a := ToNgramLite(DecodeNgramLiteView(j));
    var b := DecodeNgramLite(j);
    assert a.tokens == b.tokens;
  }
}
