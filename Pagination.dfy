/**
 * The pagination cursor `Pages`: it holds the query, the corpus, the
 * options (whose `maxPageCount` is the remaining page budget), the raw body
 * of the last response and the continuation token, and `next` fetches one
 * page. What the server answers is an input: `Outcome` says how the one
 * request `next` issues turned out.
 */
module Pagination {
  import opened Wrappers
  import opened Ints
  import opened Endpoint
  import opened Options
  import opened Records
  import opened Errors

  /** How the request of one `next` call turned out. */
  datatype Outcome =
    | ConnErr(err: TransportError)                    // `send()` failed
    | Status200BodyUnreadable(err: TransportError)    // 200, `res.text()` failed
    | Status200ParseFail(text: string, jsonErr: JsonError) // 200, body is not a search result
    | Status200Ok(text: string, queryTokens: seq<QueryTokenView>, ngrams: seq<NgramLiteView>,
                  nextPageToken: Option<string>)      // 200, body parsed
    | Status400Ok(code: ErrorCode, badInputTokens: Option<seq<QueryToken>>) // 400, error body parsed
    | Status400ParseFail(err: TransportError)         // 400, error body did not parse
    | OtherStatus(status: U16)                        // any other status
  {
    /** `OtherStatus` stands for the statuses the code does not match on. */
    predicate Valid() {
      OtherStatus? ==> status != 200 && status != 400
    }
  }

  predicate AllValid(os: seq<Outcome>) {
    forall i :: 0 <= i < |os| ==> os[i].Valid()
  }

  /** The fields of `Pages` that `next` reads or writes (the transport client left out). */
  datatype Cursor = Cursor(
    query: string,
    corpus: Corpus,
    options: SearchOptions,
    payload: string,
    next: Option<string>)

  /**
   * One `next` call: the cursor afterwards, whether it sent a request (the
   * request itself is `SearchRequest` of the cursor before) and the result.
   */
  datatype Step = Step(after: Cursor, requested: bool, result: Option<Result<PageView, Error>>)

  /** `Pages::new`: empty payload, no continuation token. */
  function Start(query: string, corpus: Corpus, options: SearchOptions): Cursor {
    Cursor(query, corpus, options, "", None)
  }

  function Budget(c: Cursor): nat {
    c.options.maxPageCount as nat
  }

  /** The request `next` issues from a cursor. */
  function SearchRequest(c: Cursor): Request {
    Request(Url(c.corpus, "search"), SearchParams(c.query, c.options, c.next))
  }

  /** What `Pages::next` does, as a function of the cursor and the outcome. */
  function NextStep(c: Cursor, o: Outcome): Step
    requires o.Valid()
  {
    if c.options.maxPageCount == 0 then Step(c, false, None)
    else Step(CursorAfter(c, o), true, Some(ResultOf(o)))
  }

  /** What `Pages::next` yields for the outcome of the request it sent. */
  function ResultOf(o: Outcome): Result<PageView, Error>
    requires o.Valid()
  {
    match o
    case ConnErr(err) => Err(ConnectionError(err))
    case Status200BodyUnreadable(err) => Err(ExceptionError(Transport(err)))
    case Status200ParseFail(_, err) => Err(ExceptionError(Json(err)))
    case Status200Ok(_, queryTokens, ngrams, _) => Ok(PageView(queryTokens, ngrams))
    case Status400Ok(code, queryTokens) => Err(RejectionError(BadInputError(code, queryTokens)))
    case Status400ParseFail(err) => Err(ExceptionError(Transport(err)))
    case OtherStatus(status) => Err(UnexpectedStatus(status))
  }

  /**
   * The cursor after `Pages::next` sent its request: a readable 200 body is
   * stored as the payload, and a parsed page spends one unit of budget and
   * stores its next-page token, or ends the iteration when it has none.
   */
  function CursorAfter(c: Cursor, o: Outcome): Cursor
    requires c.options.maxPageCount > 0
  {
    match o
    case Status200ParseFail(text, _) => c.(payload := text)
    case Status200Ok(text, _, _, token) =>
      var budget := if token.Some? then c.options.maxPageCount - 1 else 0;
      c.(payload := text, options := c.options.(maxPageCount := budget), next := token)
    case _ => c
  }

  predicate IsOkPage(r: Option<Result<PageView, Error>>) {
    r.Some? && r.value.Ok?
  }

  /** `Pages`, the cursor object; `Client::search` creates it. */
  class Pages {
    var query: string
    var corpus: Corpus
    var options: SearchOptions
    var payload: string
    var next: Option<string>

    /** The budget the cursor was created with, and how many pages it has yielded. */
    ghost const initialBudget: nat
    ghost var pagesYielded: nat

    /** Pages yielded and budget left never add up to more than the budget it started with. */
    ghost predicate Valid()
      reads this
    {
      pagesYielded + options.maxPageCount as nat <= initialBudget
    }

    function State(): Cursor
      reads this
    {
      Cursor(query, corpus, options, payload, next)
    }

    /** `Pages::new`. */
    constructor (query: string, corpus: Corpus, options: SearchOptions)
      ensures State() == Start(query, corpus, options)
      ensures Valid() && pagesYielded == 0 && initialBudget == options.maxPageCount as nat
    {
      this.query := query;
      this.corpus := corpus;
      this.options := options;
      this.payload := "";
      this.next := None;
      this.initialBudget := options.maxPageCount as nat;
      this.pagesYielded := 0;
    }

    /**
     * `Pages::next`: with budget left, sends one search request and folds
     * its outcome into the cursor; with none, returns None and sends
     * nothing.
     */
    method Next(outcome: Outcome) returns (sent: Option<Request>, result: Option<Result<PageView, Error>>)
      requires outcome.Valid() && Valid()
      modifies this
      ensures var s := NextStep(old(State()), outcome);
        State() == s.after && result == s.result && (sent.Some? <==> s.requested)
      ensures sent.Some? ==> sent.value == SearchRequest(old(State()))
      ensures Valid()
      ensures pagesYielded == old(pagesYielded) + (if IsOkPage(result) then 1 else 0)
    {
      if options.maxPageCount == 0 {
        return None, None;
      }
      ghost var before := State();
      var params := BuildSearchParams(query, options, next);
      sent := Some(Request(Url(corpus, "search"), params));
      assert sent.value == SearchRequest(before);
      result := Receive(outcome);
    }

    /** The `match` on the response in `Pages::next`, once the request is sent. */
    method Receive(outcome: Outcome) returns (result: Option<Result<PageView, Error>>)
      requires outcome.Valid() && Valid() && options.maxPageCount > 0
      modifies this
      ensures result == Some(ResultOf(outcome))
      ensures State() == CursorAfter(old(State()), outcome)
      ensures Valid()
      ensures pagesYielded == old(pagesYielded) + (if IsOkPage(result) then 1 else 0)
    {
      ghost var before := State();
      match outcome {
        case ConnErr(err) =>
          result := Some(Err(ConnectionError(err)));
        case Status200BodyUnreadable(err) =>
          result := Some(Err(ExceptionError(Transport(err))));
        case Status200ParseFail(text, err) =>
          payload := text;
          result := Some(Err(ExceptionError(Json(err))));
        case Status200Ok(text, queryTokens, ngrams, token) =>
          payload := text;
          if token.Some? {
            options := options.(maxPageCount := options.maxPageCount - 1);
            next := Some(token.value);
          } else {
            options := options.(maxPageCount := 0);
            next := None;
          }
          pagesYielded := pagesYielded + 1;
          result := Some(Ok(PageView(queryTokens, ngrams)));
        case Status400Ok(code, queryTokens) =>
          result := Some(Err(RejectionError(BadInputError(code, queryTokens))));
        case Status400ParseFail(err) =>
          result := Some(Err(ExceptionError(Transport(err))));
        case OtherStatus(status) =>
          result := Some(Err(UnexpectedStatus(status)));
      }
      StepOkBound(before, outcome);
      assert Budget(before) > 0;
    }
  }

  // ---------------------------------------------------------------------
  // Properties of one step
  // ---------------------------------------------------------------------

  /** With no budget left, `next` returns None, sends no request and changes nothing. */
  lemma ZeroBudgetTerminal(c: Cursor, o: Outcome)
    requires o.Valid() && Budget(c) == 0
    ensures NextStep(c, o) == Step(c, false, None)
  {
  }

  /**
   * With budget left, `next` sends exactly one request, to
   * `BASE_URL/<label>/search`, whose parameters are query, limit, then
   * flags if any switch is on, then start if a token is stored.
   */
  lemma RequestSent(c: Cursor, o: Outcome)
    requires o.Valid() && Budget(c) > 0
    ensures NextStep(c, o).requested
    ensures ParseUrl(SearchRequest(c).url) == Some((c.corpus, "search"))
    ensures Keys(SearchRequest(c).params) ==
      ["query", "limit"]
      + (if FlagsOf(c.options) == "" then [] else ["flags"])
      + (if c.next.Some? then ["start"] else [])
    ensures Lookup(SearchRequest(c).params, "start") == c.next
  {
    ParseUrlRoundTrip(c.corpus, "search");
    SearchParamsShape(c.query, c.options, c.next);
  }

  /**
   * A parsed 200 response yields exactly its query tokens and n-grams and
   * stores its body; with a next-page token the budget drops by one and the
   * token is stored, without one the budget drops to zero and the token is
   * cleared.
   */
  lemma OkPage(c: Cursor, text: string, queryTokens: seq<QueryTokenView>, ngrams: seq<NgramLiteView>,
               token: Option<string>)
    requires Budget(c) > 0
    ensures var s := NextStep(c, Status200Ok(text, queryTokens, ngrams, token));
      && s.result == Some(Ok(PageView(queryTokens, ngrams)))
      && s.after.payload == text
      && s.after.next == token
      && Budget(s.after) == (if token.Some? then Budget(c) - 1 else 0)
      && s.after.query == c.query && s.after.corpus == c.corpus
      && s.after.options == c.options.(maxPageCount := s.after.options.maxPageCount)
  {
  }

  /**
   * Every failure leaves budget and token as they were: a transport
   * failure, an unreadable or unparsable 200 body, a 400 and any other
   * status. Only an unparsable 200 body replaces the payload.
   */
  lemma FailureKeepsBudgetAndToken(c: Cursor, o: Outcome)
    requires o.Valid() && !o.Status200Ok?
    ensures var s := NextStep(c, o);
      && s.after.options == c.options
      && s.after.next == c.next
      && s.after.query == c.query && s.after.corpus == c.corpus
      && s.after.payload == (if o.Status200ParseFail? && Budget(c) > 0 then o.text else c.payload)
      && (Budget(c) > 0 ==> s.result.Some? && s.result.value.Err?)
  {
  }

  /**
   * A parsed 400 response yields a BadInput error carrying exactly the
   * server's code and query tokens; the budget is not zeroed, so the same
   * request would be sent again.
   */
  lemma BadInputCarriesServerError(c: Cursor, code: ErrorCode, queryTokens: Option<seq<QueryToken>>)
    requires Budget(c) > 0
    ensures var s := NextStep(c, Status400Ok(code, queryTokens));
      && s.result.Some? && s.result.value.Err?
      && Kind(s.result.value.error) == BadInput
      && IntoBadInputError(s.result.value.error) == BadInputError(code, queryTokens)
      && s.after == c
      && NextStep(s.after, Status400Ok(code, queryTokens)).requested
  {
  }

  /** An error from `next` is BadInput exactly for a parsed 400 and Connection otherwise. */
  lemma ErrorKinds(c: Cursor, o: Outcome)
    requires o.Valid()
    ensures var r := NextStep(c, o).result;
      r.Some? && r.value.Err? ==> (Kind(r.value.error) == BadInput <==> o.Status400Ok?)
    ensures var r := NextStep(c, o).result;
      r.Some? && r.value.Err? && !o.Status400Ok? ==> Kind(r.value.error) == Connection
  {
  }

  // ---------------------------------------------------------------------
  // Properties of a sequence of calls
  // ---------------------------------------------------------------------

  /** The requests and results of calling `next` once per outcome, and the cursor afterwards. */
  datatype Trace = Trace(final: Cursor, requested: seq<bool>, results: seq<Option<Result<PageView, Error>>>)

  function Run(c: Cursor, os: seq<Outcome>): (t: Trace)
    requires AllValid(os)
    ensures |t.requested| == |os| && |t.results| == |os|
    decreases |os|
  {
    if os == [] then Trace(c, [], [])
    else
      var s := NextStep(c, os[0]);
      var t := Run(s.after, os[1..]);
      Trace(t.final, [s.requested] + t.requested, [s.result] + t.results)
  }

  /**
   * Calling `next` once more extends the trace by the step taken from the
   * cursor the earlier calls left behind: the i-th result is what `next`
   * returns from the cursor after the first i calls.
   */
  lemma {:induction false} RunSnoc(c: Cursor, os: seq<Outcome>, o: Outcome)
    requires AllValid(os) && o.Valid()
    ensures AllValid(os + [o])
    ensures var t := Run(c, os);
      var s := NextStep(t.final, o);
      Run(c, os + [o]) == Trace(s.after, t.requested + [s.requested], t.results + [s.result])
    decreases |os|
  {
    assert AllValid(os + [o]) by {
      forall i | 0 <= i < |os + [o]| ensures (os + [o])[i].Valid() {
        if i < |os| { assert (os + [o])[i] == os[i]; }
      }
    }
    if os != [] {
      var s0 := NextStep(c, os[0]);
      assert (os + [o])[1..] == os[1..] + [o];
      assert AllValid(os[1..]);
      RunSnoc(s0.after, os[1..], o);
    } else {
      assert os + [o] == [o];
    }
  }

  function OkCount(rs: seq<Option<Result<PageView, Error>>>): nat {
    if rs == [] then 0 else (if IsOkPage(rs[0]) then 1 else 0) + OkCount(rs[1..])
  }

  /** One call yields at most one page, and only by spending at least one unit of budget. */
  lemma StepOkBound(c: Cursor, o: Outcome)
    requires o.Valid()
    ensures var s := NextStep(c, o);
      (if IsOkPage(s.result) then 1 else 0) + Budget(s.after) <= Budget(c)
  {
  }

  /**
   * However the server answers, the pages yielded plus the budget left
   * never exceed the budget the cursor started with; so a cursor created
   * with budget B yields at most B pages.
   */
  lemma {:induction false} RunOkBound(c: Cursor, os: seq<Outcome>)
    requires AllValid(os)
    ensures OkCount(Run(c, os).results) + Budget(Run(c, os).final) <= Budget(c)
    decreases |os|
  {
    if os != [] {
      var s := NextStep(c, os[0]);
      StepOkBound(c, os[0]);
      assert AllValid(os[1..]);
      RunOkBound(s.after, os[1..]);
      var t := Run(s.after, os[1..]);
      assert ([s.result] + t.results)[1..] == t.results;
    }
  }

  /** An exhausted cursor stays exhausted: every further call returns None and sends nothing. */
  lemma {:induction false} RunFromExhausted(c: Cursor, os: seq<Outcome>)
    requires AllValid(os) && Budget(c) == 0
    ensures Run(c, os).final == c
    ensures forall i :: 0 <= i < |os| ==> Run(c, os).results[i] == None && !Run(c, os).requested[i]
    decreases |os|
  {
    if os != [] {
      assert AllValid(os[1..]);
      RunFromExhausted(c, os[1..]);
    }
  }

  /** A cursor created with budget 0 yields nothing and never sends a request. */
  lemma ZeroBudgetSendsNothing(query: string, corpus: Corpus, options: SearchOptions, os: seq<Outcome>)
    requires AllValid(os) && options.maxPageCount == 0
    ensures forall i :: 0 <= i < |os| ==> !Run(Start(query, corpus, options), os).requested[i]
    ensures OkCount(Run(Start(query, corpus, options), os).results) == 0
  {
    RunFromExhausted(Start(query, corpus, options), os);
    RunOkBound(Start(query, corpus, options), os);
  }

  /**
   * A page without a next-page token ends the iteration: from then on no
   * request is sent.
   */
  lemma LastPageEndsIteration(c: Cursor, text: string, queryTokens: seq<QueryTokenView>,
                              ngrams: seq<NgramLiteView>, os: seq<Outcome>)
    requires Budget(c) > 0 && AllValid(os)
    ensures var after := NextStep(c, Status200Ok(text, queryTokens, ngrams, None)).after;
      forall i :: 0 <= i < |os| ==> !Run(after, os).requested[i] && Run(after, os).results[i] == None
  {
    RunFromExhausted(NextStep(c, Status200Ok(text, queryTokens, ngrams, None)).after, os);
  }
}
