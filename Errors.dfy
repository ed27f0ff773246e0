/**
 * The client's single error type: a kind, and the underlying error it was
 * built from.
 */
module Errors {
  import opened Wrappers
  import opened Ints
  import Decimal
  import opened Records

  /** `ErrorKind`. */
  datatype ErrorKind =
    | Connection  // HTTP connection error
    | Exception   // unexpected HTTP status code or invalid JSON
    | BadInput    // the query or another input was invalid

  /** `ErrorCode`: the error codes a user query can provoke. */
  datatype ErrorCode =
    | InvalidParameterLimit
    | InvalidQueryBadAlternation
    | InvalidQueryBadCompletion
    | InvalidQueryBadTermGroup
    | InvalidQueryNoTerm
    | InvalidQueryTooExpensive
    | InvalidQueryTooManyTokens

  /** The wire name serde reads and writes for each error code. */
  function CodeName(c: ErrorCode): string {
    match c
    case InvalidParameterLimit => "INVALID_PARAMETER.LIMIT"
    case InvalidQueryBadAlternation => "INVALID_QUERY.BAD_ALTERNATION"
    case InvalidQueryBadCompletion => "INVALID_QUERY.BAD_COMPLETION"
    case InvalidQueryBadTermGroup => "INVALID_QUERY.BAD_TERM_GROUP"
    case InvalidQueryNoTerm => "INVALID_QUERY.NO_TERM"
    case InvalidQueryTooExpensive => "INVALID_QUERY.TOO_EXPENSIVE"
    case InvalidQueryTooManyTokens => "INVALID_QUERY.TOO_MANY_TOKENS"
  }

  /** Reading a wire name: None for any name outside the enumeration. */
  function CodeOfName(s: string): Option<ErrorCode> {
    if s == "INVALID_PARAMETER.LIMIT" then Some(InvalidParameterLimit)
    else if s == "INVALID_QUERY.BAD_ALTERNATION" then Some(InvalidQueryBadAlternation)
    else if s == "INVALID_QUERY.BAD_COMPLETION" then Some(InvalidQueryBadCompletion)
    else if s == "INVALID_QUERY.BAD_TERM_GROUP" then Some(InvalidQueryBadTermGroup)
    else if s == "INVALID_QUERY.NO_TERM" then Some(InvalidQueryNoTerm)
    else if s == "INVALID_QUERY.TOO_EXPENSIVE" then Some(InvalidQueryTooExpensive)
    else if s == "INVALID_QUERY.TOO_MANY_TOKENS" then Some(InvalidQueryTooManyTokens)
    else None
  }

  lemma CodeNameRoundTrip(c: ErrorCode, s: string)
    ensures CodeOfName(CodeName(c)) == Some(c)
    ensures CodeOfName(s) == Some(c) ==> s == CodeName(c)
  {
  }

  /** `BadInputError`: the server's code and, when it sent them, the query tokens. */
  datatype BadInputError = BadInputError(code: ErrorCode, queryTokens: Option<seq<QueryToken>>)

  /** A `reqwest::Error`: transport failure, unreadable or undecodable body. */
  datatype TransportError = TransportError(message: string)

  /** A `serde_json::Error`. */
  datatype JsonError = JsonError(message: string)

  /** The error an `Error` wraps (its boxed `source`). */
  datatype Cause =
    | Transport(transport: TransportError)
    | Json(json: JsonError)
    | Rejected(badInput: BadInputError)
    | UnexpectedStatusCode(status: U16)

  datatype Error = Error(kind: ErrorKind, source: Option<Cause>)

  /** `Error::new`. */
  function New(kind: ErrorKind, source: Option<Cause>): (e: Error)
    ensures e.kind == kind && e.source == source
  {
    Error(kind, source)
  }

  /** `Error::connection`. */
  function ConnectionError(err: TransportError): (e: Error)
    ensures e.kind == Connection && e.source == Some(Transport(err))
  {
    New(Connection, Some(Transport(err)))
  }

  /**
   * `Error::exception`. Despite its name it builds an error of kind
   * Connection. None of the client's own paths produces kind Exception;
   * only a caller using `Error::new` directly can build one.
   */
  function ExceptionError(cause: Cause): (e: Error)
    ensures e.kind == Connection && e.source == Some(cause)
  {
    New(Connection, Some(cause))
  }

  /** `Error::bad_input`. */
  function RejectionError(err: BadInputError): (e: Error)
    ensures e.kind == BadInput && e.source == Some(Rejected(err))
  {
    New(BadInput, Some(Rejected(err)))
  }

  /** `Error::unexpected_status_code`, which goes through `exception`. */
  function UnexpectedStatus(status: U16): (e: Error)
    ensures e.kind == Connection && e.source == Some(UnexpectedStatusCode(status))
  {
    ExceptionError(UnexpectedStatusCode(status))
  }

  /** `Error::kind`. */
  function Kind(e: Error): ErrorKind {
    e.kind
  }

  /** `Error::into_bad_input_error`: the unwraps panic unless the source is a `BadInputError`. */
  function IntoBadInputError(e: Error): BadInputError
    requires e.source.Some? && e.source.value.Rejected?
  {
    e.source.value.badInput
  }

  /** `impl Display for Error`. */
  function Display(e: Error): string {
    match e.kind
    case Connection => "connection error"
    case Exception => "unexpected error"
    case BadInput => "bad input"
  }

  /** `impl Display for UnexpectedStatusCode`. */
  function DisplayStatus(status: U16): string {
    "unexpected http status code: " + Decimal.ToDecimal(status as nat)
  }

  /** Reading a displayed message back into the kind that produced it. */
  function KindOfMessage(s: string): Option<ErrorKind> {
    if s == "connection error" then Some(Connection)
    else if s == "unexpected error" then Some(Exception)
    else if s == "bad input" then Some(BadInput)
    else None
  }

  /** The displayed message names the kind: distinct kinds display differently. */
  lemma DisplayNamesKind(e: Error)
    ensures KindOfMessage(Display(e)) == Some(Kind(e))
  {
  }

  /**
   * The constructors build kind Connection (also `exception`, whatever it
   * wraps) or, for a server rejection, BadInput, which
   * `into_bad_input_error` then hands back unchanged.
   */
  lemma ConstructorKinds(t: TransportError, c: Cause, b: BadInputError, status: U16)
    ensures Kind(ConnectionError(t)) == Connection
    ensures Kind(ExceptionError(c)) == Connection && Display(ExceptionError(c)) == "connection error"
    ensures Kind(UnexpectedStatus(status)) == Connection
    ensures Kind(RejectionError(b)) == BadInput && Display(RejectionError(b)) == "bad input"
    ensures IntoBadInputError(RejectionError(b)) == b
  {
  }

  /** The status code's message ends with the code in decimal, from which it can be read back. */
  lemma {:induction false} DisplayStatusRoundTrip(status: U16)
    ensures |DisplayStatus(status)| > |"unexpected http status code: "|
    ensures Decimal.Parse(DisplayStatus(status)[|"unexpected http status code: "|..]) == Some(status as nat)
  {
    var prefix := "unexpected http status code: ";
    var digits := Decimal.ToDecimal(status as nat);
    Decimal.ToDecimalCanonical(status as nat);
    assert (prefix + digits)[|prefix|..] == digits;
    Decimal.ParseToDecimal(status as nat);
  }
}
