/**
 * The review panel's submission flow (src/App.jsx, `handleReview`): the blank
 * check, the state reset, the single request, and the landing in either a
 * published review or an error message.
 *
 * The asynchronous call is split into two steps: `BeginSubmit` runs up to the
 * request, `Complete` consumes what the network delivered. `HandleReview`
 * runs both in sequence, as one click does.
 */
module Reviewer {
  import opened Wrappers
  import opened Strings
  import opened Fences
  import opened Reviews

  /** Shown when the submitted code is blank. */
  const BlankInputError: string := "Please enter some code to review"

  /** Thrown when the service answers with a failure status and no message of its own. */
  const ServiceFallbackError: string := "Failed to get review from Gemini API"

  /** Shown when whatever went wrong carried no message. */
  const ReviewFallbackError: string := "Failed to review code. Please check your API key and try again."

  /** The request one submission issues: the prompt embeds these two values verbatim. */
  datatype Request = Request(language: string, code: string)

  /** What the network delivered for a request. */
  datatype Outcome =
    | Payload(text: string)              // success status; the first candidate's first text part
    | HttpError(message: Option<string>) // failure status; the error envelope's message, if any
    | Thrown(message: Option<string>)    // anything thrown before cleaning (transport, body, missing path)

  /**
   * A value `JSON.parse` may return, as far as the panel can tell them apart:
   * a falsy one (`null`, `false`, `0`, `""`), which leaves the results area
   * empty, or any other value, which is stored and rendered as a review.
   */
  datatype Parsed = Falsy | Truthy(review: Review)

  /** `JSON.parse` on the cleaned text: the value, or the thrown error's message, if any. */
  type Parser = string -> Result<Parsed, Option<string>>

  /** How a completed request leaves the results area. */
  datatype Settlement =
    | Published(review: Review) // a review is stored; the error is untouched
    | Cleared                   // a falsy value is stored: no review, and the error is untouched
    | Failed(message: string)   // the message is shown; the review is untouched

  /** JavaScript's `message || fallback` on an optional string: a missing or empty message gives way. */
  function MessageOr(message: Option<string>, fallback: string): (r: string)
    ensures message.Some? && message.value != "" ==> r == message.value
    ensures message.None? || message.value == "" ==> r == fallback
    ensures fallback != "" ==> r != ""
  {
    if message.Some? && message.value != "" then message.value else fallback
  }

  /**
   * What the `try`/`catch` makes of an outcome. A review is published exactly
   * when the service answered with a payload whose cleaned text parses to a
   * truthy value; the results area is cleared exactly when it parses to a
   * falsy one; every failure carries a non-empty message; a failure status
   * shows the service's message or its own fallback, never the generic one;
   * a thrown error or a parse error shows its own message or the generic one.
   */
  function Settle(outcome: Outcome, parse: Parser): (r: Settlement)
    ensures r.Published? <==> outcome.Payload? && parse(CleanResponse(outcome.text)).Success?
                              && parse(CleanResponse(outcome.text)).value.Truthy?
    ensures r.Published? ==> r.review == parse(CleanResponse(outcome.text)).value.review
    ensures r.Cleared? <==> outcome.Payload? && parse(CleanResponse(outcome.text)) == Success(Falsy)
    ensures r.Failed? ==> r.message != ""
    ensures outcome.HttpError? ==> r == Failed(MessageOr(outcome.message, ServiceFallbackError))
    ensures outcome.Thrown? ==> r == Failed(MessageOr(outcome.message, ReviewFallbackError))
    ensures outcome.Payload? && parse(CleanResponse(outcome.text)).Failure? ==>
              r == Failed(MessageOr(parse(CleanResponse(outcome.text)).error, ReviewFallbackError))
  {
    match outcome
    case Payload(text) =>
      (match parse(CleanResponse(text))
       case Success(Truthy(review)) => Published(review)
       case Success(Falsy) => Cleared
       case Failure(message) => Failed(MessageOr(message, ReviewFallbackError)))
    case HttpError(message) =>
      Failed(MessageOr(Some(MessageOr(message, ServiceFallbackError)), ReviewFallbackError))
    case Thrown(message) =>
      Failed(MessageOr(message, ReviewFallbackError))
  }

  /**
   * A service that answers with the text `null` leaves neither a review nor an
   * error behind: the parse succeeds, so nothing is caught, and the stored
   * `null` renders as no review.
   */
  lemma NullPayloadClears(parse: Parser)
    requires parse("null") == Success(Falsy)
    ensures Settle(Payload("null"), parse) == Cleared
  {
    PlainTextKept("null");
  }

  /**
   * The settling the flow evidently intends: a falsy parse result is refused
   * like a parse error with no message, so every request ends on a review or
   * on a non-empty error, and on exactly one of them.
   */
  function SettleRejectingFalsy(outcome: Outcome, parse: Parser): (r: Settlement)
    ensures !r.Cleared?
    ensures r.Failed? ==> r.message != ""
    ensures Settle(outcome, parse).Cleared? ==> r == Failed(ReviewFallbackError)
    ensures !Settle(outcome, parse).Cleared? ==> r == Settle(outcome, parse)
  {
    match Settle(outcome, parse)
    case Cleared => Failed(ReviewFallbackError)
    case Published(review) => Published(review)
    case Failed(message) => Failed(message)
  }

  /**
   * Wrapping a trimmed, backtick-free body in a fenced block, with or without
   * the `json` info string, settles exactly as the bare body does, given that
   * the parser ignores a trailing line feed (JSON's insignificant whitespace).
   */
  lemma FencedPayloadSettlesAsBare(body: string, parse: Parser)
    requires NoBacktick(body)
    requires body == [] || (!IsSpace(body[0]) && !IsSpace(body[|body| - 1]))
    requires parse(body + "\n") == parse(body)
    ensures Settle(Payload("```json\n" + body + "\n```"), parse) == Settle(Payload(body), parse)
    ensures Settle(Payload("```\n" + body + "\n```"), parse) == Settle(Payload(body), parse)
  {
    PlainTextKept(body);
    TaggedBlockUnwraps(body);
    SameTextSameSettling("```json\n" + body + "\n```", body, parse);
    BareBlockUnwraps(body);
    SameTextSameSettling("```\n" + body + "\n```", body, parse);
  }

  /** Two payloads whose cleaned texts parse alike settle alike. */
  lemma SameTextSameSettling(p1: string, p2: string, parse: Parser)
    requires parse(CleanResponse(p1)) == parse(CleanResponse(p2))
    ensures Settle(Payload(p1), parse) == Settle(Payload(p2), parse)
  {
  }

  /** The component's state. */
  class ReviewPanel {
    var code: string
    var language: string
    var review: Option<Review>
    var loading: bool
    var error: string
    const parse: Parser

    /** The state on first render. */
    constructor (parse: Parser)
      ensures code == "" && language == "javascript"
      ensures review == None && !loading && error == ""
      ensures this.parse == parse
    {
      code := "";
      language := "javascript";
      review := None;
      loading := false;
      error := "";
      this.parse := parse;
    }

    /** Typing into the editor. */
    method SetCode(text: string)
      modifies this`code
      ensures code == text
    {
      code := text;
    }

    /** Picking a language in the selector. */
    method SetLanguage(name: string)
      modifies this`language
      ensures language == name
    {
      language := name;
    }

    /** The submit button is enabled: not loading, and the code has a non-whitespace character. */
    predicate CanSubmit()
      reads this
      ensures CanSubmit() <==> !loading && !AllSpace(code)
    {
      !(loading || Trim(code) == "")
    }

    /**
     * The state a non-blank submission is meant to end in: no request pending,
     * and exactly one of a review or an error is shown.
     */
    predicate Settled()
      reads this
    {
      !loading && (review.Some? <==> error == "")
    }

    /**
     * Up to the request: a blank code sets the fixed error and changes nothing
     * else; otherwise the state is reset to loading, with no review and no
     * error, and a request carrying the code and language is issued.
     */
    method BeginSubmit() returns (request: Option<Request>)
      modifies this`review, this`loading, this`error
      ensures request.None? <==> AllSpace(code)
      ensures request.None? ==> error == BlankInputError && loading == old(loading) && review == old(review)
      ensures request.Some? ==> request.value == Request(language, code)
      ensures request.Some? ==> loading && review == None && error == ""
    {
      // `!code.trim()`: by Trim's contract, the trimmed code is empty exactly when it is all whitespace
      if AllSpace(code) {
        error := BlankInputError;
        return None;
      }
      loading := true;
      review := None;
      error := "";
      request := Some(Request(language, code));
    }

    /**
     * After the request: a parsed review is published, or a falsy parse result
     * clears the review (the error is left as it was either way), or the
     * failure's message is shown (the review is left as it was); loading ends
     * in every case.
     */
    method Complete(outcome: Outcome)
      modifies this`review, this`loading, this`error
      ensures !loading
      ensures Settle(outcome, parse).Published? ==> review == Some(Settle(outcome, parse).review) && error == old(error)
      ensures Settle(outcome, parse).Cleared? ==> review == None && error == old(error)
      ensures Settle(outcome, parse).Failed? ==> error == Settle(outcome, parse).message && review == old(review)
    {
      match outcome
      case Payload(text) =>
        var cleaned := Trim(text);
        if StartsWith(cleaned, JsonFence) {
          cleaned := RemoveMarkers(RemoveMarkers(cleaned, JsonFence), Fence);
        } else if StartsWith(cleaned, Fence) {
          cleaned := RemoveMarkers(cleaned, Fence);
        }
        assert cleaned == CleanResponse(text);
        match parse(cleaned) {
          case Success(Truthy(r)) =>
            review := Some(r);
            loading := false;
          case Success(Falsy) =>
            review := None;
            loading := false;
          case Failure(message) =>
            error := MessageOr(message, ReviewFallbackError);
            loading := false;
        }
      case HttpError(message) =>
        error := MessageOr(Some(MessageOr(message, ServiceFallbackError)), ReviewFallbackError);
        loading := false;
      case Thrown(message) =>
        error := MessageOr(message, ReviewFallbackError);
        loading := false;
    }

    /**
     * One click: a blank code only sets the fixed error; otherwise exactly one
     * request is issued and the panel stops loading with the review or with a
     * non-empty error, never both. It ends on exactly one of them unless the
     * payload parses to a falsy value, which leaves neither.
     */
    method HandleReview(outcome: Outcome) returns (request: Option<Request>)
      modifies this`review, this`loading, this`error
      ensures request.None? <==> AllSpace(code)
      ensures request.None? ==> error == BlankInputError && loading == old(loading) && review == old(review)
      ensures request.Some? ==> request.value == Request(language, code) && !loading
      ensures request.Some? ==> (Settled() <==> !Settle(outcome, parse).Cleared?)
      ensures request.Some? ==> match Settle(outcome, parse)
                                case Published(r) => review == Some(r) && error == ""
                                case Cleared => review == None && error == ""
                                case Failed(m) => review == None && error == m
    {
      request := BeginSubmit();
      if request.Some? {
        Complete(outcome);
      }
    }
  }
}
