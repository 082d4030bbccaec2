/**
 * The request loop that asks the model for a question: at most three
 * attempts, retried only when the failure's message contains "429", with a
 * wait of 5 * (attempt + 1) seconds before each retry. Parsing the cleaned
 * reply happens inside the same guarded block, so a parse failure is
 * judged by its message like any other failure.
 */
module Retry {
  import opened Wrappers
  import opened Text
  import Fences

  const MaxRetries: nat := 3
  const QuotaCode: string := "429"

  /** What one call to the model gives: the reply's text, or the message of the exception raised. */
  datatype Reply = Replied(text: string) | Raised(message: string)

  /** What the JSON parser makes of a text: a value, or an error with its message. */
  datatype ParseResult<T> = Parsed(value: T) | ParseError(message: string)

  /** The result of one attempt: the parsed question, or the message of the failure. */
  datatype Attempt<T> = Succeeded(value: T) | Failed(message: string)

  /**
   * The outcome of a request. The source returns the question or `None`;
   * the three failures are the three error messages it shows before
   * returning `None`.
   */
  datatype Outcome<T> =
    | Generated(question: T)
    | InitFailed(detail: string)     // the model handle could not be created
    | QuotaExhausted                 // "429" on the last attempt
    | RequestFailed(detail: string)  // any other failure

  /** One attempt: take the reply's text, clean it and parse it. */
  function TryOnce<T>(reply: Reply, parse: string -> ParseResult<T>): Attempt<T> {
    match reply
    case Raised(m) => Failed(m)
    case Replied(t) =>
      match parse(Fences.Clean(t))
      case Parsed(v) => Succeeded(v)
      case ParseError(m) => Failed(m)
  }

  /** A failure the loop retries: its message contains "429". */
  predicate IsQuotaError<T>(a: Attempt<T>) {
    a.Failed? && Contains(a.message, QuotaCode)
  }

  /** The waits before the retries that follow `n` quota failures: 5, 10, ... seconds. */
  predicate IsBackoff(waits: seq<nat>, n: nat) {
    |waits| == n && forall j :: 0 <= j < n ==> waits[j] == 5 * (j + 1)
  }

  /**
   * Requests one question. `initError` is the error creating the model
   * handle raised, if any; `replies[k]` is what the model gives on attempt
   * `k`; `parse` is the JSON parser. Returns the outcome, the seconds slept
   * before each retry, in order, and the number of attempts made.
   */
  method Generate<T>(initError: Option<string>, replies: seq<Reply>, parse: string -> ParseResult<T>)
    returns (outcome: Outcome<T>, waits: seq<nat>, attempts: nat)
    requires |replies| >= MaxRetries
    ensures initError.Some? ==> outcome == InitFailed(initError.value) && waits == [] && attempts == 0
    ensures initError.None? ==> 1 <= attempts <= MaxRetries
    ensures initError.None? ==> IsBackoff(waits, attempts - 1)
    ensures forall w :: w in waits ==> w == 5 || w == 10
    ensures forall j :: 0 <= j < attempts - 1 ==> IsQuotaError(TryOnce(replies[j], parse))
    ensures 0 < attempts < MaxRetries ==> !IsQuotaError(TryOnce(replies[attempts - 1], parse))
    ensures initError.None? ==>
      match TryOnce(replies[attempts - 1], parse)
      case Succeeded(v) => outcome == Generated(v)
      case Failed(m) =>
        if Contains(m, QuotaCode) then attempts == MaxRetries && outcome == QuotaExhausted
        else outcome == RequestFailed(m)
  {
    waits, attempts := [], 0;
    if initError.Some? {
      outcome := InitFailed(initError.value);
      return;
    }
    var attempt := 0;
    while attempt < MaxRetries
      invariant attempt <= MaxRetries - 1
      invariant attempts == attempt
      invariant IsBackoff(waits, attempt)
      invariant forall j :: 0 <= j < attempt ==> IsQuotaError(TryOnce(replies[j], parse))
    {
      attempts := attempt + 1;
      var result := TryOnce(replies[attempt], parse);
      match result
      case Succeeded(v) =>
        outcome := Generated(v);
        return;
      case Failed(m) =>
        if Contains(m, QuotaCode) {
          if attempt < MaxRetries - 1 {
            var waitTime := 5 * (attempt + 1);
            waits := waits + [waitTime];
            attempt := attempt + 1;
            continue;
          } else {
            outcome := QuotaExhausted;
            return;
          }
        } else {
          outcome := RequestFailed(m);
          return;
        }
    }
  }

  /** Three quota failures in a row: waits of 5 and 10 seconds, then the quota error; never 15 seconds. */
  method ThreeQuotaErrors<T>(replies: seq<Reply>, parse: string -> ParseResult<T>)
    returns (outcome: Outcome<T>, waits: seq<nat>, attempts: nat)
    requires |replies| == MaxRetries
    requires forall j :: 0 <= j < |replies| ==> IsQuotaError(TryOnce(replies[j], parse))
    ensures outcome == QuotaExhausted && waits == [5, 10] && attempts == 3
  {
    outcome, waits, attempts := Generate(None, replies, parse);
  }

  /** Two quota failures and then a reply that parses: that reply's question, after waits of 5 and 10 seconds. */
  method QuotaTwiceThenSuccess<T>(replies: seq<Reply>, parse: string -> ParseResult<T>)
    returns (outcome: Outcome<T>, waits: seq<nat>, attempts: nat)
    requires |replies| == MaxRetries
    requires IsQuotaError(TryOnce(replies[0], parse)) && IsQuotaError(TryOnce(replies[1], parse))
    requires TryOnce(replies[2], parse).Succeeded?
    ensures outcome == Generated(TryOnce(replies[2], parse).value) && waits == [5, 10] && attempts == 3
  {
    outcome, waits, attempts := Generate(None, replies, parse);
  }

  /** A first reply that parses is returned at once, with no wait. */
  method FirstReplyParses<T>(replies: seq<Reply>, parse: string -> ParseResult<T>)
    returns (outcome: Outcome<T>, waits: seq<nat>, attempts: nat)
    requires |replies| == MaxRetries
    requires TryOnce(replies[0], parse).Succeeded?
    ensures outcome == Generated(TryOnce(replies[0], parse).value) && waits == [] && attempts == 1
  {
    outcome, waits, attempts := Generate(None, replies, parse);
  }

  /**
   * A first failure without "429" (a 404, a 500, a network fault, or a
   * reply that does not parse) ends the request at once, with no wait and
   * the failure's message.
   */
  method OtherErrorStopsAtOnce<T>(replies: seq<Reply>, parse: string -> ParseResult<T>)
    returns (outcome: Outcome<T>, waits: seq<nat>, attempts: nat)
    requires |replies| == MaxRetries
    requires TryOnce(replies[0], parse).Failed? && !IsQuotaError(TryOnce(replies[0], parse))
    ensures outcome == RequestFailed(TryOnce(replies[0], parse).message) && waits == [] && attempts == 1
  {
    outcome, waits, attempts := Generate(None, replies, parse);
  }

  /**
   * A reply that does not parse, whose parse error message contains "429",
   * is retried after 5 seconds like a quota error; a second reply that
   * parses is then returned.
   */
  method ParseErrorMentioning429IsRetried<T>(replies: seq<Reply>, parse: string -> ParseResult<T>)
    returns (outcome: Outcome<T>, waits: seq<nat>, attempts: nat)
    requires |replies| == MaxRetries && replies[0].Replied?
    requires parse(Fences.Clean(replies[0].text)).ParseError?
    requires Contains(parse(Fences.Clean(replies[0].text)).message, QuotaCode)
    requires TryOnce(replies[1], parse).Succeeded?
    ensures outcome == Generated(TryOnce(replies[1], parse).value) && waits == [5] && attempts == 2
  {
    outcome, waits, attempts := Generate(None, replies, parse);
  }

  /** A JSON decoder message that points at character 429 contains "429". */
  lemma CharPosition429LooksLikeQuota()
    ensures Contains("Expecting value: line 1 column 430 (char 429)", QuotaCode)
  {
    var m := "Expecting value: line 1 column 430 (char 429)";
    assert OccursAt(m, QuotaCode, 41);
  }

  /** A reply wrapped in a "```json" fence gives the same attempt result as its bare body. */
  lemma FencedReplyParsesLikeBody<T>(body: string, parse: string -> ParseResult<T>)
    requires forall i :: 0 <= i < |body| ==> body[i] != '`'
    ensures TryOnce(Replied(Fences.JsonFence + body + Fences.Fence), parse) == TryOnce(Replied(body), parse)
  {
    Fences.FencedBodyCleansLikeBody(body);
  }
}
