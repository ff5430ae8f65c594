/**
 * The `/chat` endpoint of the backend: a process-wide rate gate, validation of the
 * request's message, and a fixed two-step failover from OpenAI to Gemini.
 *
 * The provider calls are not performed here: what each provider did is an input
 * (`PrimaryOutcome`, `GeminiOutcome`), and the handler reports which providers it
 * contacted, in order, as a trace of `Call`s.
 */
module Gateway {
  import opened Wrappers

  /** Minimum time between two admitted requests, in milliseconds. */
  const MinRequestInterval: int := 1000

  const RateLimitText: string := "Please wait a moment before sending another message"
  const MessageRequiredText: string := "Message is required"
  const QuotaApologyText: string :=
    "I apologize, but the API quota has been exceeded. Please try again later or add billing information to your Gemini account."
  const ServiceErrorText: string := "Error communicating with AI services"
  const BothApisFailedText: string := "Both APIs failed"
  const GeminiTag: string := "gemini"
  const InsufficientQuotaCode: string := "insufficient_quota"

  datatype Provider = OpenAI | Gemini

  /** One provider request: who was asked, with which user message. */
  datatype Call = Call(provider: Provider, prompt: string)

  /** One entry of `completion.data.choices`: the content of its message, which the
      provider may send as `null` (`None`). */
  datatype Choice = Choice(content: Option<string>)

  /** One content part of a Gemini candidate: its `text`, which may be missing (`None`). */
  datatype Part = Part(text: Option<string>)

  /** What the OpenAI chat-completion call produced. */
  datatype PrimaryOutcome =
    | Completed(choices: Option<seq<Choice>>)  // the call returned; `choices` may be absent
    | Threw                                    // the call (or reading its result) raised an error

  /** What the Gemini generateContent request produced. */
  datatype GeminiOutcome =
    | Candidates(candidates: seq<seq<Part>>)    // each candidate's content parts
    | Rejected(code: Option<string>)            // the request failed; `error.response?.data?.error?.code`

  /** A JSON response body; `None` is a property that is not present, or (for
      `response`) one that is `null`. */
  datatype Body = Body(
    response: Option<string>,
    isFailover: Option<bool>,
    provider: Option<string>,
    error: Option<string>,
    details: Option<string>,
    isRateLimit: Option<bool>)

  /** An HTTP status and the JSON body sent with it. */
  datatype Reply = Reply(status: int, body: Body)

  /** The reply to one admitted, valid request and the provider calls made for it. */
  datatype Exchange = Exchange(reply: Reply, calls: seq<Call>)

  const RateLimitedReply: Reply :=
    Reply(429, Body(None, None, None, Some(RateLimitText), None, Some(true)))

  const MissingMessageReply: Reply :=
    Reply(400, Body(None, None, None, Some(MessageRequiredText), None, None))

  const QuotaApologyReply: Reply :=
    Reply(200, Body(Some(QuotaApologyText), Some(true), None, None, None, None))

  const BothFailedReply: Reply :=
    Reply(500, Body(None, None, None, Some(ServiceErrorText), Some(BothApisFailedText), None))

  /** `!message`: an absent or empty message is falsy; any other string is a message. */
  function IsMissing(message: Option<string>): (missing: bool)
    ensures !missing <==> message.Some? && |message.value| > 0
  {
    message.None? || message.value == ""
  }

  /** The primary's answer: the first choice, or nothing when the call failed or
      `choices` is absent or empty (which the handler turns into an error). */
  function PrimaryAnswer(outcome: PrimaryOutcome): (r: Option<Choice>)
    ensures r.Some? <==> outcome.Completed? && outcome.choices.Some? && |outcome.choices.value| > 0
    ensures r.Some? ==> r.value == outcome.choices.value[0]
  {
    match outcome
    case Threw => None
    case Completed(choices) =>
      if choices.None? || |choices.value| == 0 then None else Some(choices.value[0])
  }

  /** `callGeminiAPI`: the first part of the first candidate, whose `text` is returned
      even when it is missing; a missing candidate or part throws a TypeError, which
      carries no error code. */
  function CallGemini(outcome: GeminiOutcome): (r: Result<Part, Option<string>>)
    ensures r.Success? <==>
      outcome.Candidates? && |outcome.candidates| > 0 && |outcome.candidates[0]| > 0
    ensures r.Success? ==> r.value == outcome.candidates[0][0]
    ensures outcome.Rejected? ==> r == Failure(outcome.code)
    ensures outcome.Candidates? && r.Failure? ==> r.error == None
  {
    match outcome
    case Rejected(code) => Failure(code)
    case Candidates(cs) =>
      if |cs| == 0 || |cs[0]| == 0 then Failure(None) else Success(cs[0][0])
  }

  /** The reply once OpenAI has failed: Gemini's answer tagged as a failover, the
      quota apology, or the 500 error for every other Gemini failure. */
  function FallbackReply(outcome: GeminiOutcome): (r: Reply)
    ensures r.status == 200 || r.status == 500
    ensures r.status == 200 ==> r.body.isFailover == Some(true) && r.body.error.None?
    ensures CallGemini(outcome).Success? ==>
      r == Reply(200, Body(CallGemini(outcome).value.text, Some(true), Some(GeminiTag), None, None, None))
    ensures CallGemini(outcome) == Failure(Some(InsufficientQuotaCode)) ==> r == QuotaApologyReply
    ensures r.status == 500 <==>
      CallGemini(outcome).Failure? && CallGemini(outcome).error != Some(InsufficientQuotaCode)
    ensures r.status == 500 ==> r == BothFailedReply
    ensures r.body.response.None? ==> r.status == 500 || CallGemini(outcome) == Success(Part(None))
  {
    match CallGemini(outcome)
    case Success(part) => Reply(200, Body(part.text, Some(true), Some(GeminiTag), None, None, None))
    case Failure(code) =>
      if code == Some(InsufficientQuotaCode) then QuotaApologyReply else BothFailedReply
  }

  /** The failover after admission and validation: OpenAI first, Gemini only when
      OpenAI gave no usable choice; never more than two calls, always in that order. */
  function Route(message: string, primary: PrimaryOutcome, gemini: GeminiOutcome): (x: Exchange)
    ensures x.calls == [Call(OpenAI, message)] || x.calls == [Call(OpenAI, message), Call(Gemini, message)]
    ensures |x.calls| == 1 <==> PrimaryAnswer(primary).Some?
    ensures PrimaryAnswer(primary).Some? ==>
      x.reply == Reply(200, Body(PrimaryAnswer(primary).value.content, None, None, None, None, None))
    ensures PrimaryAnswer(primary).None? ==> x.reply == FallbackReply(gemini)
    ensures x.reply.status == 200 || x.reply.status == 500
  {
    match PrimaryAnswer(primary)
    case Some(choice) =>
      Exchange(Reply(200, Body(choice.content, None, None, None, None, None)), [Call(OpenAI, message)])
    case None =>
      Exchange(FallbackReply(gemini), [Call(OpenAI, message), Call(Gemini, message)])
  }

  /** Every two admission times, taken in order, are at least the minimum interval apart. */
  ghost predicate Spaced(times: seq<int>)
  {
    forall i, j :: 0 <= i < j < |times| ==> times[i] + MinRequestInterval <= times[j]
  }

  /** The server process: it owns `lastRequestTime`, shared by every request. */
  class ChatServer {
    var lastRequestTime: int
    /** The times of all admitted requests so far, oldest first. */
    ghost var admitted: seq<int>

    ghost predicate Valid()
      reads this
    {
      && (admitted == [] ==> lastRequestTime == 0)
      && (admitted != [] ==> lastRequestTime == admitted[|admitted| - 1])
      && (admitted != [] ==> admitted[0] >= MinRequestInterval)
      && Spaced(admitted)
    }

    /** The process starts with `lastRequestTime = 0`. */
    constructor ()
      ensures Valid()
      ensures lastRequestTime == 0 && admitted == []
    {
      lastRequestTime := 0;
      admitted := [];
    }

    /** The rate gate: reject when less than the interval has passed since the last
        admitted request; otherwise take the slot by recording `now`. */
    method Admit(now: int) returns (ok: bool)
      requires Valid()
      modifies this
      ensures Valid()
      ensures ok <==> now - old(lastRequestTime) >= MinRequestInterval
      ensures lastRequestTime == (if ok then now else old(lastRequestTime))
      ensures admitted == (if ok then old(admitted) + [now] else old(admitted))
    {
      if now - lastRequestTime < MinRequestInterval {
        return false;
      }
      lastRequestTime := now;
      admitted := admitted + [now];
      ok := true;
    }

    /** The `/chat` handler. The rate slot is taken before the message is looked at,
        so an admitted request without a message still uses it up. */
    method HandleChat(now: int, message: Option<string>, primary: PrimaryOutcome, gemini: GeminiOutcome)
      returns (reply: Reply, calls: seq<Call>)
      requires Valid()
      modifies this
      ensures Valid()
      ensures now - old(lastRequestTime) < MinRequestInterval ==>
        && reply == RateLimitedReply && calls == []
        && lastRequestTime == old(lastRequestTime) && admitted == old(admitted)
      ensures now - old(lastRequestTime) >= MinRequestInterval ==>
        && lastRequestTime == now && admitted == old(admitted) + [now]
        && (IsMissing(message) ==> reply == MissingMessageReply && calls == [])
        && (!IsMissing(message) ==> Exchange(reply, calls) == Route(message.value, primary, gemini))
    {
      var ok := Admit(now);
      if !ok {
        return RateLimitedReply, [];
      }
      if IsMissing(message) {
        return MissingMessageReply, [];
      }
      var x := Route(message.value, primary, gemini);
      reply, calls := x.reply, x.calls;
    }
  }

  /** On a freshly started server, the first request made at 1000 ms or later is admitted. */
  method FirstRequestAdmitted(now: int, message: Option<string>, primary: PrimaryOutcome, gemini: GeminiOutcome)
    returns (reply: Reply, calls: seq<Call>)
    requires now >= MinRequestInterval
    ensures reply.status != 429
    ensures IsMissing(message) ==> reply == MissingMessageReply
    ensures !IsMissing(message) ==> calls != [] && calls[0] == Call(OpenAI, message.value)
  {
    var server := new ChatServer();
    reply, calls := server.HandleChat(now, message, primary, gemini);
  }

  /** A request whose message is absent or empty still takes the slot: a real message
      sent less than the interval later is turned away, and no provider is asked. */
  method MissingMessageTakesSlot(
    now: int, delay: int, missing: Option<string>, message: string, primary: PrimaryOutcome, gemini: GeminiOutcome)
    returns (first: Reply, second: Reply, secondCalls: seq<Call>)
    requires now >= MinRequestInterval
    requires 0 <= delay < MinRequestInterval
    requires IsMissing(missing)
    ensures first == MissingMessageReply
    ensures second == RateLimitedReply && secondCalls == []
  {
    var server := new ChatServer();
    var firstCalls;
    first, firstCalls := server.HandleChat(now, missing, primary, gemini);
    second, secondCalls := server.HandleChat(now + delay, Some(message), primary, gemini);
  }

  /** Two requests closer together than the interval: the second one is rate limited
      and reaches no provider, whatever the first one's outcome was. */
  method RepeatWithinInterval(now: int, delay: int, message: string, primary: PrimaryOutcome, gemini: GeminiOutcome)
    returns (first: Reply, second: Reply, secondCalls: seq<Call>)
    requires now >= MinRequestInterval
    requires 0 <= delay < MinRequestInterval
    requires message != ""
    ensures first.status == 200 || first.status == 500
    ensures second == RateLimitedReply && secondCalls == []
  {
    var server := new ChatServer();
    var firstCalls;
    first, firstCalls := server.HandleChat(now, Some(message), primary, gemini);
    second, secondCalls := server.HandleChat(now + delay, Some(message), primary, gemini);
  }
}
