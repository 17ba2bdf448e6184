/**
 * `POST /api/agent` (src/app/api/agent/route.js): checks that the request
 * carries a `messages` array, forwards it unchanged to the chat-completion
 * service and relays the first choice's text, or wraps whatever was thrown
 * in a 500 error envelope. The messages are of any type `M`: the route never
 * looks inside them. The completion call is an input: the choices it
 * returned, or the error it threw.
 */
module AgentRoute {
  import opened Base

  /** What `await request.json()` and the destructuring of `{ messages }` produced. */
  datatype RequestBody<M> =
    | Unreadable(message: string)        // not JSON, or JSON `null`: the error's message
    | Parsed(messages: Option<seq<M>>)  // `messages` is an array, or is missing or no array

  /** The request handed to the completion service. */
  datatype ChatRequest<M> = ChatRequest(model: string, messages: seq<M>, maxTokens: int)

  /** `err.response` of an error from the completion client. */
  datatype ErrorResponse = ErrorResponse(status: int, statusText: string, data: string)

  /** What the completion call did: the `content` of each choice's message, or what it threw. */
  datatype Completion =
    | Choices(contents: seq<Option<string>>)
    | Threw(message: Option<string>, response: Option<ErrorResponse>)

  /** The `details` of the error envelope. */
  datatype Details = NoDetails | ResponseDetails(status: int, statusText: string, data: string)

  datatype Payload =
    | Invalid(error: string)
    | Reply(reply: Option<string>)
    | Failure(error: string, message: Option<string>, details: Details)

  datatype Response = Response(status: int, payload: Payload)

  /** The route's result: the request it sent upstream, if any, and its response. */
  datatype Exchange<M> = Exchange(sent: Option<ChatRequest<M>>, response: Response)

  const Model := "meta-llama/llama-4-maverick"
  const MaxTokens := 500
  const InvalidRequest := "Invalid request: messages array is required"
  const FailureMessage := "Failed to get AI response"
  /** The message of the `TypeError` V8 throws for `response.choices[0].message` when there is no choice. */
  const NoChoiceMessage := "Cannot read properties of undefined (reading 'message')"

  /** The catch block's envelope for a thrown error. */
  function Envelope(message: Option<string>, response: Option<ErrorResponse>): (r: Response)
    ensures r.status == 500 && r.payload.Failure? && r.payload.error == FailureMessage
    ensures r.payload.message == message
    ensures r.payload.details.ResponseDetails? <==> response.Some?
    ensures response.Some? ==>
      r.payload.details == ResponseDetails(response.value.status, response.value.statusText, response.value.data)
  {
    var details := match response
      case Some(e) => ResponseDetails(e.status, e.statusText, e.data)
      case None => NoDetails;
    Response(500, Failure(FailureMessage, message, details))
  }

  /** The route for a request body, given what the completion call does when it is made. */
  function Post<M>(body: RequestBody<M>, completion: Completion): (r: Exchange<M>)
    ensures r.sent.Some? <==> body.Parsed? && body.messages.Some?
    ensures r.sent.Some? ==> r.sent.value == ChatRequest(Model, body.messages.value, MaxTokens)
    ensures body.Parsed? && body.messages.None? ==> r.response == Response(400, Invalid(InvalidRequest))
    ensures body.Unreadable? ==> r.response == Envelope(Some(body.message), None)
    ensures r.sent.Some? && completion.Choices? && |completion.contents| > 0 ==>
      r.response == Response(200, Reply(completion.contents[0]))
    ensures r.sent.Some? && completion.Threw? ==>
      r.response == Envelope(completion.message, completion.response)
    ensures r.sent.Some? && completion == Choices([]) ==> r.response == Envelope(Some(NoChoiceMessage), None)
    ensures r.response.status == 200 || r.response.status == 400 || r.response.status == 500
  {
    match body
    case Unreadable(message) => Exchange(None, Envelope(Some(message), None))
    case Parsed(None) => Exchange(None, Response(400, Invalid(InvalidRequest)))
    case Parsed(Some(messages)) =>
      var request := ChatRequest(Model, messages, MaxTokens);
      var response := match completion
        case Threw(message, err) => Envelope(message, err)
        case Choices(contents) =>
          if |contents| == 0 then Envelope(Some(NoChoiceMessage), None)
          else Response(200, Reply(contents[0]));
      Exchange(Some(request), response)
  }

  /**
   * The status tells the cases apart: 400 exactly when the request lacks a
   * messages array, 200 exactly when the upstream was called and returned
   * a choice, and 500 for every error, whatever threw it.
   */
  lemma StatusClassifiesOutcome<M>(body: RequestBody<M>, completion: Completion)
    ensures var r := Post(body, completion);
      && (r.response.status == 400 <==> body.Parsed? && body.messages.None?)
      && (r.response.status == 200 <==> r.sent.Some? && completion.Choices? && |completion.contents| > 0)
      && (r.response.status == 500 <==> r.response.payload.Failure?)
  {
  }
}
