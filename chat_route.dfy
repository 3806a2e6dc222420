/** `POST /api/chat`: validates the request, builds the prompt, forwards it to the
    text-generation service and maps the outcome to a response. The service's
    reply is a parameter. */
module ChatRoute {
  import opened Wrappers
  import opened Text

  /** The request body: one that does not parse (the parser's error message), or
      the `question` and `context` fields, each possibly absent. */
  datatype ChatRequest = UnreadableBody(message: string) | ChatBody(question: Option<string>, context: Option<string>)

  /** How the upstream call ended: generated text, a thrown `Error` with its
      message, or a thrown value that is not an `Error`. */
  datatype Upstream = Generated(text: string) | UpstreamError(message: string) | UpstreamNonError

  datatype ChatResponseBody = Answer(response: string) | Failure(error: string, details: Option<string>)

  datatype ChatResponse = ChatResponse(status: int, body: ChatResponseBody)

  const Separator := "\n\nQuestion: "
  const MissingFields := ChatResponse(400, Failure("Question and context are required", None))
  const ProcessingFailed := "Failed to process request"

  /** A JavaScript-truthy optional string: present and non-empty. */
  predicate Given(x: Option<string>) {
    x.Some? && Truthy(x.value)
  }

  /** `${context}\n\nQuestion: ${question}`. */
  function Prompt(context: string, question: string): string {
    context + Separator + question
  }

  /** The prompt keeps the context as its head and the question as its tail, so
      for a given context it determines the question. */
  lemma PromptParts(context: string, question: string)
    ensures Prompt(context, question)[..|context|] == context
    ensures Prompt(context, question)[|context|..|context| + |Separator|] == Separator
    ensures Prompt(context, question)[|context| + |Separator|..] == question
  {
  }

  lemma PromptInjective(context: string, q1: string, q2: string)
    requires Prompt(context, q1) == Prompt(context, q2)
    ensures q1 == q2
  {
    PromptParts(context, q1);
    PromptParts(context, q2);
  }

  /** The error response for a thrown value; `details` only in development. */
  function ErrorResponse(thrown: Option<string>, nodeEnv: string): (r: ChatResponse)
    ensures r.status == 500 && r.body.Failure? && r.body.error == ProcessingFailed
    ensures r.body.details.Some? <==> nodeEnv == "development"
    ensures r.body.details.Some? && thrown.Some? ==> r.body.details.value == thrown.value
    ensures r.body.details.Some? && thrown.None? ==> r.body.details.value == "Unknown error"
  {
    var dev := nodeEnv == "development";
    ChatResponse(500, Failure(ProcessingFailed,
      if !dev then None else Some(thrown.GetOr("Unknown error"))))
  }

  /** The handler. Returns the response and the prompt passed upstream, which is
      `None` when the upstream service is not called. */
  function HandleChat(request: ChatRequest, upstream: Upstream, nodeEnv: string): (r: (ChatResponse, Option<string>))
    // the upstream is called exactly for a parsed body with both fields given
    ensures r.1.Some? <==> request.ChatBody? && Given(request.question) && Given(request.context)
    ensures r.1.Some? ==> r.1.value == Prompt(request.context.value, request.question.value)
    // missing or empty fields: 400, nothing else happens
    ensures request.ChatBody? && !(Given(request.question) && Given(request.context)) ==> r.0 == MissingFields
    ensures r.0.status == 400 <==> request.ChatBody? && !(Given(request.question) && Given(request.context))
    // success carries the generated text unchanged
    ensures r.0.status == 200 <==> r.1.Some? && upstream.Generated?
    ensures r.0.status == 200 ==> r.0.body == Answer(upstream.text)
    // every other outcome is a 500 whose details appear only in development
    ensures r.0.status !in {200, 400} ==> r.0.status == 500 && r.0.body.Failure? && r.0.body.error == ProcessingFailed
    ensures r.0.body.Failure? && r.0.body.details.Some? ==> nodeEnv == "development" && r.0.status == 500
    ensures r.0.status == 500 && nodeEnv == "development" ==>
              r.0.body.details == Some(
                if request.UnreadableBody? then request.message
                else if upstream.UpstreamError? then upstream.message
                else "Unknown error")
  {
    match request
    case UnreadableBody(message) => (ErrorResponse(Some(message), nodeEnv), None)
    case ChatBody(question, context) =>
      if !Given(question) || !Given(context) then (MissingFields, None)
      else
        var prompt := Prompt(context.value, question.value);
        match upstream
        case Generated(text) => (ChatResponse(200, Answer(text)), Some(prompt))
        case UpstreamError(message) => (ErrorResponse(Some(message), nodeEnv), Some(prompt))
        case UpstreamNonError => (ErrorResponse(None, nodeEnv), Some(prompt))
  }
}
