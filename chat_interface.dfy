/** The chat widget's client state: an append-only message list, the input box
    and a loading flag, changed by `handleSend` in two steps around its request. */
module ChatInterface {
  import opened Wrappers
  import opened Text
  import ChatRoute

  datatype Message = Message(id: string, text: string, isUser: bool, timestamp: int)

  const GreetingText := "Hello! I'm Paani's digital marketing assistant. How can I help you with our services today?"

  /** The one message the widget starts with; `now` is the time it was created. */
  function Greeting(now: int): Message {
    Message("initial", GreetingText, false, now)
  }

  /** The fixed instructions that precede the conversation in the `context` field. */
  const ContextPreamble := @"You are Paani Digital Marketing's AI assistant. Help users with our services:

Services:
1. Social Media Management (NPR 500/platform)
   • Content creation & management
   • Social media strategy
   • Community engagement

2. Brand Video Production (NPR 3000/video)
   • Professional quality videos
   • Custom branding
   • Creative storytelling

3. Digital Gateway Board (NPR 2500-6500)
   • Custom digital solutions
   • Strategic implementation

Plans:
1. Basic Plan - NPR 3,500/month
   ✓ FB/Insta Boost ($5)
   ✓ 12 Social Media Posts
   ✓ All Festival Contents

2. Standard Plan - NPR 6,060/month
   ✓ FB/Insta boost ($15)
   ✓ 16 Social Media Posts
   ✓ All Festival Contents
   ✓ Social Media Handling

3. Premium Plan - NPR 13,460/month
   ✓ 16 Custom Posts
   ✓ Social Media Handling
   ✓ Social Media Boost ($26)
   ✓ Brand Video Content

Response Guidelines:
• Keep responses focused on user questions
• Use numbered lists for plans
• Format prices clearly
• Be concise and professional
• End with relevant follow-up questions

Current conversation: "

  // ---------------------------------------------------------------------------
  // The transcript: `messages.map(m => `${m.isUser ? 'User' : 'Assistant'}: ${m.text}`).join('\n')`

  function Speaker(isUser: bool): string {
    if isUser then "User" else "Assistant"
  }

  function Line(m: Message): string {
    Speaker(m.isUser) + ": " + m.text
  }

  function Lines(ms: seq<Message>): (r: seq<string>)
    ensures |r| == |ms|
    ensures forall i :: 0 <= i < |ms| ==> r[i] == Line(ms[i])
  {
    if ms == [] then [] else [Line(ms[0])] + Lines(ms[1..])
  }

  function Transcript(ms: seq<Message>): string {
    Join(Lines(ms), '\n')
  }

  /** The `context` the client sends for a conversation. */
  function Context(ms: seq<Message>): string {
    ContextPreamble + Transcript(ms)
  }

  /** Reads one transcript line back into who spoke and what was said. */
  function ParseLine(l: string): Option<(bool, string)> {
    if |l| >= 6 && l[..6] == "User: " then Some((true, l[6..]))
    else if |l| >= 11 && l[..11] == "Assistant: " then Some((false, l[11..]))
    else None
  }

  lemma ParseLineOfLine(m: Message)
    ensures ParseLine(Line(m)) == Some((m.isUser, m.text))
  {
    var l := Line(m);
    if m.isUser {
      assert l[..6] == "User: " && l[6..] == m.text;
    } else {
      assert l[..6] != "User: " by { assert l[0] == 'A'; }
      assert l[..11] == "Assistant: " && l[11..] == m.text;
    }
  }

  lemma LineHasNoNewline(m: Message)
    requires '\n' !in m.text
    ensures '\n' !in Line(m)
  {
  }

  /** Who said what, in order: what the transcript is meant to convey. */
  function Said(ms: seq<Message>): (r: seq<(bool, string)>)
    ensures |r| == |ms|
    ensures forall i :: 0 <= i < |ms| ==> r[i] == (ms[i].isUser, ms[i].text)
  {
    if ms == [] then [] else [(ms[0].isUser, ms[0].text)] + Said(ms[1..])
  }

  /** Parses every line of a split transcript; `None` if one does not parse. */
  function ParseLines(ls: seq<string>): Option<seq<(bool, string)>> {
    if ls == [] then Some([])
    else
      match (ParseLine(ls[0]), ParseLines(ls[1..]))
      case (Some(x), Some(xs)) => Some([x] + xs)
      case _ => None
  }

  lemma {:induction false} ParseLinesOfLines(ms: seq<Message>)
    ensures ParseLines(Lines(ms)) == Some(Said(ms))
  {
    if ms != [] {
      ParseLineOfLine(ms[0]);
      assert Lines(ms)[1..] == Lines(ms[1..]);
      ParseLinesOfLines(ms[1..]);
      assert Said(ms) == [(ms[0].isUser, ms[0].text)] + Said(ms[1..]);
    }
  }

  /** When no message contains a line break, the transcript lists every message,
      in order, with its speaker: splitting it into lines and reading each line
      recovers the conversation. */
  lemma TranscriptRoundTrip(ms: seq<Message>)
    requires |ms| > 0
    requires forall i :: 0 <= i < |ms| ==> '\n' !in ms[i].text
    ensures ParseLines(Split(Transcript(ms), '\n')) == Some(Said(ms))
  {
    forall k | 0 <= k < |Lines(ms)|
      ensures '\n' !in Lines(ms)[k]
    {
      LineHasNoNewline(ms[k]);
    }
    SplitJoin(Lines(ms), '\n');
    ParseLinesOfLines(ms);
  }

  /** Without the no-line-break condition the transcript is ambiguous: a message
      whose text continues with a line break and a second message's line gives
      the same transcript as the two messages, although the conversations differ. */
  lemma LineBreakMimicsNextMessage(m: Message, n: Message)
    ensures Transcript([m.(text := m.text + "\n" + Line(n))]) == Transcript([m, n])
    ensures Said([m.(text := m.text + "\n" + Line(n))]) != Said([m, n])
  {
    var joined := m.(text := m.text + "\n" + Line(n));
    assert Line(joined) == Line(m) + "\n" + Line(n);
    assert Transcript([joined]) == Line(joined);
    var ls := Lines([m, n]);
    assert ls == [Line(m), Line(n)];
    assert ls[1..] == [Line(n)];
    assert Join(ls, '\n') == Line(m) + "\n" + Line(n);
  }

  /** A new message adds one line at the end of the transcript. */
  lemma TranscriptAppend(ms: seq<Message>, m: Message)
    requires |ms| > 0
    ensures Transcript(ms + [m]) == Transcript(ms) + "\n" + Line(m)
  {
    JoinAppend(Lines(ms), Line(m), '\n');
    assert Lines(ms + [m]) == Lines(ms) + [Line(m)];
  }

  lemma {:induction false} JoinAppend(ls: seq<string>, l: string, sep: char)
    requires |ls| > 0
    ensures Join(ls + [l], sep) == Join(ls, sep) + [sep] + l
  {
    if |ls| > 1 {
      assert (ls + [l])[1..] == ls[1..] + [l];
      JoinAppend(ls[1..], l, sep);
    } else {
      assert (ls + [l])[1..] == [l];
    }
  }

  // ---------------------------------------------------------------------------
  // The reply step

  /** How the request ended: a response that is not ok (its status and the
      `error` of its body), an ok response (its `response`), or a thrown failure
      (an `Error`'s message, or `None` for any other thrown value). */
  datatype ChatOutcome = HttpError(status: nat, error: Option<string>) | Replied(response: string) | Threw(message: Option<string>)

  const Apology := "I apologize, but I encountered an error: "

  /** The text of the assistant message that the outcome adds. */
  function ReplyText(o: ChatOutcome): (t: string)
    ensures !o.Replied? ==> |t| >= |Apology| && t[..|Apology|] == Apology
    ensures o.Replied? ==> t == o.response
    ensures o.HttpError? ==>
              t[|Apology|..] == (if o.error.Some? && o.error.value != "" then o.error.value
                                 else "HTTP error! status: " + Decimal(o.status))
    ensures o.Threw? ==> t[|Apology|..] == o.message.GetOr("An unexpected error occurred")
  {
    match o
    case Replied(response) => response
    case HttpError(status, error) =>
      Apology + (if error.Some? && error.value != "" then error.value else "HTTP error! status: " + Decimal(status))
    case Threw(message) => Apology + message.GetOr("An unexpected error occurred")
  }

  /** What the client makes of a route response: `response.ok` holds for 2xx,
      which the route only sends with an answer. */
  function ClientOutcome(r: ChatRoute.ChatResponse): (o: ChatOutcome)
    requires r.status >= 0
    requires 200 <= r.status < 300 ==> r.body.Answer?
    ensures o.Replied? <==> 200 <= r.status < 300
    ensures o.Replied? ==> o.response == r.body.response
    ensures o.HttpError? ==> o.status == r.status
    ensures !(200 <= r.status < 300) ==> o.HttpError?
    ensures o.HttpError? ==> o.error == (if r.body.Failure? then Some(r.body.error) else None)
  {
    if 200 <= r.status < 300 then Replied(r.body.response)
    else HttpError(r.status, if r.body.Failure? then Some(r.body.error) else None)
  }

  /** The request `handleSend` posts. */
  datatype Outgoing = Outgoing(question: string, context: string)

  class ChatSession {
    var messages: seq<Message>
    var input: string
    var isLoading: bool

    /** The conversation always starts with the greeting, and while a request is
        in flight the last message is the user's. */
    ghost predicate Valid()
      reads this
    {
      && |messages| > 0
      && messages[0].id == "initial" && messages[0].text == GreetingText && !messages[0].isUser
      && (isLoading ==> messages[|messages| - 1].isUser)
    }

    constructor (now: int)
      ensures Valid()
      ensures messages == [Greeting(now)] && input == "" && !isLoading
    {
      messages := [Greeting(now)];
      input := "";
      isLoading := false;
    }

    /** The input box's `onChange`. */
    method SetInput(v: string)
      requires Valid()
      modifies this`input
      ensures Valid() && input == v
    {
      input := v;
    }

    /** `handleSend` up to its request. A blank input changes nothing and sends
        nothing; otherwise the untrimmed input is appended as a user message, the
        box is cleared, loading starts, and the request carries the input and the
        context with the whole conversation including the new message. `id` and
        `now` are the generated id and the current time. */
    method BeginSend(id: string, now: int) returns (request: Option<Outgoing>)
      requires Valid() && !isLoading
      modifies this`messages, this`input, this`isLoading
      ensures Valid()
      ensures IsBlank(old(input)) ==>
                request.None? && messages == old(messages) && input == old(input) && !isLoading
      ensures !IsBlank(old(input)) ==>
                && messages == old(messages) + [Message(id, old(input), true, now)]
                && input == "" && isLoading
                && request == Some(Outgoing(old(input), Context(messages)))
    {
      if IsBlank(input) {
        return None;
      }
      var userMessage := Message(id, input, true, now);
      var updatedMessages := messages + [userMessage];
      messages := updatedMessages;
      request := Some(Outgoing(input, Context(updatedMessages)));
      input := "";
      isLoading := true;
    }

    /** `handleSend` after its request: exactly one assistant message is
        appended, and loading ends. */
    method FinishSend(outcome: ChatOutcome, id: string, now: int)
      requires Valid() && isLoading
      modifies this`messages, this`isLoading
      ensures Valid()
      ensures messages == old(messages) + [Message(id, ReplyText(outcome), false, now)]
      ensures !isLoading
    {
      var text := ReplyText(outcome);
      messages := messages + [Message(id, text, false, now)];
      isLoading := false;
    }
  }

  // ---------------------------------------------------------------------------
  // Client and route together

  /** A request the client sends always passes the route's validation, so the
      route always calls the text-generation service for it. */
  lemma ClientRequestsAreValid(input: string, ms: seq<Message>, upstream: ChatRoute.Upstream, nodeEnv: string)
    requires !IsBlank(input)
    ensures var body := ChatRoute.ChatBody(Some(input), Some(Context(ms)));
            ChatRoute.HandleChat(body, upstream, nodeEnv).1 == Some(ChatRoute.Prompt(Context(ms), input))
  {
    PreambleNotEmpty();
    assert |Context(ms)| >= |ContextPreamble|;
    assert input != "";
  }

  lemma PreambleNotEmpty()
    ensures |ContextPreamble| > 0
  {
  }

  /** End to end: the assistant's reply is the generated text, or, when the
      service fails, the apology followed by the route's error. */
  lemma ReplyForRouteResponse(input: string, ms: seq<Message>, upstream: ChatRoute.Upstream, nodeEnv: string)
    requires !IsBlank(input)
    ensures var response := ChatRoute.HandleChat(ChatRoute.ChatBody(Some(input), Some(Context(ms))), upstream, nodeEnv).0;
            && response.status >= 0
            && ReplyText(ClientOutcome(response))
               == if upstream.Generated? then upstream.text else Apology + "Failed to process request"
  {
    ClientRequestsAreValid(input, ms, upstream, nodeEnv);
  }
}
