/**
  The `/api/chat` handler of the relay (mobile-backend/src/index.ts): it checks
  the API key, shapes the request for the model provider (system instruction,
  role-mapped and trimmed history, user parts), streams the provider's text
  fragments onto the response, and turns a thrown error into a 500 JSON reply
  unless the response has already started.

  The provider SDK is not modelled: what it does with the call is given as a
  `ProviderOutcome`.  The Express response is the class `ServerResponse`, which
  keeps what the handler can observe of it: status, the headers it sets, the
  fragments written, the JSON body sent, `headersSent` and whether it ended.
 */
module Relay {
  import opened Wrappers
  import opened JsStrings

  /** The model the handler asks the provider for. */
  const ModelName := "gemini-2.5-flash"

  const MissingKeyMessage := "GEMINI_API_KEY is not configured in .env"
  const InternalServerError := "Internal Server Error"

  /** One entry of the request's `history`, as the client sends it. */
  datatype HistoryEntry = HistoryEntry(role: string, content: string)

  /** The request body's fields the handler reads (`category` is sent but never read). */
  datatype ChatRequest = ChatRequest(
    message: string,
    history: Option<seq<HistoryEntry>>,
    customPrompt: Option<string>,
    image: Option<string>,
    mimeType: Option<string>)

  datatype Role = User | Model

  /** A part of a provider message: `{text}` or `{inlineData: {mimeType, data}}`. */
  datatype Part = TextPart(text: string) | InlineData(mimeType: string, data: string)

  /** A history turn as the provider takes it: `{role, parts}`. */
  datatype Content = Content(role: Role, parts: seq<Part>)

  /** What the handler hands the provider: the model settings, the chat history and the message parts. */
  datatype ProviderCall = ProviderCall(
    model: string,
    systemInstruction: string,
    history: seq<Content>,
    parts: seq<Part>)

  // ---------------------------------------------------------------------------
  // History

  function HistoryOrEmpty(history: Option<seq<HistoryEntry>>): seq<HistoryEntry> {
    match history
    case None => []
    case Some(h) => h
  }

  /** `msg.role === 'user' ? 'user' : 'model'`. */
  function RoleOf(role: string): Role {
    if role == "user" then User else Model
  }

  /**
    `(history || []).map(...)`: one turn per entry, in order, carrying the
    entry's content as its only text part; the role `user` stays a user turn
    and every other role becomes a model turn.
   */
  function MapHistory(history: Option<seq<HistoryEntry>>): (turns: seq<Content>)
    ensures |turns| == |HistoryOrEmpty(history)|
    ensures forall i :: 0 <= i < |turns| ==>
              && (turns[i].role == User <==> HistoryOrEmpty(history)[i].role == "user")
              && turns[i].parts == [TextPart(HistoryOrEmpty(history)[i].content)]
  {
    var h := HistoryOrEmpty(history);
    seq(|h|, i requires 0 <= i < |h| => Content(RoleOf(h[i].role), [TextPart(h[i].content)]))
  }

  /** `findIndex(m => m.role === 'user')`: the first user turn, or -1 when there is none. */
  function FirstUserIndex(turns: seq<Content>): (k: int)
    ensures k == -1 <==> forall i :: 0 <= i < |turns| ==> turns[i].role != User
    ensures k != -1 ==> 0 <= k < |turns| && turns[k].role == User
    ensures k != -1 ==> forall i :: 0 <= i < k ==> turns[i].role != User
  {
    if turns == [] then -1
    else if turns[0].role == User then 0
    else
      var k := FirstUserIndex(turns[1..]);
      if k == -1 then -1 else k + 1
  }

  /**
    The history from its first user turn on, or empty when it has no user turn:
    what is left is a suffix of the history, everything dropped is a model turn,
    and it is empty or starts with a user turn.
   */
  function TrimHistory(turns: seq<Content>): (r: seq<Content>)
    ensures |r| <= |turns| && r == turns[|turns| - |r|..]
    ensures forall i :: 0 <= i < |turns| - |r| ==> turns[i].role != User
    ensures r == [] <==> forall i :: 0 <= i < |turns| ==> turns[i].role != User
    ensures r != [] ==> r[0].role == User
  {
    var k := FirstUserIndex(turns);
    if k != -1 then turns[k..] else []
  }

  /** The history handed to `startChat`. */
  function PreparedHistory(history: Option<seq<HistoryEntry>>): seq<Content> {
    TrimHistory(MapHistory(history))
  }

  /** Trimming a trimmed history changes nothing. */
  lemma TrimHistoryIdempotent(turns: seq<Content>)
    ensures TrimHistory(TrimHistory(turns)) == TrimHistory(turns)
  {
    var r := TrimHistory(turns);
    if r != [] {
      assert FirstUserIndex(r) == 0;
    }
  }

  /** A history that already starts with a user turn is handed on whole. */
  lemma TrimHistoryKeepsUserStart(turns: seq<Content>)
    requires turns != [] && turns[0].role == User
    ensures TrimHistory(turns) == turns
  {
    assert FirstUserIndex(turns) == 0;
  }

  /**
    The prepared history holds exactly the request's entries from the first one
    whose role is `user`, each turned into a provider turn.
   */
  lemma PreparedHistoryFromFirstUser(history: Option<seq<HistoryEntry>>, k: nat)
    requires k < |HistoryOrEmpty(history)| && HistoryOrEmpty(history)[k].role == "user"
    requires forall i :: 0 <= i < k ==> HistoryOrEmpty(history)[i].role != "user"
    ensures PreparedHistory(history) == MapHistory(history)[k..]
    ensures |PreparedHistory(history)| == |HistoryOrEmpty(history)| - k
  {
    var turns := MapHistory(history);
    assert FirstUserIndex(turns) == k by {
      var j := FirstUserIndex(turns);
      assert turns[k].role == User;
      assert j != -1;
      assert !(j < k);
    }
  }

  /** A history with no user entry, or a missing history, is handed on empty. */
  lemma PreparedHistoryWithoutUser(history: Option<seq<HistoryEntry>>)
    requires forall i :: 0 <= i < |HistoryOrEmpty(history)| ==> HistoryOrEmpty(history)[i].role != "user"
    ensures PreparedHistory(history) == []
  {
    var turns := MapHistory(history);
    assert forall i :: 0 <= i < |turns| ==> turns[i].role != User;
  }

  // ---------------------------------------------------------------------------
  // System instruction

  const PersonaOpening: string := "You are Vanguard Core, "
  const PersonaLastLine: string :=
    "        Formatting Rule: Always use bold text for key terms and separate sections with blank lines."

  /** The default persona's text between the template literal's leading and trailing whitespace. */
  const PersonaText: string :=
    PersonaOpening + "a premium, high-intelligence AI developed by Nexus. \n"
    + "        Your responses must be:\n"
    + "        1. Sophisticated and Precise: Use expert-level language but remain clear.\n"
    + "        2. Aesthetically Structured: Use clean markdown, bullet points, and proper spacing.\n"
    + "        3. Efficient: Avoid unnecessary filler words.\n"
    + "        4. Problem-Solver: You can answer anything across all disciplines (Universal).\n"
    + "        \n"
    + PersonaLastLine

  /** The default persona as the template literal writes it: a line break and indentation around the text. */
  const PersonaTemplate: string := "\n        " + PersonaText + "\n      "

  /** The persona used when no custom prompt is given: the template literal, trimmed, which is its text. */
  function DefaultPersona(): (p: string)
    ensures p == PersonaText
    ensures p != "" && !IsWhitespace(p[0]) && !IsWhitespace(p[|p| - 1])
  {
    assert PersonaText[0] == 'Y' by {
      assert PersonaOpening[0] == 'Y';
    }
    assert PersonaText[|PersonaText| - 1] == '.' by {
      assert PersonaLastLine[|PersonaLastLine| - 1] == '.';
    }
    TrimOfPadded("\n        ", PersonaText, "\n      ");
    Trim(PersonaTemplate)
  }

  /** `customPrompt || default.trim()`: the custom prompt when it is a non-empty string, else the default persona. */
  function SystemInstruction(customPrompt: Option<string>): (s: string)
    ensures s != ""
    ensures Truthy(customPrompt) ==> s == customPrompt.value
    ensures !Truthy(customPrompt) ==> s == DefaultPersona()
  {
    if Truthy(customPrompt) then customPrompt.value else DefaultPersona()
  }

  /** An empty custom prompt falls back to the default persona, as a missing one does. */
  lemma EmptyPromptFallsBack()
    ensures SystemInstruction(Some("")) == SystemInstruction(None) == DefaultPersona()
  {
  }

  // ---------------------------------------------------------------------------
  // User parts

  /**
    `userParts`: the message as a text part, followed by the image as an
    inline-data part exactly when both `image` and `mimeType` are non-empty.
   */
  method UserParts(message: string, image: Option<string>, mimeType: Option<string>) returns (parts: seq<Part>)
    ensures 1 <= |parts| <= 2
    ensures parts[0] == TextPart(message)
    ensures |parts| == 2 <==> Truthy(image) && Truthy(mimeType)
    ensures |parts| == 2 ==> parts[1] == InlineData(mimeType.value, image.value)
  {
    parts := [TextPart(message)];
    if Truthy(image) && Truthy(mimeType) {
      parts := parts + [InlineData(mimeType.value, image.value)];
    }
  }

  // ---------------------------------------------------------------------------
  // Errors and the response

  /** A thrown `Error` object, as far as the catch block looks at it. */
  datatype JsError = JsError(name: string, message: string)

  /** `new Error(message)`. */
  function NewError(message: string): JsError {
    JsError("Error", message)
  }

  /** `Error.prototype.toString`: `name: message`, leaving out whichever of the two is empty. */
  function ErrorToString(e: JsError): (s: string)
    ensures e.name == "" ==> s == e.message
    ensures e.name != "" && e.message == "" ==> s == e.name
    ensures e.name != "" && e.message != "" ==> s == e.name + ": " + e.message
  {
    if e.name == "" then e.message
    else if e.message == "" then e.name
    else e.name + ": " + e.message
  }

  /** The JSON body of the 500 reply: `{success: false, error, details}`. */
  datatype ErrorReply = ErrorReply(success: bool, error: string, details: string)

  /** The 500 body for a thrown error: its message, or the fallback when the message is empty. */
  function ErrorReplyFor(e: JsError): (r: ErrorReply)
    ensures !r.success && r.error != ""
    ensures e.message != "" ==> r.error == e.message
    ensures e.message == "" ==> r.error == InternalServerError
    ensures r.details == ErrorToString(e)
  {
    ErrorReply(false, if e.message != "" then e.message else InternalServerError, ErrorToString(e))
  }

  /** What the response looks like to the client once the handler is done with it. */
  datatype Reply = Reply(
    status: int,
    headers: map<string, string>,
    written: seq<string>,
    json: Option<ErrorReply>,
    finished: bool)

  /** The Express response: `headersSent` turns true with the first fragment written or the body sent. */
  class ServerResponse {
    var status: int
    var headers: map<string, string>
    var written: seq<string>
    var json: Option<ErrorReply>
    var headersSent: bool
    var finished: bool

    function State(): Reply
      reads this
    {
      Reply(status, headers, written, json, finished)
    }

    /** A response nothing has been done to yet. */
    predicate Untouched()
      reads this
    {
      status == 200 && headers == map[] && written == [] && json == None && !headersSent && !finished
    }

    constructor ()
      ensures Untouched()
    {
      status := 200;
      headers := map[];
      written := [];
      json := None;
      headersSent := false;
      finished := false;
    }

    /** `res.setHeader(name, value)`, allowed only while the headers are unsent. */
    method SetHeader(name: string, value: string)
      requires !headersSent
      modifies this
      ensures headers == old(headers)[name := value]
      ensures status == old(status) && written == old(written) && json == old(json)
      ensures headersSent == old(headersSent) && finished == old(finished)
    {
      headers := headers[name := value];
    }

    /** `res.write(chunk)`: sends the headers, if not yet sent, and the fragment. */
    method Write(chunk: string)
      requires !finished
      modifies this
      ensures written == old(written) + [chunk]
      ensures headersSent
      ensures status == old(status) && headers == old(headers) && json == old(json) && finished == old(finished)
    {
      written := written + [chunk];
      headersSent := true;
    }

    /** `res.end()`. */
    method End()
      requires !finished
      modifies this
      ensures finished && headersSent
      ensures status == old(status) && headers == old(headers) && written == old(written) && json == old(json)
    {
      headersSent := true;
      finished := true;
    }

    /**
      The catch block's reply: `res.status(500).json(...)` when the headers
      are unsent, and nothing at all once they have been sent.
     */
    method ReportError(e: JsError)
      requires !finished || headersSent
      modifies this
      ensures old(headersSent) ==> State() == old(State()) && headersSent
      ensures !old(headersSent) ==> State() == Reply(500, old(headers), old(written), Some(ErrorReplyFor(e)), true)
      ensures headersSent
    {
      if !headersSent {
        status := 500;
        json := Some(ErrorReplyFor(e));
        headersSent := true;
        finished := true;
      }
    }
  }

  /** What the provider does with the call: reject it at once, or stream fragments and perhaps fail along the way. */
  datatype ProviderOutcome =
    | Rejected(error: JsError)
    | Streamed(fragments: seq<string>, failure: Option<JsError>)

  /** The headers the handler sets before streaming. */
  const StreamHeaders: map<string, string> :=
    map["Content-Type" := "text/plain; charset=utf-8", "Transfer-Encoding" := "chunked"]

  /** The reply to an error thrown while the headers are unsent, with the headers set so far. */
  function ErrorReplyState(headers: map<string, string>, e: JsError): Reply {
    Reply(500, headers, [], Some(ErrorReplyFor(e)), true)
  }

  /**
    The reply the handler produces: a missing key or a rejected call gets the
    500 JSON reply before any header is set; a stream that completes is
    written out whole and ended; a stream that fails gets the 500 JSON reply
    if nothing was written yet, and otherwise stays as written, never ended.
   */
  function ExpectedReply(apiKey: Option<string>, outcome: ProviderOutcome): Reply {
    if !Truthy(apiKey) then ErrorReplyState(map[], NewError(MissingKeyMessage))
    else match outcome
      case Rejected(e) => ErrorReplyState(map[], e)
      case Streamed(fragments, None) => Reply(200, StreamHeaders, fragments, None, true)
      case Streamed(fragments, Some(e)) =>
        if fragments == [] then ErrorReplyState(StreamHeaders, e)
        else Reply(200, StreamHeaders, fragments, None, false)
  }

  /** `for await (const chunk of result.stream) res.write(chunk.text())`. */
  method WriteAll(res: ServerResponse, fragments: seq<string>)
    requires !res.finished
    modifies res
    ensures res.written == old(res.written) + fragments
    ensures res.headersSent <==> old(res.headersSent) || fragments != []
    ensures res.status == old(res.status) && res.headers == old(res.headers)
    ensures res.json == old(res.json) && !res.finished
  {
    for i := 0 to |fragments|
      invariant res.written == old(res.written) + fragments[..i]
      invariant res.headersSent <==> old(res.headersSent) || i > 0
      invariant res.status == old(res.status) && res.headers == old(res.headers)
      invariant res.json == old(res.json) && !res.finished
    {
      assert fragments[..i + 1] == fragments[..i] + [fragments[i]];
      res.Write(fragments[i]);
    }
    assert fragments[..|fragments|] == fragments;
  }

  /** The call built from the request: the system instruction, the prepared history and the user parts. */
  method ShapeCall(req: ChatRequest) returns (call: ProviderCall)
    ensures call.model == ModelName
    ensures call.systemInstruction == SystemInstruction(req.customPrompt)
    ensures call.history == PreparedHistory(req.history)
    ensures |call.parts| >= 1 && call.parts[0] == TextPart(req.message)
    ensures |call.parts| <= 2
    ensures |call.parts| == 2 <==> Truthy(req.image) && Truthy(req.mimeType)
    ensures |call.parts| == 2 ==> call.parts[1] == InlineData(req.mimeType.value, req.image.value)
  {
    var instruction := SystemInstruction(req.customPrompt);
    var history := PreparedHistory(req.history);
    var parts := UserParts(req.message, req.image, req.mimeType);
    call := ProviderCall(ModelName, instruction, history, parts);
  }

  /**
    The `try` block from the provider call on: set the streaming headers, write
    every fragment, end the response; the error the provider raises, if any,
    is handed back to the catch block.
   */
  method StreamProviderReply(outcome: ProviderOutcome, res: ServerResponse) returns (thrown: Option<JsError>)
    requires res.Untouched()
    modifies res
    ensures outcome.Rejected? ==> thrown == Some(outcome.error) && res.Untouched()
    ensures outcome.Streamed? ==> thrown == outcome.failure
    ensures outcome.Streamed? ==>
              && res.status == 200 && res.headers == StreamHeaders && res.json == None
              && res.written == outcome.fragments && (res.headersSent <==> outcome.fragments != [] || outcome.failure.None?)
              && (res.finished <==> outcome.failure.None?)
  {
    match outcome {
      case Rejected(e) =>
        thrown := Some(e);
      case Streamed(fragments, failure) =>
        res.SetHeader("Content-Type", "text/plain; charset=utf-8");
        res.SetHeader("Transfer-Encoding", "chunked");
        WriteAll(res, fragments);
        thrown := failure;
        if failure.None? {
          res.End();
        }
    }
  }

  /**
    The `/api/chat` handler.  `apiKey` is `process.env.GEMINI_API_KEY`; the
    provider's answer to the call is `outcome`.
   */
  method HandleChat(req: ChatRequest, apiKey: Option<string>, outcome: ProviderOutcome, res: ServerResponse)
    returns (call: Option<ProviderCall>)
    requires res.Untouched()
    modifies res
    ensures res.State() == ExpectedReply(apiKey, outcome)
    ensures !Truthy(apiKey) ==> call == None
    ensures Truthy(apiKey) ==>
              && call.Some? && call.value.model == ModelName
              && call.value.systemInstruction == SystemInstruction(req.customPrompt)
              && call.value.history == PreparedHistory(req.history)
              && |call.value.parts| >= 1 && call.value.parts[0] == TextPart(req.message)
              && |call.value.parts| <= 2
              && (|call.value.parts| == 2 <==> Truthy(req.image) && Truthy(req.mimeType))
              && (|call.value.parts| == 2 ==> call.value.parts[1] == InlineData(req.mimeType.value, req.image.value))
  {
    call := None;
    var thrown: Option<JsError>;
    if !Truthy(apiKey) {
      thrown := Some(NewError(MissingKeyMessage));
    } else {
      var shaped := ShapeCall(req);
      call := Some(shaped);
      thrown := StreamProviderReply(outcome, res);
    }
    if thrown.Some? {
      res.ReportError(thrown.value);
    }
  }

  // ---------------------------------------------------------------------------
  // Properties of the handler

  /** A missing or empty key fails before any header is set or any call is made, with the 500 JSON reply. */
  lemma MissingKeyReply(apiKey: Option<string>, outcome: ProviderOutcome)
    requires !Truthy(apiKey)
    ensures ExpectedReply(apiKey, outcome)
         == Reply(500, map[], [], Some(ErrorReply(false, MissingKeyMessage, "Error: " + MissingKeyMessage)), true)
  {
    var e := NewError(MissingKeyMessage);
    assert MissingKeyMessage != "";
    assert ErrorToString(e) == "Error: " + MissingKeyMessage;
    assert ErrorReplyFor(e) == ErrorReply(false, MissingKeyMessage, "Error: " + MissingKeyMessage);
  }

  /** An error gets a JSON body exactly when nothing was written before it; no JSON body follows a success. */
  lemma JsonBodyIffNothingWritten(apiKey: Option<string>, outcome: ProviderOutcome)
    ensures ExpectedReply(apiKey, outcome).json.Some?
        <==> !Truthy(apiKey) || outcome.Rejected? || (outcome.failure.Some? && outcome.fragments == [])
    ensures ExpectedReply(apiKey, outcome).json.Some? ==> ExpectedReply(apiKey, outcome).written == []
    ensures ExpectedReply(apiKey, outcome).json.Some? <==> ExpectedReply(apiKey, outcome).status == 500
  {
  }

  /** A stream that completes is written out whole, in order, and the response ends with status 200. */
  lemma CompletedStreamReply(apiKey: Option<string>, fragments: seq<string>)
    requires Truthy(apiKey)
    ensures var r := ExpectedReply(apiKey, Streamed(fragments, None));
            r.status == 200 && r.written == fragments && r.json == None && r.finished
  {
  }

  /** Once a fragment has been written, a failing stream leaves the response as written and never ends it. */
  lemma MidStreamFailureLeavesOpen(apiKey: Option<string>, fragments: seq<string>, e: JsError)
    requires Truthy(apiKey) && fragments != []
    ensures var r := ExpectedReply(apiKey, Streamed(fragments, Some(e)));
            r.status == 200 && r.written == fragments && r.json == None && !r.finished
  {
  }

  /** Whatever happens, the response carries at most one of streamed text and a JSON body. */
  lemma TextOrJsonNotBoth(apiKey: Option<string>, outcome: ProviderOutcome)
    ensures ExpectedReply(apiKey, outcome).written == [] || ExpectedReply(apiKey, outcome).json == None
  {
  }
}
