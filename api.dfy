/**
  The client side of the chat relay (services/api.ts): the streaming decoder
  `sendMessageToAIStream`, which turns the relay's response into a sequence of
  `text` and `json` events, and `sendMessageToAI`, which folds those events
  into a single `ChatResponse`.

  The network is not modelled: what `fetch` and `reader.read()` produce is given
  as an `HttpOutcome` value whose chunks are already decoded text.  `JSON.parse`
  is the parameter `parse`, a `JsonParser` that holds the texts it accepts.
 */
module Api {
  import opened Wrappers
  import opened JsStrings

  /** The reserved marker that separates streamed text from the terminal JSON payload. */
  const Marker := "__JSON__"

  /** The relay address used when `EXPO_PUBLIC_API_URL` is not set. */
  const DefaultApiUrl := "http://127.0.0.1:3000"

  const NotOkFallback := "Failed to fetch response from AI"
  const NullBodyMessage := "Response body is null"
  const UnexpectedError := "An unexpected error occurred"

  /**
    `JSON.parse` of a payload into a response object: the texts it accepts,
    with the object each parses to; on any other text the call throws.
   */
  type JsonParser = imap<string, ChatResponse>

  datatype ChatResponse = ChatResponse(
    success: bool,
    message: string,
    image: Option<string>,
    imagePrompt: Option<string>,
    error: Option<string>)

  /** One value yielded by the decoder: `{type: 'text', data}` or `{type: 'json', data}`. */
  datatype Event = Text(text: string) | Json(response: ChatResponse)

  /** A thrown JavaScript error, as far as the catch block looks at it. */
  datatype Thrown = Thrown(isTypeError: bool, message: string)

  /** What `response.json()` gives for a non-ok response: a rejection, or an object with an optional `error` field. */
  datatype ErrorBody = Unreadable(thrown: Thrown) | ErrorJson(error: Option<string>)

  /** How reading stops once the chunks are exhausted: `done`, or `reader.read()` rejects. */
  datatype StreamEnd = Done | ReadFailed(thrown: Thrown)

  /** What the network does with the request. */
  datatype HttpOutcome =
    | FetchRejected(thrown: Thrown)
    | NotOk(body: ErrorBody)
    | NullBody
    | Body(chunks: seq<string>, end: StreamEnd)

  /** `API_URL`: the configured relay address if set and non-empty, else the default. */
  function ApiUrl(configured: Option<string>): (url: string)
    ensures url != ""
    ensures Truthy(configured) ==> url == configured.value
    ensures !Truthy(configured) ==> url == DefaultApiUrl
  {
    if Truthy(configured) then configured.value else DefaultApiUrl
  }

  /** `JSON.parse(text)`, or None where it throws. */
  function ParseJson(parse: JsonParser, text: string): (r: Option<ChatResponse>)
    ensures r.Some? <==> text in parse
    ensures r.Some? ==> r.value == parse[text]
  {
    if text in parse then Some(parse[text]) else None
  }

  /** The two halves of the message for a failed connection, around the relay address. */
  const ConnectFailureOpening := "Failed to connect to AI server at "
  const ConnectFailureClosing := ". Please ensure the backend is running."

  /** The message reported when `fetch` itself fails. */
  function ConnectFailureMessage(apiUrl: string): string {
    ConnectFailureOpening + apiUrl + ConnectFailureClosing
  }

  /** The connection-failure message names the relay address it tried to reach. */
  lemma ConnectFailureNamesUrl(apiUrl: string)
    ensures Includes(ConnectFailureMessage(apiUrl), apiUrl)
  {
    var msg := ConnectFailureMessage(apiUrl);
    var k := |ConnectFailureOpening|;
    assert msg[k..k + |apiUrl|] == apiUrl;
    assert OccursAt(msg, apiUrl, k);
    IncludesMeans(msg, apiUrl);
  }

  /**
    The message the catch block reports for a thrown error: the connection
    failure for a `TypeError` that mentions `fetch`; otherwise the error's own
    message, or the fallback when that is empty.
   */
  function ErrorMessage(t: Thrown, apiUrl: string): (msg: string)
    ensures msg != ""
  {
    if t.isTypeError && Includes(t.message, "fetch") then ConnectFailureMessage(apiUrl)
    else if t.message != "" then t.message
    else UnexpectedError
  }

  /** Which message the catch block reports, case by case. */
  lemma ErrorMessageCases(t: Thrown, apiUrl: string)
    ensures t.isTypeError && Includes(t.message, "fetch") ==>
              ErrorMessage(t, apiUrl) == ConnectFailureMessage(apiUrl) && Includes(ErrorMessage(t, apiUrl), apiUrl)
    ensures !(t.isTypeError && Includes(t.message, "fetch")) && t.message != "" ==> ErrorMessage(t, apiUrl) == t.message
    ensures t.message == "" ==> ErrorMessage(t, apiUrl) == UnexpectedError
  {
    ConnectFailureNamesUrl(apiUrl);
  }

  /** The error thrown for a non-ok response: the server's `error` field, or the fallback. */
  function NotOkThrown(body: ErrorBody): Thrown {
    match body
    case Unreadable(t) => t
    case ErrorJson(e) => Thrown(false, if Truthy(e) then e.value else NotOkFallback)
  }

  /** The single event the catch block yields. */
  function FailureEvent(msg: string): Event {
    Json(ChatResponse(false, "", None, None, Some(msg)))
  }

  predicate HasMarker(chunk: string) {
    Includes(chunk, Marker)
  }

  /** The index of the first chunk that holds the marker, or the number of chunks if none does. */
  function FirstMarked(chunks: seq<string>): (k: nat)
    ensures k <= |chunks|
    ensures k < |chunks| ==> HasMarker(chunks[k])
  {
    if chunks == [] then 0
    else if HasMarker(chunks[0]) then 0
    else 1 + FirstMarked(chunks[1..])
  }

  /** No chunk before the first marked one holds the marker. */
  lemma {:induction false} FirstMarkedIsFirst(chunks: seq<string>, i: nat)
    requires i < FirstMarked(chunks)
    ensures !HasMarker(chunks[i])
  {
    if i > 0 {
      FirstMarkedIsFirst(chunks[1..], i - 1);
    }
  }

  /** Each chunk passed through as one `text` event. */
  function TextEvents(chunks: seq<string>): (events: seq<Event>)
    ensures |events| == |chunks|
    ensures forall i :: 0 <= i < |chunks| ==> events[i] == Text(chunks[i])
  {
    if chunks == [] then [] else TextEvents(chunks[..|chunks| - 1]) + [Text(chunks[|chunks| - 1])]
  }

  /** The text in front of the first marker of a chunk. */
  function TextBeforeMarker(chunk: string): string
    requires HasMarker(chunk)
  {
    chunk[..IndexOf(chunk, Marker, 0)]
  }

  /** The text after the first marker of a chunk, up to the next marker or the end of the chunk. */
  function PayloadText(chunk: string): string
    requires HasMarker(chunk)
  {
    var k := IndexOf(chunk, Marker, 0) + |Marker|;
    var j := IndexOf(chunk, Marker, k);
    if j == -1 then chunk[k..] else chunk[k..j]
  }

  /**
    The events of the first chunk that holds the marker: the text before the
    marker when non-empty, then the parsed payload when it parses.
   */
  function MarkerEvents(chunk: string, parse: JsonParser): seq<Event>
    requires HasMarker(chunk)
  {
    (if TextBeforeMarker(chunk) != "" then [Text(TextBeforeMarker(chunk))] else [])
    + (match ParseJson(parse, PayloadText(chunk)) case Some(r) => [Json(r)] case None => [])
  }

  /** `chunk.split('__JSON__')` puts the text before the first marker at index 0 and the payload at index 1. */
  lemma SplitPieces(chunk: string)
    requires HasMarker(chunk)
    ensures |Split(chunk, Marker)| >= 2
    ensures Split(chunk, Marker)[0] == TextBeforeMarker(chunk)
    ensures Split(chunk, Marker)[1] == PayloadText(chunk)
  {
    SplitSecondPiece(chunk, Marker);
  }

  /** The events after the last chunk when no chunk held the marker. */
  function EndEvents(end: StreamEnd, apiUrl: string): seq<Event> {
    match end
    case Done => []
    case ReadFailed(t) => [FailureEvent(ErrorMessage(t, apiUrl))]
  }

  /**
    The decoder's output on a body: every chunk before the first marked one as
    text, then that chunk's events; with no marked chunk, the end-of-stream events.
   */
  function DecodedEvents(chunks: seq<string>, end: StreamEnd, parse: JsonParser, apiUrl: string): seq<Event> {
    var k := FirstMarked(chunks);
    TextEvents(chunks[..k])
    + if k < |chunks| then MarkerEvents(chunks[k], parse) else EndEvents(end, apiUrl)
  }

  /** The whole event sequence for an outcome of the request. */
  function StreamEvents(outcome: HttpOutcome, parse: JsonParser, apiUrl: string): seq<Event> {
    match outcome
    case FetchRejected(t) => [FailureEvent(ErrorMessage(t, apiUrl))]
    case NotOk(body) => [FailureEvent(ErrorMessage(NotOkThrown(body), apiUrl))]
    case NullBody => [FailureEvent(ErrorMessage(Thrown(false, NullBodyMessage), apiUrl))]
    case Body(chunks, end) => DecodedEvents(chunks, end, parse, apiUrl)
  }

  /** Decoding ends at the first marked chunk: its events follow the earlier chunks' text. */
  lemma DecodedUpToMarked(chunks: seq<string>, end: StreamEnd, parse: JsonParser, apiUrl: string, k: nat)
    requires k < |chunks| && HasMarker(chunks[k]) && k <= FirstMarked(chunks)
    ensures FirstMarked(chunks) == k
    ensures DecodedEvents(chunks, end, parse, apiUrl) == TextEvents(chunks[..k]) + MarkerEvents(chunks[k], parse)
  {
    if FirstMarked(chunks) > k {
      FirstMarkedIsFirst(chunks, k);
    }
  }

  /** The events of a chunk that holds the marker: its first two `split` pieces, as text and as parsed payload. */
  method DecodeMarkedChunk(chunk: string, parse: JsonParser) returns (events: seq<Event>)
    requires HasMarker(chunk)
    ensures events == MarkerEvents(chunk, parse)
  {
    var parts := Split(chunk, Marker);
    assert parts[0] == TextBeforeMarker(chunk) && parts[1] == PayloadText(chunk) by {
      SplitPieces(chunk);
    }
    events := [];
    if parts[0] != "" {
      events := events + [Text(parts[0])];
    }
    var parsed := ParseJson(parse, parts[1]);
    if parsed.Some? {
      events := events + [Json(parsed.value)];
    }
  }

  /**
    `sendMessageToAIStream`: read chunk after chunk; a chunk without the marker
    is yielded whole as text; the first chunk with the marker yields its prefix
    and payload and ends decoding; any thrown error becomes one failure event.
    `apiUrl` is the module's `API_URL`, that is `ApiUrl(configured)` for the
    configured `EXPO_PUBLIC_API_URL`; the model's properties hold for any address.
   */
  method SendMessageToAIStream(outcome: HttpOutcome, parse: JsonParser, apiUrl: string)
    returns (events: seq<Event>)
    ensures events == StreamEvents(outcome, parse, apiUrl)
  {
    events := [];
    var thrown: Option<Thrown> := None;
    match outcome {
      case FetchRejected(t) =>
        thrown := Some(t);
      case NotOk(body) =>
        thrown := Some(NotOkThrown(body));
      case NullBody =>
        thrown := Some(Thrown(false, NullBodyMessage));
      case Body(chunks, end) =>
        var i := 0;
        while true
          invariant 0 <= i <= |chunks|
          invariant i <= FirstMarked(chunks)
          invariant events == TextEvents(chunks[..i])
          invariant thrown == None
          decreases |chunks| - i
        {
          if i == |chunks| {
            if end.ReadFailed? {
              thrown := Some(end.thrown);
            }
            break;
          }
          var chunk := chunks[i];
          i := i + 1;
          if Includes(chunk, Marker) {
            var tail := DecodeMarkedChunk(chunk, parse);
            DecodedUpToMarked(chunks, end, parse, apiUrl, i - 1);
            events := events + tail;
            return;
          }
          assert chunks[..i] == chunks[..i - 1] + [chunk];
          events := events + [Text(chunk)];
        }
        assert chunks[..|chunks|] == chunks;
    }
    if thrown.Some? {
      events := events + [FailureEvent(ErrorMessage(thrown.value, apiUrl))];
    }
  }

  /** The data of the first `json` event, if there is one. */
  function FirstJson(events: seq<Event>): Option<ChatResponse> {
    if events == [] then None
    else if events[0].Json? then Some(events[0].response)
    else FirstJson(events[1..])
  }

  /** The data of the `text` events, concatenated in order. */
  function TextOf(events: seq<Event>): string {
    if events == [] then ""
    else TextOf(events[..|events| - 1]) + match events[|events| - 1] case Text(t) => t case Json(_) => ""
  }

  /** What `sendMessageToAI` makes of an event sequence. */
  function Folded(events: seq<Event>): ChatResponse {
    match FirstJson(events)
    case Some(r) => r
    case None => ChatResponse(true, TextOf(events), None, None, None)
  }

  lemma {:induction false} FirstJsonAfterTexts(events: seq<Event>, i: nat)
    requires i < |events| && events[i].Json?
    requires forall j :: 0 <= j < i ==> events[j].Text?
    ensures FirstJson(events) == Some(events[i].response)
  {
    if i > 0 {
      FirstJsonAfterTexts(events[1..], i - 1);
    }
  }

  lemma {:induction false} FirstJsonOfTexts(events: seq<Event>)
    requires forall j :: 0 <= j < |events| ==> events[j].Text?
    ensures FirstJson(events) == None
  {
    if events != [] {
      FirstJsonOfTexts(events[1..]);
    }
  }

  /**
    `sendMessageToAI`: consume the decoder's events, returning the first `json`
    event's data, or, when there is none, success with the streamed text.
   */
  method SendMessageToAI(outcome: HttpOutcome, parse: JsonParser, apiUrl: string)
    returns (r: ChatResponse)
    ensures r == Folded(StreamEvents(outcome, parse, apiUrl))
  {
    var events := SendMessageToAIStream(outcome, parse, apiUrl);
    r := FoldEvents(events);
  }

  /**
    The `for await` loop of `sendMessageToAI`: accumulate the `text` data into
    `fullText`, and return the first `json` event's data as soon as it arrives.
   */
  method FoldEvents(events: seq<Event>) returns (r: ChatResponse)
    ensures r == Folded(events)
  {
    var fullText := "";
    for i := 0 to |events|
      invariant fullText == TextOf(events[..i])
      invariant forall j :: 0 <= j < i ==> events[j].Text?
    {
      if events[i].Json? {
        FirstJsonAfterTexts(events, i);
        return events[i].response;
      }
      assert events[..i + 1][..i] == events[..i];
      fullText := fullText + events[i].text;
    }
    FirstJsonOfTexts(events);
    assert events[..|events|] == events;
    return ChatResponse(true, fullText, None, None, None);
  }

  // ---------------------------------------------------------------------------
  // Properties of the decoder

  /**
    A marked chunk yields at most two events: a `text` event only when the text
    before the marker is non-empty, and at most one `json` event, which comes last.
   */
  lemma MarkerEventsShape(chunk: string, parse: JsonParser)
    requires HasMarker(chunk)
    ensures |MarkerEvents(chunk, parse)| <= 2
    ensures (exists i :: 0 <= i < |MarkerEvents(chunk, parse)| && MarkerEvents(chunk, parse)[i].Text?)
            <==> TextBeforeMarker(chunk) != ""
    ensures forall i :: 0 <= i < |MarkerEvents(chunk, parse)| && MarkerEvents(chunk, parse)[i].Json?
              ==> i == |MarkerEvents(chunk, parse)| - 1
  {
    var evs := MarkerEvents(chunk, parse);
    if TextBeforeMarker(chunk) != "" {
      assert evs[0].Text?;
    }
  }

  /** A chunk without the marker is yielded whole, as one `text` event, and decoding goes on. */
  lemma UnmarkedChunkContinues(chunk: string, rest: seq<string>, end: StreamEnd, parse: JsonParser, apiUrl: string)
    requires !HasMarker(chunk)
    ensures DecodedEvents([chunk] + rest, end, parse, apiUrl) == [Text(chunk)] + DecodedEvents(rest, end, parse, apiUrl)
  {
    var chunks := [chunk] + rest;
    var k := FirstMarked(rest);
    assert FirstMarked(chunks) == 1 + k by {
      assert chunks[1..] == rest;
    }
    var tail := if k < |rest| then MarkerEvents(rest[k], parse) else EndEvents(end, apiUrl);
    var texts := TextEvents(rest[..k]);
    assert TextEvents(chunks[..1 + k]) == [Text(chunk)] + texts by {
      assert chunks[..1 + k] == [chunk] + rest[..k];
      TextEventsCons(chunk, rest[..k]);
    }
    assert DecodedEvents(chunks, end, parse, apiUrl) == ([Text(chunk)] + texts) + tail by {
      if k < |rest| {
        assert chunks[1 + k] == rest[k];
      }
    }
    assert DecodedEvents(rest, end, parse, apiUrl) == texts + tail;
    AppendAssociates([Text(chunk)], texts, tail);
  }

  lemma AppendAssociates(a: seq<Event>, b: seq<Event>, c: seq<Event>)
    ensures (a + b) + c == a + (b + c)
  {
  }

  lemma TextEventsCons(c: string, cs: seq<string>)
    ensures TextEvents([c] + cs) == [Text(c)] + TextEvents(cs)
  {
    var a, b := TextEvents([c] + cs), [Text(c)] + TextEvents(cs);
    assert |a| == |b|;
    forall i | 0 <= i < |a| ensures a[i] == b[i] {
      if i > 0 {
        assert ([c] + cs)[i] == cs[i - 1];
      }
    }
  }

  /** A marked chunk ends decoding: no later chunk, and not how the stream ends, changes the events. */
  lemma MarkedChunkEnds(chunk: string, rest: seq<string>, end: StreamEnd, parse: JsonParser, apiUrl: string)
    requires HasMarker(chunk)
    ensures DecodedEvents([chunk] + rest, end, parse, apiUrl) == MarkerEvents(chunk, parse)
  {
    DecodedUpToMarked([chunk] + rest, end, parse, apiUrl, 0);
  }

  /** No chunk holds the marker exactly when the first marked chunk lies past the end. */
  lemma NoMarkedChunk(chunks: seq<string>)
    ensures FirstMarked(chunks) == |chunks| <==> forall i :: 0 <= i < |chunks| ==> !HasMarker(chunks[i])
  {
    if FirstMarked(chunks) == |chunks| {
      forall i | 0 <= i < |chunks| ensures !HasMarker(chunks[i]) {
        FirstMarkedIsFirst(chunks, i);
      }
    }
  }

  lemma {:induction false} TextOfTextEvents(chunks: seq<string>)
    ensures TextOf(TextEvents(chunks)) == Concat(chunks)
  {
    if chunks != [] {
      var n := |chunks| - 1;
      assert TextEvents(chunks)[..n] == TextEvents(chunks[..n]);
      TextOfTextEvents(chunks[..n]);
    }
  }

  /**
    When no chunk holds the marker and the stream ends normally, every event is
    `text`, one per chunk, and the events' text is the whole stream.
   */
  lemma UnmarkedStreamIsText(chunks: seq<string>, parse: JsonParser, apiUrl: string)
    requires FirstMarked(chunks) == |chunks|
    ensures DecodedEvents(chunks, Done, parse, apiUrl) == TextEvents(chunks)
    ensures TextOf(DecodedEvents(chunks, Done, parse, apiUrl)) == Concat(chunks)
  {
    assert DecodedEvents(chunks, Done, parse, apiUrl) == TextEvents(chunks) by {
      assert chunks[..|chunks|] == chunks;
    }
    TextOfTextEvents(chunks);
  }

  /**
    The marker is recognised within one chunk only: two halves of it in
    neighbouring chunks each pass through as ordinary text.
   */
  lemma SplitMarkerPassesThrough(a: string, b: string, rest: seq<string>, end: StreamEnd, parse: JsonParser, apiUrl: string)
    requires !HasMarker(a) && !HasMarker(b)
    ensures DecodedEvents([a, b] + rest, end, parse, apiUrl) == [Text(a), Text(b)] + DecodedEvents(rest, end, parse, apiUrl)
  {
    var bs, abs := [b] + rest, [a, b] + rest;
    ChunksCons(a, b, rest);
    var later, mid, whole := DecodedEvents(rest, end, parse, apiUrl), DecodedEvents(bs, end, parse, apiUrl), DecodedEvents(abs, end, parse, apiUrl);
    UnmarkedChunkContinues(b, rest, end, parse, apiUrl);
    UnmarkedChunkContinues(a, bs, end, parse, apiUrl);
    ConsTwice(Text(a), Text(b), mid, later, whole);
  }

  lemma ChunksCons(a: string, b: string, rest: seq<string>)
    ensures [a, b] + rest == [a] + ([b] + rest)
  {
  }

  lemma ConsTwice(x: Event, y: Event, mid: seq<Event>, later: seq<Event>, whole: seq<Event>)
    requires mid == [y] + later && whole == [x] + mid
    ensures whole == [x, y] + later
  {
    assert [x] + ([y] + later) == [x, y] + later;
  }

  /** A concrete stream whose text holds the marker, cut in the middle of it. */
  lemma MarkerAcrossChunksExample(parse: JsonParser, apiUrl: string)
    ensures HasMarker("ab__JS" + "ON__cd")
    ensures DecodedEvents(["ab__JS", "ON__cd"], Done, parse, apiUrl) == [Text("ab__JS"), Text("ON__cd")]
  {
    assert OccursAt("ab__JS" + "ON__cd", Marker, 2);
    IncludesMeans("ab__JS" + "ON__cd", Marker);
    assert !HasMarker("ab__JS") && !HasMarker("ON__cd");
    assert ["ab__JS", "ON__cd"] == ["ab__JS", "ON__cd"] + [];
    SplitMarkerPassesThrough("ab__JS", "ON__cd", [], Done, parse, apiUrl);
    assert FirstMarked([]) == 0;
  }

  /**
    Malformed JSON after the marker yields no `json` event; the text already
    yielded, and the text before the marker, are kept.
   */
  lemma MalformedPayloadKeepsText(chunks: seq<string>, end: StreamEnd, parse: JsonParser, apiUrl: string, k: nat)
    requires k == FirstMarked(chunks) && k < |chunks|
    requires ParseJson(parse, PayloadText(chunks[k])) == None
    ensures var before := TextBeforeMarker(chunks[k]);
            DecodedEvents(chunks, end, parse, apiUrl)
              == TextEvents(chunks[..k]) + if before != "" then [Text(before)] else []
    ensures forall i :: 0 <= i < |DecodedEvents(chunks, end, parse, apiUrl)| ==> DecodedEvents(chunks, end, parse, apiUrl)[i].Text?
  {
    DecodedUpToMarked(chunks, end, parse, apiUrl, k);
    MarkerEventsShape(chunks[k], parse);
  }

  /** A failed request yields exactly one event: a `json` failure with an empty message and a non-empty error. */
  lemma FailureIsSingleEvent(outcome: HttpOutcome, parse: JsonParser, apiUrl: string)
    requires !outcome.Body?
    ensures |StreamEvents(outcome, parse, apiUrl)| == 1
    ensures var e := StreamEvents(outcome, parse, apiUrl)[0];
            e.Json? && !e.response.success && e.response.message == ""
            && e.response.error.Some? && e.response.error.value != ""
  {
  }

  /** A network failure of `fetch` is reported with the relay address it tried to reach. */
  lemma FetchFailureNamesRelay(message: string, parse: JsonParser, apiUrl: string)
    requires Includes(message, "fetch")
    ensures var events := StreamEvents(FetchRejected(Thrown(true, message)), parse, apiUrl);
            |events| == 1 && events[0].Json? && !events[0].response.success
            && events[0].response.error == Some(ConnectFailureMessage(apiUrl))
            && Includes(events[0].response.error.value, apiUrl)
  {
    ErrorMessageCases(Thrown(true, message), apiUrl);
  }

  /**
    With the address chosen from the configuration, a failed connection names
    the configured relay when one is set, and the default address otherwise.
   */
  lemma FetchFailureNamesConfiguredRelay(configured: Option<string>, message: string, parse: JsonParser)
    requires Includes(message, "fetch")
    ensures var events := StreamEvents(FetchRejected(Thrown(true, message)), parse, ApiUrl(configured));
            |events| == 1 && events[0].Json? && events[0].response.error.Some?
            && (Truthy(configured) ==> Includes(events[0].response.error.value, configured.value))
            && (!Truthy(configured) ==> Includes(events[0].response.error.value, DefaultApiUrl))
  {
    FetchFailureNamesRelay(message, parse, ApiUrl(configured));
  }

  /** A non-ok response reports the server's `error` field, or the fallback message when it has none. */
  lemma NotOkReportsServerError(error: Option<string>, parse: JsonParser, apiUrl: string)
    ensures StreamEvents(NotOk(ErrorJson(error)), parse, apiUrl)
         == [FailureEvent(if Truthy(error) then error.value else NotOkFallback)]
  {
  }

  /** A read that fails mid-stream keeps the text yielded so far and adds one failure event. */
  lemma ReadFailureAfterText(chunks: seq<string>, t: Thrown, parse: JsonParser, apiUrl: string)
    requires FirstMarked(chunks) == |chunks|
    ensures DecodedEvents(chunks, ReadFailed(t), parse, apiUrl) == TextEvents(chunks) + [FailureEvent(ErrorMessage(t, apiUrl))]
  {
    assert chunks[..|chunks|] == chunks;
  }

  /** Whatever happens, there is at most one `json` event and it is the last one. */
  lemma JsonOnlyLast(outcome: HttpOutcome, parse: JsonParser, apiUrl: string)
    ensures var events := StreamEvents(outcome, parse, apiUrl);
            forall i :: 0 <= i < |events| && events[i].Json? ==> i == |events| - 1
  {
    if outcome.Body? {
      var chunks := outcome.chunks;
      var k := FirstMarked(chunks);
      if k < |chunks| {
        MarkerEventsShape(chunks[k], parse);
      }
    }
  }

  lemma FoldOfTexts(chunks: seq<string>)
    ensures Folded(TextEvents(chunks)) == ChatResponse(true, Concat(chunks), None, None, None)
  {
    FirstJsonOfTexts(TextEvents(chunks));
    TextOfTextEvents(chunks);
  }

  /** Over a plain stream, `sendMessageToAI` succeeds with the concatenation of the chunks. */
  lemma FoldPlainStream(chunks: seq<string>, parse: JsonParser, apiUrl: string)
    requires FirstMarked(chunks) == |chunks|
    ensures Folded(StreamEvents(Body(chunks, Done), parse, apiUrl)) == ChatResponse(true, Concat(chunks), None, None, None)
  {
    StreamOfBody(chunks, Done, parse, apiUrl);
    FoldDecodedPlain(chunks, parse, apiUrl);
  }

  lemma StreamOfBody(chunks: seq<string>, end: StreamEnd, parse: JsonParser, apiUrl: string)
    ensures StreamEvents(Body(chunks, end), parse, apiUrl) == DecodedEvents(chunks, end, parse, apiUrl)
  {
  }

  lemma FoldDecodedPlain(chunks: seq<string>, parse: JsonParser, apiUrl: string)
    requires FirstMarked(chunks) == |chunks|
    ensures Folded(DecodedEvents(chunks, Done, parse, apiUrl)) == ChatResponse(true, Concat(chunks), None, None, None)
  {
    UnmarkedStreamIsText(chunks, parse, apiUrl);
    FoldOfTexts(chunks);
  }

  /** When the payload after the marker parses, `sendMessageToAI` returns it, whatever text preceded it. */
  lemma FoldPayload(chunks: seq<string>, end: StreamEnd, parse: JsonParser, apiUrl: string, k: nat, r: ChatResponse)
    requires k == FirstMarked(chunks) && k < |chunks|
    requires ParseJson(parse, PayloadText(chunks[k])) == Some(r)
    ensures Folded(StreamEvents(Body(chunks, end), parse, apiUrl)) == r
  {
    StreamOfBody(chunks, end, parse, apiUrl);
    FoldDecodedPayload(chunks, end, parse, apiUrl, k, r);
  }

  lemma FoldDecodedPayload(chunks: seq<string>, end: StreamEnd, parse: JsonParser, apiUrl: string, k: nat, r: ChatResponse)
    requires k == FirstMarked(chunks) && k < |chunks|
    requires ParseJson(parse, PayloadText(chunks[k])) == Some(r)
    ensures Folded(DecodedEvents(chunks, end, parse, apiUrl)) == r
  {
    var chunk := chunks[k];
    var tail := MarkerEvents(chunk, parse);
    assert FirstJson(tail) == Some(r) by {
      if TextBeforeMarker(chunk) != "" {
        assert tail == [Text(TextBeforeMarker(chunk)), Json(r)];
        assert tail[1..] == [Json(r)];
      } else {
        assert tail == [Json(r)];
      }
    }
    var events := DecodedEvents(chunks, end, parse, apiUrl);
    assert events == TextEvents(chunks[..k]) + tail by {
      DecodedUpToMarked(chunks, end, parse, apiUrl, k);
    }
    assert FirstJson(events) == Some(r) by {
      FirstJsonPastTexts(TextEvents(chunks[..k]), tail);
    }
    FoldedOfJson(events, r);
  }

  lemma FoldedOfJson(events: seq<Event>, r: ChatResponse)
    requires FirstJson(events) == Some(r)
    ensures Folded(events) == r
  {
  }

  /** Leading `text` events do not change which `json` event comes first. */
  lemma {:induction false} FirstJsonPastTexts(texts: seq<Event>, rest: seq<Event>)
    requires forall j :: 0 <= j < |texts| ==> texts[j].Text?
    ensures FirstJson(texts + rest) == FirstJson(rest)
  {
    if texts == [] {
      assert texts + rest == rest;
    } else {
      assert (texts + rest)[1..] == texts[1..] + rest;
      FirstJsonPastTexts(texts[1..], rest);
    }
  }

  /** A failed request makes `sendMessageToAI` return the failure, never a success. */
  lemma FoldFailure(outcome: HttpOutcome, parse: JsonParser, apiUrl: string)
    requires !outcome.Body?
    ensures !Folded(StreamEvents(outcome, parse, apiUrl)).success
  {
  }
}
