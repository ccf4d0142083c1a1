/** The chat widget's submit handler: the session id it sends, the ordered
    fallback over the configured endpoints, and what one submission adds to
    the transcript. */
module ChatSession {
  import opened JsonValue
  import opened JsText
  import opened ReplyExtractor

  const RequestSource: string := "website-demo"

  /** The two fixed assistant messages: the one shown when a reply arrived
      but held no text, and the one shown when no endpoint answered with a
      success status. */
  datatype Fallbacks = Fallbacks(noText: string, failure: string)

  /** The fixed assistant messages of the widget. */
  const WidgetFallbacks: Fallbacks := Fallbacks(
    "Ho elaborato la richiesta, ma non ho ricevuto una risposta testuale.",
    "Ops, qualcosa è andato storto. Riproviamo fra qualche secondo?")

  /** What one `fetch` to one endpoint came to: the call itself rejected, or
      a response with its `ok` flag and its body as `response.json()` read it
      (None when that rejected). */
  datatype Attempt = TransportFail | Resp(ok: bool, body: Option<Json>)

  /** The JSON body of every chat request. */
  datatype ChatRequest = ChatRequest(sessionId: string, chatInput: string, source: string)

  /** One POST: the endpoint it went to and what it carried. */
  datatype Post = Post(url: string, request: ChatRequest)

  /** What the status line shows: the markup's own content before the first
      submission, the in-progress notice "Sto elaborando la risposta...", or
      the connection error "Non riesco a connettermi all'agente. Riprova."
      shown in the error style. */
  datatype StatusLine = Initial | Working | Unreachable

  datatype Role = User | Assistant
  datatype Msg = Msg(role: Role, text: string)

  /** The value of `data` after an attempt that got a response:
      `await response.json().catch(() => ({}))`. */
  function BodyOf(a: Attempt): Json
    requires a.Resp?
  {
    match a.body
    case Some(b) => b
    case None => JObj([])
  }

  /** An attempt counts as a success only when a response came back with
      `response.ok`; a failure status counts as a failure whatever its body. */
  predicate Succeeds(a: Attempt) {
    a.Resp? && a.ok
  }

  /** The index of the first successful attempt, if any. */
  function FirstSuccess(outcomes: seq<Attempt>): (r: Option<nat>)
    ensures r.Some? ==> r.value < |outcomes| && Succeeds(outcomes[r.value])
    ensures r.Some? ==> forall j :: 0 <= j < r.value ==> !Succeeds(outcomes[j])
    ensures r.None? <==> forall j :: 0 <= j < |outcomes| ==> !Succeeds(outcomes[j])
  {
    if |outcomes| == 0 then None
    else if Succeeds(outcomes[0]) then Some(0)
    else
      match FirstSuccess(outcomes[1..])
      case Some(i) => Some(i + 1)
      case None => None
  }

  /** How many endpoints a submission calls: up to and including the first
      success, or all of them. */
  function AttemptCount(outcomes: seq<Attempt>): (n: nat)
    ensures n <= |outcomes|
  {
    match FirstSuccess(outcomes)
    case Some(i) => i + 1
    case None => |outcomes|
  }

  /** The same request posted to each of `urls`, in order. */
  function PostsTo(urls: seq<string>, request: ChatRequest): (posts: seq<Post>)
    ensures |posts| == |urls|
    ensures forall k :: 0 <= k < |urls| ==> posts[k] == Post(urls[k], request)
  {
    if |urls| == 0 then [] else [Post(urls[0], request)] + PostsTo(urls[1..], request)
  }

  /** The `for (const endpoint of CHAT_ENDPOINTS)` loop. `outcomes[i]` is what
      the call to `endpoints[i]` comes to. Endpoints are called strictly in
      order and the loop stops at the first success, whose body becomes
      `data`; `called` lists the endpoints actually called. */
  method TryEndpoints(endpoints: seq<string>, outcomes: seq<Attempt>) returns (success: bool, data: Json, called: seq<string>)
    requires |outcomes| == |endpoints|
    ensures success <==> FirstSuccess(outcomes).Some?
    ensures success ==> data == BodyOf(outcomes[FirstSuccess(outcomes).value])
    ensures called == endpoints[..AttemptCount(outcomes)]
  {
    data := JNull;
    success := false;
    called := [];
    var i := 0;
    while i < |endpoints|
      invariant 0 <= i <= |endpoints|
      invariant called == endpoints[..i]
      invariant forall j :: 0 <= j < i ==> !Succeeds(outcomes[j])
      invariant !success
    {
      called := called + [endpoints[i]];
      var outcome := outcomes[i];
      if outcome.TransportFail? {
        i := i + 1;
        continue;
      }
      data := BodyOf(outcome);
      if !outcome.ok {
        i := i + 1;
        continue;
      }
      success := true;
      break;
    }
    assert success ==> FirstSuccess(outcomes) == Some(i);
    assert !success ==> i == |endpoints|;
  }

  /** The assistant message a submission ends with: the extracted reply of the
      first successful response, the fixed no-text sentence when that reply
      is empty, or the fixed apology when every endpoint failed. */
  function AssistantText(parse: string -> Option<Json>, outcomes: seq<Attempt>, fallbacks: Fallbacks): (text: string)
    requires ValidParser(parse)
  {
    match FirstSuccess(outcomes)
    case Some(i) =>
      var reply := ExtractReplyText(parse, BodyOf(outcomes[i]));
      if reply != "" then reply else fallbacks.noText
    case None => fallbacks.failure
  }

  /** The network part of one submission: the same request posted to the
      endpoints in order until one succeeds, then the assistant message that
      follows, as the handler's `try` block and its `catch` compute it. */
  method Exchange(parse: string -> Option<Json>, endpoints: seq<string>, outcomes: seq<Attempt>,
                  request: ChatRequest, fallbacks: Fallbacks)
    returns (success: bool, aiText: string, sent: seq<Post>)
    requires ValidParser(parse)
    requires |outcomes| == |endpoints|
    ensures success <==> FirstSuccess(outcomes).Some?
    ensures aiText == AssistantText(parse, outcomes, fallbacks)
    ensures sent == PostsTo(endpoints[..AttemptCount(outcomes)], request)
  {
    var data, called;
    success, data, called := TryEndpoints(endpoints, outcomes);
    sent := PostsTo(called, request);
    if success {
      aiText := ExtractReplyText(parse, data);
      if aiText == "" {
        aiText := fallbacks.noText;
      }
    } else {
      aiText := fallbacks.failure;
    }
  }

  /** The messages one submission of the text area's content `raw` appends
      to the transcript. */
  function NewMessages(parse: string -> Option<Json>, raw: string, outcomes: seq<Attempt>, fallbacks: Fallbacks): (added: seq<Msg>)
    requires ValidParser(parse)
  {
    var message := Trim(raw);
    if message == "" then []
    else [Msg(User, message), Msg(Assistant, AssistantText(parse, outcomes, fallbacks))]
  }

  /** The session id the widget sends: what session storage held under the
      key `rfd_chat_session_id` (None when there is no storage or no entry)
      when that is non-empty, and otherwise the freshly generated id. */
  function SessionIdFor(stored: Option<string>, generated: string): (id: string)
    ensures stored.Some? && stored.value != "" ==> id == stored.value
    ensures id == generated || stored == Some(id)
    ensures generated != "" ==> id != ""
  {
    match stored
    case Some(s) => if s != "" then s else generated
    case None => generated
  }

  /** What session storage holds under that key once the widget is set up: a
      non-empty stored id stays; otherwise the generated id is written, unless
      writing fails (no storage, private mode), in which case the storage is
      left as it was. */
  function StoredAfter(stored: Option<string>, generated: string, canStore: bool): (after: Option<string>)
    ensures after == stored || after == Some(generated)
    ensures canStore ==> after == Some(SessionIdFor(stored, generated))
    ensures !canStore ==> after == stored
  {
    if stored.Some? && stored.value != "" then stored
    else if canStore then Some(generated)
    else stored
  }

  /** The chat widget: the transcript it shows, the session id it sends, the
      text area, the status line and the form's disabled state, and the log
      of the requests it has posted. */
  class ChatWidget {
    const endpoints: seq<string>
    const sessionId: string
    const storedId: Option<string>
    const fallbacks: Fallbacks
    var transcript: seq<Msg>
    var draft: string
    var status: StatusLine
    var disabled: bool
    var posts: seq<Post>

    /** The widget as the page sets it up, given what session storage held
        under `rfd_chat_session_id`, the id that would be generated if it held nothing
        (`crypto.randomUUID()` or the `rfd-` time-and-random fallback, never
        empty) and whether writing to session storage succeeds. `welcome` is
        the transcript the page starts with. `endpoints` may be any list; the
        page configures exactly one. Reading session storage is taken not to
        throw: where it does, the page never sets the chat up at all. */
    constructor (endpoints: seq<string>, welcome: seq<Msg>, stored: Option<string>, generated: string, canStore: bool)
      requires generated != ""
      ensures this.endpoints == endpoints && sessionId == SessionIdFor(stored, generated) && sessionId != ""
      ensures storedId == StoredAfter(stored, generated, canStore)
      ensures fallbacks == WidgetFallbacks
      ensures transcript == welcome && draft == "" && status == Initial
      ensures !disabled && posts == []
    {
      this.endpoints := endpoints;
      sessionId := SessionIdFor(stored, generated);
      storedId := StoredAfter(stored, generated, canStore);
      fallbacks := WidgetFallbacks;
      transcript := welcome;
      draft := "";
      status := Initial;
      disabled := false;
      posts := [];
    }

    /** The user types into the text area. */
    method Type(text: string)
      modifies this`draft
      ensures draft == text
    {
      draft := text;
    }

    /** The submit handler. A draft that is blank after trimming changes
        nothing. Otherwise the trimmed draft is appended as the user's
        message, the text area is cleared, the endpoints are tried in order
        with the same request, exactly one assistant message follows, and the
        form ends enabled. */
    method Submit(parse: string -> Option<Json>, outcomes: seq<Attempt>)
      requires ValidParser(parse)
      requires |outcomes| == |endpoints|
      modifies this`transcript, this`draft, this`disabled, this`status, this`posts
      ensures transcript == old(transcript) + NewMessages(parse, old(draft), outcomes, fallbacks)
      ensures Trim(old(draft)) == "" ==>
        draft == old(draft) && status == old(status) && disabled == old(disabled) && posts == old(posts)
      ensures Trim(old(draft)) != "" ==>
        draft == "" && !disabled
        && posts == old(posts) + PostsTo(endpoints[..AttemptCount(outcomes)],
                                         ChatRequest(sessionId, Trim(old(draft)), RequestSource))
        && status == (if FirstSuccess(outcomes).Some? then Working else Unreachable)
    {
      var rawMessage := Trim(draft);
      if rawMessage == "" {
        return;
      }
      Send(parse, outcomes, rawMessage);
    }

    /** The handler from the moment the message is known not to be blank:
        the user's message is shown and the text area cleared, the form is
        disabled while the endpoints are tried, one assistant message
        follows, and the `finally` block enables the form again. */
    method Send(parse: string -> Option<Json>, outcomes: seq<Attempt>, rawMessage: string)
      requires ValidParser(parse)
      requires |outcomes| == |endpoints|
      modifies this`transcript, this`draft, this`disabled, this`status, this`posts
      ensures transcript == old(transcript) + [Msg(User, rawMessage), Msg(Assistant, AssistantText(parse, outcomes, fallbacks))]
      ensures draft == "" && !disabled
      ensures posts == old(posts) + PostsTo(endpoints[..AttemptCount(outcomes)],
                                            ChatRequest(sessionId, rawMessage, RequestSource))
      ensures status == (if FirstSuccess(outcomes).Some? then Working else Unreachable)
    {
      ShowUserMessage(rawMessage);
      var request := ChatRequest(sessionId, rawMessage, RequestSource);
      var success, aiText, sent := Exchange(parse, endpoints, outcomes, request, fallbacks);
      posts := posts + sent;
      ShowAssistantMessage(success, aiText);
    }

    /** `appendMessage("user", rawMessage)`, the text area cleared, the form
        disabled and the in-progress notice shown. */
    method ShowUserMessage(rawMessage: string)
      modifies this`transcript, this`draft, this`disabled, this`status
      ensures transcript == old(transcript) + [Msg(User, rawMessage)]
      ensures draft == "" && disabled && status == Working
    {
      transcript := transcript + [Msg(User, rawMessage)];
      draft := "";
      disabled := true;
      status := Working;
    }

    /** The end of the handler: the connection error on the status line when
        no endpoint succeeded, the assistant message, and the form enabled
        again. */
    method ShowAssistantMessage(success: bool, aiText: string)
      modifies this`transcript, this`disabled, this`status
      ensures transcript == old(transcript) + [Msg(Assistant, aiText)]
      ensures !disabled
      ensures status == (if success then old(status) else Unreachable)
    {
      if !success {
        status := Unreachable;
      }
      transcript := transcript + [Msg(Assistant, aiText)];
      disabled := false;
    }
  }
}
