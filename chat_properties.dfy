/** What one submission of the chat form promises, stated over all
    sequences of endpoint outcomes. */
module ChatProperties {
  import opened JsonValue
  import opened JsText
  import opened ReplyExtractor
  import opened ChatSession
  import ReplyProperties

  /** `i` is the first successful attempt exactly when `FirstSuccess` says so. */
  lemma FirstSuccessAt(outcomes: seq<Attempt>, i: nat)
    requires i < |outcomes| && Succeeds(outcomes[i])
    requires forall j :: 0 <= j < i ==> !Succeeds(outcomes[j])
    ensures FirstSuccess(outcomes) == Some(i)
  {
  }

  /** When the attempt at `i` is the first success, exactly `i + 1` endpoints
      are called and the assistant message is the reply extracted from that
      attempt's body, or the no-text sentence when that reply is empty. */
  lemma SuccessfulSubmission(parse: string -> Option<Json>, outcomes: seq<Attempt>, i: nat, fallbacks: Fallbacks)
    requires ValidParser(parse)
    requires i < |outcomes| && Succeeds(outcomes[i])
    requires forall j :: 0 <= j < i ==> !Succeeds(outcomes[j])
    ensures AttemptCount(outcomes) == i + 1
    ensures ExtractReplyText(parse, BodyOf(outcomes[i])) != "" ==>
              AssistantText(parse, outcomes, fallbacks) == ExtractReplyText(parse, BodyOf(outcomes[i]))
    ensures ExtractReplyText(parse, BodyOf(outcomes[i])) == "" ==>
              AssistantText(parse, outcomes, fallbacks) == fallbacks.noText
  {
    FirstSuccessAt(outcomes, i);
  }

  /** When no endpoint succeeds, every endpoint is called and the assistant
      message is the apology. */
  lemma FailedSubmission(parse: string -> Option<Json>, outcomes: seq<Attempt>, fallbacks: Fallbacks)
    requires ValidParser(parse)
    requires forall j :: 0 <= j < |outcomes| ==> !Succeeds(outcomes[j])
    ensures AttemptCount(outcomes) == |outcomes|
    ensures AssistantText(parse, outcomes, fallbacks) == fallbacks.failure
  {
  }

  /** The assistant message is one of the widget's two fixed sentences or a
      non-empty text taken from a string inside the body of the first
      successful response; it is never empty. */
  lemma AssistantTextOrigin(parse: string -> Option<Json>, outcomes: seq<Attempt>)
    requires ValidParser(parse)
    ensures AssistantText(parse, outcomes, WidgetFallbacks) != ""
    ensures var text := AssistantText(parse, outcomes, WidgetFallbacks);
            text == WidgetFallbacks.noText || text == WidgetFallbacks.failure
            || (FirstSuccess(outcomes).Some?
                && Mentions(parse, BodyOf(outcomes[FirstSuccess(outcomes).value]), text))
  {
    assert WidgetFallbacks.noText != "" && WidgetFallbacks.failure != "";
    match FirstSuccess(outcomes)
    case Some(i) =>
      var reply := ExtractReplyText(parse, BodyOf(outcomes[i]));
      assert reply != "" ==> Mentions(parse, BodyOf(outcomes[i]), reply);
    case None =>
  }

  /** Attempts after the first success are never made, so they change
      nothing: neither the number of calls nor the assistant message. */
  lemma LaterAttemptsIgnored(parse: string -> Option<Json>, outcomes: seq<Attempt>, later: seq<Attempt>, fallbacks: Fallbacks)
    requires ValidParser(parse)
    requires FirstSuccess(outcomes).Some?
    ensures FirstSuccess(outcomes + later) == FirstSuccess(outcomes)
    ensures AttemptCount(outcomes + later) == AttemptCount(outcomes)
    ensures AssistantText(parse, outcomes + later, fallbacks) == AssistantText(parse, outcomes, fallbacks)
  {
    var i := FirstSuccess(outcomes).value;
    assert (outcomes + later)[i] == outcomes[i];
    assert forall j :: 0 <= j < i ==> (outcomes + later)[j] == outcomes[j];
    FirstSuccessAt(outcomes + later, i);
  }

  /** A response with a failure status counts like a request that never got
      a response: its body is never used, whatever it holds. */
  lemma FailureStatusLikeTransportFailure(parse: string -> Option<Json>, outcomes: seq<Attempt>, k: nat, body: Option<Json>, fallbacks: Fallbacks)
    requires ValidParser(parse)
    requires k < |outcomes| && outcomes[k] == Resp(false, body)
    ensures FirstSuccess(outcomes[k := TransportFail]) == FirstSuccess(outcomes)
    ensures AttemptCount(outcomes[k := TransportFail]) == AttemptCount(outcomes)
    ensures AssistantText(parse, outcomes[k := TransportFail], fallbacks) == AssistantText(parse, outcomes, fallbacks)
  {
    var changed := outcomes[k := TransportFail];
    assert forall j :: 0 <= j < |outcomes| ==> (Succeeds(changed[j]) <==> Succeeds(outcomes[j]));
    match FirstSuccess(outcomes)
    case Some(i) =>
      assert changed[i] == outcomes[i];
      FirstSuccessAt(changed, i);
    case None =>
  }

  /** The messages of one submission: none for a blank draft; otherwise
      exactly two, the trimmed draft as the user's message and then one
      non-empty assistant message. */
  lemma SubmissionMessages(parse: string -> Option<Json>, raw: string, outcomes: seq<Attempt>)
    requires ValidParser(parse)
    ensures Trim(raw) == "" <==> NewMessages(parse, raw, outcomes, WidgetFallbacks) == []
    ensures Trim(raw) != "" ==>
      var added := NewMessages(parse, raw, outcomes, WidgetFallbacks);
      && |added| == 2
      && added[0] == Msg(User, Trim(raw))
      && added[1].role == Assistant && added[1].text != ""
      && added[1].text == AssistantText(parse, outcomes, WidgetFallbacks)
  {
    AssistantTextOrigin(parse, outcomes);
  }

  /** The body `{"message": reply}` gives `reply`, for any non-empty string
      that is not re-parsed (its trimmed form is not bracket-delimited, or
      does not parse). */
  lemma MessageReply(parse: string -> Option<Json>, fields: seq<(string, Json)>, reply: string)
    requires ValidParser(parse)
    requires reply != "" && (!Bracketed(Trim(reply)) || parse(Trim(reply)).None?)
    requires fields == [("message", JStr(reply))]
    ensures ExtractReplyText(parse, JObj(fields)) == reply
  {
    PreferredKeyNames();
    forall k | 0 <= k < 2
      ensures Lookup(fields, PreferredKeys[k]).None?
    {
      assert fields[0].0 != PreferredKeys[k];
    }
    assert Lookup(fields, PreferredKeys[2]) == Some(JStr(reply));
    ReplyProperties.PlainStringUnderPreferredKey(parse, fields, 2, reply);
  }

  /** Two endpoints, the first failing in any way (a rejected request, or a
      failure status with any body) and the second answering with success
      and `{"message": reply}`: both are called, in order, and the assistant
      says `reply`. */
  lemma FallbackToSecondEndpoint(parse: string -> Option<Json>, endpoints: seq<string>, outcomes: seq<Attempt>,
                                 first: Attempt, fields: seq<(string, Json)>, reply: string, fallbacks: Fallbacks)
    requires ValidParser(parse)
    requires |endpoints| == 2
    requires reply != "" && (!Bracketed(Trim(reply)) || parse(Trim(reply)).None?)
    requires fields == [("message", JStr(reply))]
    requires !Succeeds(first)
    requires outcomes == [first, Resp(true, Some(JObj(fields)))]
    ensures endpoints[..AttemptCount(outcomes)] == [endpoints[0], endpoints[1]]
    ensures AssistantText(parse, outcomes, fallbacks) == reply
  {
    FirstSuccessAt(outcomes, 1);
    MessageReply(parse, fields, reply);
  }

  /** Opening the page again in the same tab, after a set-up whose write to
      session storage succeeded, sends the same session id. */
  lemma SessionIdStable(stored: Option<string>, generated: string, again: string)
    requires generated != ""
    ensures SessionIdFor(StoredAfter(stored, generated, true), again) == SessionIdFor(stored, generated)
  {
  }
}
