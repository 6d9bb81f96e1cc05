/**
 * The floating assistant backed by the chat store (frontend/src/components/chat/ChatWidget.tsx).
 * Sending is split at its `await`: `SendMessage` runs up to the request and returns it,
 * `Settle` runs once the backend has answered or failed, including the `finally`.
 */
module ChatWidget {
  import opened Wrappers
  import opened Text
  import opened Conversation
  import opened ChatStore

  /** The body posted to `/api/v1/chat`. */
  datatype Request = Request(message: string, sessionId: Option<string>)

  /** What the backend gave: the parsed JSON body, or a thrown error (network, or a status that is not ok). */
  datatype BackendReply = Ok(response: string, sessionId: Option<string>) | Failed

  const APOLOGY := "Lo siento, tuve un problema al conectar con el servidor. Por favor intenta de nuevo más tarde."

  /** `data.session_id && data.session_id !== sessionId`: a non-empty id that differs from the current one. */
  predicate NewSession(current: Option<string>, reply: BackendReply) {
    reply.Ok? && reply.sessionId.Some? && reply.sessionId.value != "" && reply.sessionId != current
  }

  /** The store's session id after a reply. */
  function NextSession(current: Option<string>, reply: BackendReply): (s: Option<string>)
    ensures s == current || NewSession(current, reply)
  {
    if NewSession(current, reply) then reply.sessionId else current
  }

  /**
   * The session changes only to the non-empty id of a successful reply; a failure or a reply
   * without an id keeps it; and the same reply applied again changes nothing more.
   */
  lemma NextSessionSpec(current: Option<string>, reply: BackendReply)
    ensures var s := NextSession(current, reply);
      && (s != current <==> NewSession(current, reply))
      && (s != current ==> reply.Ok? && s == reply.sessionId && s.value != "")
      && (reply.Failed? || reply.sessionId == None ==> s == current)
      && NextSession(s, reply) == s
  {
  }

  /** The assistant's message for a reply: the response text, or the fixed apology. */
  function ReplyMessage(reply: BackendReply): (m: Message)
    ensures m.role == Assistant
    ensures m.content == (if reply.Ok? then reply.response else APOLOGY)
  {
    match reply
    case Ok(response, _) => Message(Assistant, response)
    case Failed => Message(Assistant, APOLOGY)
  }

  /** What a bubble shows: an assistant's text with every backslash removed, a user's text as it is. */
  function Shown(m: Message): (t: string)
    ensures m.role == Assistant ==> '\\' !in t && |t| == |m.content| - multiset(m.content)['\\']
    ensures m.role == User ==> t == m.content
  {
    if m.role == Assistant then RemoveAll(m.content, '\\') else m.content
  }

  /** Cleaning is done once: showing an assistant's text that is already clean gives it back. */
  lemma ShownIdempotent(m: Message)
    ensures Shown(Message(m.role, Shown(m))) == Shown(m)
  {
    if m.role == Assistant {
      RemoveAllIdempotent(m.content, '\\');
    }
  }

  class Widget {
    const store: Store
    var inputValue: string

    constructor(store: Store)
      ensures this.store == store && inputValue == ""
    {
      this.store := store;
      inputValue := "";
    }

    /** The empty-conversation hint is shown exactly while the store holds no message. */
    predicate ShowsHint()
      reads this, store
    {
      store.messages == []
    }

    /**
     * `handleSendMessage` up to the request: a blank draft or a pending request does nothing;
     * otherwise the draft is emptied, the trimmed draft joins the conversation as the user's,
     * the store is loading, and the request carries that text and the current session.
     */
    method SendMessage() returns (request: Option<Request>)
      modifies this, store
      ensures Blank(old(inputValue)) || old(store.isLoading) ==>
        && request == None && inputValue == old(inputValue)
        && store.messages == old(store.messages) && store.isLoading == old(store.isLoading)
        && store.sessionId == old(store.sessionId) && store.isOpen == old(store.isOpen)
      ensures !Blank(old(inputValue)) && !old(store.isLoading) ==>
        && request == Some(Request(Trim(old(inputValue)), old(store.sessionId)))
        && Tidy(request.value.message)
        && inputValue == ""
        && store.messages == old(store.messages) + [Message(User, Trim(old(inputValue)))]
        && store.isLoading && !ShowsHint()
        && store.sessionId == old(store.sessionId) && store.isOpen == old(store.isOpen)
    {
      if Blank(inputValue) || store.isLoading {
        return None;
      }
      var userMessage := Trim(inputValue);
      TrimTidy(inputValue);
      inputValue := "";
      store.AddMessage(Message(User, userMessage));
      store.SetLoading(true);
      request := Some(Request(userMessage, store.sessionId));
    }

    /**
     * `handleSendMessage` after the request: the session follows `NextSession`, exactly one
     * assistant message is added (the response or the apology), and loading stops.
     */
    method Settle(reply: BackendReply)
      modifies store
      ensures store.sessionId == NextSession(old(store.sessionId), reply)
      ensures store.messages == old(store.messages) + [ReplyMessage(reply)]
      ensures !store.isLoading && store.isOpen == old(store.isOpen)
    {
      if reply.Ok? {
        if NewSession(store.sessionId, reply) {
          store.SetSessionId(reply.sessionId.value);
        }
      }
      store.AddMessage(ReplyMessage(reply));
      store.SetLoading(false);
    }
  }

  /** A full exchange adds the user's text and then one assistant message, and leaves the store idle. */
  method Exchange(widget: Widget, reply: BackendReply) returns (request: Option<Request>)
    requires !Blank(widget.inputValue) && !widget.store.isLoading
    modifies widget, widget.store
    ensures request.Some?
    ensures widget.store.messages
      == old(widget.store.messages) + [Message(User, Trim(old(widget.inputValue))), ReplyMessage(reply)]
    ensures !widget.store.isLoading && widget.inputValue == ""
  {
    request := widget.SendMessage();
    widget.Settle(reply);
  }
}
