/**
 * The chat store of the floating assistant (frontend/src/store/chatStore.ts): whether the
 * window is open, the conversation, the backend session id and a loading flag, with one
 * setter per field. Only the session id and the conversation are written to local storage.
 */
module ChatStore {
  import opened Wrappers
  import opened Conversation

  /** What `partialize` keeps for local storage. */
  datatype Persisted = Persisted(sessionId: Option<string>, messages: seq<Message>)

  /** Nothing saved yet: no session and no messages. */
  const NOTHING_SAVED := Persisted(None, [])

  class Store {
    var isOpen: bool
    var messages: seq<Message>
    var sessionId: Option<string>
    var isLoading: bool

    /** The initial state: closed, empty, no session, not loading. */
    constructor()
      ensures !isOpen && messages == [] && sessionId == None && !isLoading
      ensures Partialize() == NOTHING_SAVED
    {
      isOpen, messages, sessionId, isLoading := false, [], None, false;
    }

    /**
     * The store as the persist middleware rebuilds it on load: the saved fields merged over
     * the initial state, so the window starts closed and not loading.
     */
    constructor Rehydrated(saved: Persisted)
      ensures !isOpen && !isLoading
      ensures messages == saved.messages && sessionId == saved.sessionId
      ensures Partialize() == saved
    {
      isOpen, messages, sessionId, isLoading := false, saved.messages, saved.sessionId, false;
    }

    /** `partialize`: the session id and the conversation, and nothing else. */
    function Partialize(): (p: Persisted)
      reads this
      ensures p.sessionId == sessionId && p.messages == messages
    {
      Persisted(sessionId, messages)
    }

    /** `toggleChat`: flips the window; the saved part is untouched. */
    method ToggleChat()
      modifies this
      ensures isOpen == !old(isOpen)
      ensures messages == old(messages) && sessionId == old(sessionId) && isLoading == old(isLoading)
      ensures Partialize() == old(Partialize())
    {
      isOpen := !isOpen;
    }

    /** `setIsOpen`. */
    method SetIsOpen(open: bool)
      modifies this
      ensures isOpen == open
      ensures messages == old(messages) && sessionId == old(sessionId) && isLoading == old(isLoading)
      ensures Partialize() == old(Partialize())
    {
      isOpen := open;
    }

    /** `addMessage`: the message goes at the end of the conversation, which is saved. */
    method AddMessage(message: Message)
      modifies this
      ensures messages == old(messages) + [message]
      ensures isOpen == old(isOpen) && sessionId == old(sessionId) && isLoading == old(isLoading)
      ensures Partialize() == Persisted(old(sessionId), old(messages) + [message])
    {
      messages := messages + [message];
    }

    /** `setSessionId`. */
    method SetSessionId(id: string)
      modifies this
      ensures sessionId == Some(id)
      ensures isOpen == old(isOpen) && messages == old(messages) && isLoading == old(isLoading)
      ensures Partialize() == Persisted(Some(id), old(messages))
    {
      sessionId := Some(id);
    }

    /** `setLoading`: the flag is not saved. */
    method SetLoading(loading: bool)
      modifies this
      ensures isLoading == loading
      ensures isOpen == old(isOpen) && messages == old(messages) && sessionId == old(sessionId)
      ensures Partialize() == old(Partialize())
    {
      isLoading := loading;
    }

    /** `clearMessages`: the conversation is emptied; the session is kept. */
    method ClearMessages()
      modifies this
      ensures messages == []
      ensures isOpen == old(isOpen) && sessionId == old(sessionId) && isLoading == old(isLoading)
      ensures Partialize() == Persisted(old(sessionId), [])
    {
      messages := [];
    }
  }

  /** Toggling twice gives back the window state it started with, and changes nothing saved. */
  method ToggleTwice(store: Store)
    modifies store
    ensures store.isOpen == old(store.isOpen)
    ensures store.Partialize() == old(store.Partialize()) && store.isLoading == old(store.isLoading)
  {
    store.ToggleChat();
    store.ToggleChat();
  }

  /** Saving and loading again gives back the saved conversation and session. */
  method SaveAndReload(store: Store) returns (reloaded: Store)
    ensures fresh(reloaded)
    ensures reloaded.messages == store.messages && reloaded.sessionId == store.sessionId
    ensures !reloaded.isOpen && !reloaded.isLoading
  {
    reloaded := new Store.Rehydrated(store.Partialize());
  }
}
