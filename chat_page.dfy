/**
 * The full-page agent chat (frontend/src/app/chat/page.tsx): two welcome messages, a draft,
 * and a sending state with an error line. Sending is split at its `await`: `HandleSubmit`
 * does what happens before the agent is asked and returns the prompt it asks with, and
 * `Settle` does what happens once the agent's reply (or its failure) is in.
 */
module ChatPage {
  import opened Wrappers
  import opened Text
  import opened Conversation

  const INITIAL_MESSAGES: seq<Message> := [
    Message(Assistant, "¡Hola! Soy el agente inteligente de IMDADIC. Estoy aquí para ayudarte a entender anomalías inmobiliarias, detectar patrones de riesgo y explorar datos geográficos."),
    Message(Assistant, "Puedes preguntarme sobre casos específicos, tendencias por ciudad, o solicitar análisis detallados. ¿En qué te puedo ayudar hoy?")
  ]

  const AGENT_ERROR := "No se pudo conectar con el agente. Por favor, intenta nuevamente."

  const ENTER := "Enter"

  class Page {
    var messages: seq<Message>
    var inputValue: string
    var isSending: bool
    var error: Option<string>

    /**
     * The welcome messages stay first, every message the user added is tidy, and while a
     * prompt is with the agent the last message is that prompt and no error is shown.
     */
    predicate Valid()
      reads this
    {
      && |messages| >= |INITIAL_MESSAGES|
      && messages[..|INITIAL_MESSAGES|] == INITIAL_MESSAGES
      && UserTidyFrom(messages, |INITIAL_MESSAGES|)
      && (isSending ==> error == None && messages[|messages| - 1].role == User)
    }

    constructor()
      ensures messages == INITIAL_MESSAGES && inputValue == "" && !isSending && error == None
      ensures Valid()
    {
      messages, inputValue, isSending, error := INITIAL_MESSAGES, "", false, None;
    }

    /**
     * The send button is enabled (`!inputValue.trim() || sending.isSending` is false) exactly
     * when the draft has a non-whitespace character and nothing is being sent.
     */
    function CanSubmit(): (r: bool)
      reads this
      ensures r <==> !AllWhitespace(inputValue) && !isSending
    {
      BlankSpec(inputValue);
      !Blank(inputValue) && !isSending
    }

    /** The quick suggestions show exactly while only the welcome messages are there and nothing is sending. */
    function ShowSuggestions(): (r: bool)
      reads this
      requires Valid()
      ensures r <==> messages == INITIAL_MESSAGES && !isSending
    {
      |messages| == |INITIAL_MESSAGES| && !isSending
    }

    /** `handleChange`: the draft is what was typed, and a shown error is cleared. */
    method HandleChange(value: string)
      requires Valid()
      modifies this
      ensures inputValue == value && error == None
      ensures messages == old(messages) && isSending == old(isSending)
      ensures Valid()
    {
      inputValue := value;
      if error.Some? {
        error := None;
      }
    }

    /** `handleSuggestionClick`: the suggestion becomes the draft. */
    method HandleSuggestionClick(query: string)
      requires Valid()
      modifies this
      ensures inputValue == query
      ensures messages == old(messages) && isSending == old(isSending) && error == old(error)
      ensures Valid()
    {
      inputValue := query;
    }

    /**
     * `handleSubmit` up to the `await`: when the button would be disabled nothing happens;
     * otherwise the trimmed draft is added as the user's message, the draft is emptied, the
     * page is sending with no error, and the trimmed draft is the prompt sent to the agent.
     */
    method HandleSubmit() returns (prompt: Option<string>)
      requires Valid()
      modifies this
      ensures !old(CanSubmit()) ==>
        prompt == None && messages == old(messages) && inputValue == old(inputValue)
        && isSending == old(isSending) && error == old(error)
      ensures old(CanSubmit()) ==>
        && prompt == Some(Trim(old(inputValue)))
        && messages == old(messages) + [Message(User, Trim(old(inputValue)))]
        && inputValue == "" && isSending && error == None
      ensures Valid()
      ensures old(CanSubmit()) ==> !ShowSuggestions()
    {
      var trimmed := Trim(inputValue);
      if trimmed == [] || isSending {
        return None;
      }
      TrimTidy(inputValue);
      Send(trimmed);
      prompt := Some(trimmed);
    }

    /** The part of `handleSubmit` that sends a tidy prompt: it joins the conversation, the draft is emptied and the page is sending. */
    method Send(text: string)
      requires Valid() && !isSending && Tidy(text)
      modifies this
      ensures messages == old(messages) + [Message(User, text)]
      ensures inputValue == "" && isSending && error == None
      ensures Valid()
    {
      AppendKeepsTidy(messages, |INITIAL_MESSAGES|, Message(User, text));
      messages := messages + [Message(User, text)];
      inputValue := "";
      isSending, error := true, None;
    }

    /**
     * `handleSubmit` after the `await`: an answer is added as the assistant's message; a
     * failure adds nothing and shows the fixed error. Either way the page stops sending.
     */
    method Settle(reply: Reply)
      requires Valid() && isSending
      modifies this
      ensures !isSending && inputValue == old(inputValue)
      ensures reply.Answer? ==> messages == old(messages) + [Message(Assistant, reply.text)] && error == None
      ensures reply.Failure? ==> messages == old(messages) && error == Some(AGENT_ERROR)
      ensures Valid()
      ensures !ShowSuggestions()
    {
      match reply
      case Answer(text) =>
        AppendKeepsTidy(messages, |INITIAL_MESSAGES|, Message(Assistant, text));
        messages := messages + [Message(Assistant, text)];
        isSending, error := false, None;
      case Failure =>
        isSending, error := false, Some(AGENT_ERROR);
    }

    /** `handleKeyDown`: Enter without Shift submits; any other key changes nothing. */
    method HandleKeyDown(key: string, shiftKey: bool) returns (prompt: Option<string>)
      requires Valid()
      modifies this
      ensures !(key == ENTER && !shiftKey) ==>
        prompt == None && messages == old(messages) && inputValue == old(inputValue)
        && isSending == old(isSending) && error == old(error)
      ensures key == ENTER && !shiftKey && old(CanSubmit()) ==>
        prompt == Some(Trim(old(inputValue))) && messages == old(messages) + [Message(User, Trim(old(inputValue)))]
      ensures Valid()
    {
      prompt := None;
      if key == ENTER && !shiftKey {
        prompt := HandleSubmit();
      }
    }
  }

  /** A failed exchange keeps the user's message and shows the error until the draft is edited. */
  method FailThenEdit(page: Page, value: string)
    requires page.Valid() && page.CanSubmit()
    modifies page
    ensures page.messages == old(page.messages) + [Message(User, Trim(old(page.inputValue)))]
    ensures page.error == None && !page.isSending && page.inputValue == value
  {
    var prompt := page.HandleSubmit();
    page.Settle(Failure);
    assert page.error == Some(AGENT_ERROR);
    page.HandleChange(value);
  }
}
