/**
 * The small help chat with its own state (frontend/src/components/widgets/ChatWidget.tsx):
 * a toggled window, one welcome message, a draft, a sending state with an error line, and an
 * unread-style badge on the closed button. Sending is split at its `await` as in the chat page.
 */
module HelpWidget {
  import opened Wrappers
  import opened Text
  import opened Conversation

  const WELCOME := Message(Assistant, "¡Hola! Soy el asistente IMDADIC. ¿En qué puedo ayudarte hoy?")

  const CONNECT_ERROR := "Error al conectar. Intenta nuevamente."

  class Widget {
    var isOpen: bool
    var messages: seq<Message>
    var inputValue: string
    var isSending: bool
    var error: Option<string>

    /**
     * The welcome message stays first, every message the user added is tidy, and while a
     * prompt is with the agent the last message is that prompt and no error is shown.
     */
    predicate Valid()
      reads this
    {
      && |messages| >= 1 && messages[0] == WELCOME
      && UserTidyFrom(messages, 1)
      && (isSending ==> error == None && messages[|messages| - 1].role == User)
    }

    constructor()
      ensures !isOpen && messages == [WELCOME] && inputValue == "" && !isSending && error == None
      ensures Valid()
    {
      isOpen, messages, inputValue, isSending, error := false, [WELCOME], "", false, None;
    }

    /**
     * The number on the closed button: shown only while the window is closed and the
     * conversation has gone past the welcome, and then it counts the messages after it.
     */
    function Badge(): (b: Option<nat>)
      reads this
      requires Valid()
      ensures b.Some? <==> !isOpen && messages[1..] != []
      ensures b.Some? ==> b.value == |messages[1..]| >= 1
    {
      if !isOpen && |messages| > 1 then Some(|messages| - 1) else None
    }

    /** `handleToggle`: flips the window and nothing else. */
    method HandleToggle()
      requires Valid()
      modifies this
      ensures isOpen == !old(isOpen)
      ensures messages == old(messages) && inputValue == old(inputValue)
      ensures isSending == old(isSending) && error == old(error)
      ensures Valid()
    {
      isOpen := !isOpen;
    }

    /** The input's `onChange`: the draft is what was typed; an error line stays until the next send. */
    method Change(value: string)
      requires Valid()
      modifies this
      ensures inputValue == value
      ensures isOpen == old(isOpen) && messages == old(messages)
      ensures isSending == old(isSending) && error == old(error)
      ensures Valid()
    {
      inputValue := value;
    }

    /**
     * `handleSubmit` up to the `await`: a blank draft or a pending send does nothing;
     * otherwise the trimmed draft is added as the user's message and is the prompt, the draft
     * is emptied, and the widget is sending with no error.
     */
    method HandleSubmit() returns (prompt: Option<string>)
      requires Valid()
      modifies this
      ensures if Blank(old(inputValue)) || old(isSending) then
          && prompt == None && messages == old(messages) && inputValue == old(inputValue)
          && isSending == old(isSending) && error == old(error)
        else
          && prompt == Some(Trim(old(inputValue)))
          && messages == old(messages) + [Message(User, Trim(old(inputValue)))]
          && inputValue == "" && isSending && error == None
      ensures isOpen == old(isOpen)
      ensures Valid()
    {
      if Blank(inputValue) || isSending {
        return None;
      }
      var trimmed := Trim(inputValue);
      TrimTidy(inputValue);
      Send(trimmed);
      prompt := Some(trimmed);
    }

    /** The part of `handleSubmit` that sends a tidy prompt: it joins the conversation, the draft is emptied and the widget is sending. */
    method Send(text: string)
      requires Valid() && !isSending && Tidy(text)
      modifies this
      ensures messages == old(messages) + [Message(User, text)]
      ensures inputValue == "" && isSending && error == None && isOpen == old(isOpen)
      ensures Valid()
    {
      AppendKeepsTidy(messages, 1, Message(User, text));
      messages := messages + [Message(User, text)];
      inputValue := "";
      isSending, error := true, None;
    }

    /**
     * `handleSubmit` after the `await`: an answer is added as the assistant's message; a
     * failure adds nothing and shows the fixed error. Either way the widget stops sending.
     */
    method Settle(reply: Reply)
      requires Valid() && isSending
      modifies this
      ensures !isSending && inputValue == old(inputValue) && isOpen == old(isOpen)
      ensures reply.Answer? ==> messages == old(messages) + [Message(Assistant, reply.text)] && error == None
      ensures reply.Failure? ==> messages == old(messages) && error == Some(CONNECT_ERROR)
      ensures Valid()
    {
      match reply
      case Answer(text) =>
        AppendKeepsTidy(messages, 1, Message(Assistant, text));
        messages := messages + [Message(Assistant, text)];
        isSending, error := false, None;
      case Failure =>
        isSending, error := false, Some(CONNECT_ERROR);
    }
  }

  /** A fresh widget shows no badge; after one message is sent and the window closed, it shows 1. */
  method BadgeAfterFirstMessage(text: string) returns (w: Widget)
    requires !Blank(text)
    ensures w.Valid() && !w.isOpen && w.Badge() == Some(1)
  {
    w := new Widget();
    assert w.Badge() == None;
    w.HandleToggle();
    w.Change(text);
    var prompt := w.HandleSubmit();
    w.HandleToggle();
  }
}
