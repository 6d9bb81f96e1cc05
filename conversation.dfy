/**
 * What the four chat front ends share: the two roles of a message, the message itself, the
 * rule that a blank draft is never sent, and what a sent draft looks like once `trim` has run.
 */
module Conversation {
  import opened Wrappers
  import opened Text

  datatype Role = User | Assistant

  /** A chat message as the client keeps it (ids and timestamps are not modelled). */
  datatype Message = Message(role: Role, content: string)

  /** The outcome of `sendMessageToAgent`: the agent's `response` text, or a rejected promise. */
  datatype Reply = Answer(text: string) | Failure

  /** `!value.trim()`: the draft is empty once trimmed. */
  predicate Blank(value: string) {
    Trim(value) == []
  }

  /** A draft is blank exactly when it is all whitespace. */
  lemma BlankSpec(value: string)
    ensures Blank(value) <==> AllWhitespace(value)
  {
    TrimEmpty(value);
  }

  /** Text as it leaves a chat box: not empty, and no whitespace at either end. */
  predicate Tidy(s: string) {
    s != [] && !IsWhitespace(s[0]) && !IsWhitespace(s[|s| - 1])
  }

  /** Trimming a draft that is not blank gives tidy text. */
  lemma TrimTidy(value: string)
    requires !Blank(value)
    ensures Tidy(Trim(value))
  {
    TrimEnds(value);
  }

  /** Every user message from `from` on is tidy (checked from the last message back). */
  predicate UserTidyFrom(messages: seq<Message>, from: nat)
    decreases |messages|
  {
    |messages| <= from
    || (var last := messages[|messages| - 1];
        (last.role == User ==> Tidy(last.content)) && UserTidyFrom(messages[..|messages| - 1], from))
  }

  /** Read message by message: each user message at or after `from` is tidy. */
  lemma {:induction false} UserTidyAt(messages: seq<Message>, from: nat, i: nat)
    requires UserTidyFrom(messages, from)
    requires from <= i < |messages| && messages[i].role == User
    ensures Tidy(messages[i].content)
    decreases |messages|
  {
    if i < |messages| - 1 {
      var init := messages[..|messages| - 1];
      assert init[i] == messages[i];
      UserTidyAt(init, from, i);
    }
  }

  /** Appending a message that is tidy when it is the user's keeps the user messages tidy and the front as it was. */
  lemma AppendKeepsTidy(messages: seq<Message>, from: nat, m: Message)
    requires UserTidyFrom(messages, from) && from <= |messages|
    requires m.role == User ==> Tidy(m.content)
    ensures UserTidyFrom(messages + [m], from)
    ensures (messages + [m])[..from] == messages[..from]
  {
    assert (messages + [m])[..|messages|] == messages;
  }
}
