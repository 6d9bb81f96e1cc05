/**
 * The message box of the chat components (frontend/src/components/chat/ChatInput.tsx): it
 * holds a draft and hands the trimmed draft to its `onSend` callback. The callback is the
 * out-parameter `sent` of each handler: `None` when it was not called.
 */
module ChatInput {
  import opened Wrappers
  import opened Text
  import opened Conversation

  const ENTER := "Enter"

  class Box {
    var value: string

    constructor()
      ensures value == ""
    {
      value := "";
    }

    /** `onChange`: the draft is whatever was typed. */
    method Change(typed: string)
      modifies this
      ensures value == typed
    {
      value := typed;
    }

    /**
     * `handleSend`: a blank draft is not sent and stays as it is; otherwise the trimmed draft
     * is sent, and it is tidy, and the box is emptied.
     */
    method HandleSend() returns (sent: Option<string>)
      modifies this
      ensures Blank(old(value)) ==> sent == None && value == old(value)
      ensures !Blank(old(value)) ==> sent == Some(Trim(old(value))) && value == ""
      ensures sent.Some? ==> Tidy(sent.value)
    {
      var trimmed := Trim(value);
      if trimmed == [] {
        return None;
      }
      TrimTidy(value);
      sent := Some(trimmed);
      value := "";
    }

    /** `handleKeyDown`: Enter without Shift sends; every other key leaves everything as it is. */
    method HandleKeyDown(key: string, shiftKey: bool) returns (sent: Option<string>)
      modifies this
      ensures !(key == ENTER && !shiftKey) ==> sent == None && value == old(value)
      ensures key == ENTER && !shiftKey && Blank(old(value)) ==> sent == None && value == old(value)
      ensures key == ENTER && !shiftKey && !Blank(old(value)) ==> sent == Some(Trim(old(value))) && value == ""
    {
      sent := None;
      if key == ENTER && !shiftKey {
        sent := HandleSend();
      }
    }
  }

  /** A second send straight after the first sends nothing: the box was emptied, or still blank. */
  method SendTwice(box: Box) returns (first: Option<string>, second: Option<string>)
    modifies box
    ensures first.Some? <==> !Blank(old(box.value))
    ensures first.Some? ==> second == None && box.value == ""
    ensures first == None ==> second == None && box.value == old(box.value)
  {
    first := box.HandleSend();
    second := box.HandleSend();
  }
}
