/** The chat component: a log of messages received through the SDK's app-message
    channel and sent from the local form. */
module Chat {
  import opened Daily
  import opened JsString

  /** The reserved control message asking for chat history; it is not shown. */
  const ChatHistoryRequest := "request-chat-history"
  /** The author shown for the local user's own messages. */
  const LocalAuthor := "Me"

  datatype Message = Message(name: string, message: string)

  /** The text a submission sends: the trimmed form value, or nothing when the
      form value is null or blank. */
  function SubmittedText(formValue: Option<string>): (r: Option<string>)
    ensures r.Some? <==> formValue.Some? && !IsBlank(formValue.value)
    ensures r.Some? ==> r.value == Trim(formValue.value) && r.value != []
    ensures r.Some? ==> !IsWhitespace(r.value[0]) && !IsWhitespace(r.value[|r.value| - 1])
  {
    if formValue.None? then None
    else
      var text := Trim(formValue.value);
      if text == [] then None else Some(text)
  }

  class ChatComponent {
    /** The local user's display name, handed down by the container. */
    const userName: string
    /** Whether an SDK call object existed when the component was initialised. */
    var hasCallObject: bool
    var messages: seq<Message>
    var chatIsOpen: bool
    /** The value of the form's message control; `None` is the null value the
        control holds after a reset. */
    var formMessage: Option<string>
    /** The commands issued to the SDK, in order. */
    ghost var issued: seq<Command>

    constructor (userName: string)
      ensures this.userName == userName
      ensures !hasCallObject && messages == [] && !chatIsOpen && formMessage == Some("")
      ensures issued == []
    {
      this.userName := userName;
      hasCallObject := false;
      messages := [];
      chatIsOpen := false;
      formMessage := Some("");
      issued := [];
    }

    /** Initialisation: `instance` tells whether the SDK already holds a call
        object; the component keeps it if so. */
    method Init(instance: bool)
      modifies this`hasCallObject
      ensures hasCallObject == instance
    {
      hasCallObject := instance;
    }

    /** Destruction: the message log is cleared, but only when there is a call
        object (without one the component returns first). */
    method OnDestroy()
      modifies this`messages
      ensures messages == if hasCallObject then [] else old(messages)
    {
      if !hasCallObject {
        return;
      }
      messages := [];
    }

    /** Show or hide the chat. */
    method ToggleChatView()
      modifies this`chatIsOpen
      ensures chatIsOpen == !old(chatIsOpen)
    {
      chatIsOpen := !chatIsOpen;
    }

    /** "app-message": append the message at the end, unless the payload is
        missing or it is the reserved history request. */
    method HandleNewMessage(e: Option<AppMessageEvent>)
      modifies this`messages
      ensures e.None? || e.value.data.event == ChatHistoryRequest ==> messages == old(messages)
      ensures e.Some? && e.value.data.event != ChatHistoryRequest ==>
                messages == old(messages) + [Message(e.value.data.name, e.value.data.message)]
    {
      if e.None? {
        return;
      }
      if e.value.data.event == ChatHistoryRequest {
        return;
      }
      messages := messages + [Message(e.value.data.name, e.value.data.message)];
    }

    /** Send the trimmed form text to the other participants under the user's
        name, append it locally under "Me", and reset the form.  A null or blank
        form value, or a missing call object, changes nothing. */
    method OnSubmit()
      modifies this`messages, this`formMessage, this`issued
      ensures var text := SubmittedText(old(formMessage));
              if text.None? || !hasCallObject then
                messages == old(messages) && formMessage == old(formMessage) && issued == old(issued)
              else
                issued == old(issued) + [SendAppMessage(text.value, userName)]
                && messages == old(messages) + [Message(LocalAuthor, text.value)]
                && formMessage == None
    {
      var text := SubmittedText(formMessage);
      if text.None? || !hasCallObject {
        return;
      }
      issued := issued + [SendAppMessage(text.value, userName)];
      messages := messages + [Message(LocalAuthor, text.value)];
      formMessage := None;
    }
  }

  /** Toggling the chat view twice restores it. */
  method ToggleChatViewTwice(c: ChatComponent)
    modifies c`chatIsOpen
    ensures c.chatIsOpen == old(c.chatIsOpen)
  {
    c.ToggleChatView();
    c.ToggleChatView();
  }

  /** A blank submission and a history request leave the log alone. */
  method IgnoredInput(blank: string)
    requires IsBlank(blank)
  {
    var chat := new ChatComponent("Alice");
    chat.Init(true);
    chat.formMessage := Some(blank);
    chat.OnSubmit();
    assert chat.messages == [] && chat.issued == [];

    chat.HandleNewMessage(Some(AppMessageEvent(AppData(ChatHistoryRequest, "", ""))));
    assert chat.messages == [];
  }

  /** A real message is sent once and logged under "Me"; the form is then null,
      so submitting again sends nothing. */
  method ChatSession(text: string, received: AppData)
    requires !IsBlank(text)
    requires received.event != ChatHistoryRequest
  {
    var chat := new ChatComponent("Alice");
    chat.Init(true);
    chat.formMessage := Some(text);
    chat.OnSubmit();
    assert chat.issued == [SendAppMessage(Trim(text), "Alice")];
    assert chat.messages == [Message(LocalAuthor, Trim(text))];

    chat.HandleNewMessage(Some(AppMessageEvent(received)));
    chat.OnSubmit();
    assert chat.messages == [Message(LocalAuthor, Trim(text)), Message(received.name, received.message)];
    assert |chat.issued| == 1;
  }
}
