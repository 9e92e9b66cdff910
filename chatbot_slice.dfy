/** The chatbot slice of the Redux store (src/store/slices/chatbotSlice.ts): the conversation
    and whether the chat window is open. */
module ChatbotSlice {
  import opened Js

  datatype ChatMessage = ChatMessage(
    id: string,
    message: string,
    sender: string,
    timestamp: string,
    messageType: string)

  class ChatbotStore {
    var messages: seq<ChatMessage>
    var isOpen: bool
    var loading: bool
    var error: Option<string>

    /** Initially the chat is closed and empty. */
    constructor ()
      ensures messages == [] && !isOpen && !loading && error == None
    {
      messages := [];
      isOpen := false;
      loading := false;
      error := None;
    }

    method AddMessage(message: ChatMessage)
      modifies this`messages
      ensures messages == old(messages) + [message]
    {
      messages := messages + [message];
    }

    method SetMessages(payload: seq<ChatMessage>)
      modifies this`messages
      ensures messages == payload
    {
      messages := payload;
    }

    method ToggleChat()
      modifies this`isOpen
      ensures isOpen == !old(isOpen)
    {
      isOpen := !isOpen;
    }

    method SetLoading(value: bool)
      modifies this`loading
      ensures loading == value
    {
      loading := value;
    }

    method SetError(value: Option<string>)
      modifies this`error
      ensures error == value
    {
      error := value;
    }
  }

  /** Toggling the chat twice (the launcher button, then the close button) restores the window state
      and leaves the conversation alone. */
  method ToggleTwice(store: ChatbotStore)
    modifies store
    ensures store.isOpen == old(store.isOpen)
    ensures store.messages == old(store.messages)
  {
    store.ToggleChat();
    store.ToggleChat();
  }
}
