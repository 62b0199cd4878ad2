/** The chatbot panel's visibility flag and the guard on using it outside its provider. */
module Chatbot {
  import opened Wrappers

  /** The three ways the flag is changed. */
  datatype Action = Toggle | Open | Close

  /** The visibility after an action. */
  function Next(shown: bool, a: Action): (r: bool)
    ensures a == Toggle ==> r != shown
    ensures a == Open ==> r
    ensures a == Close ==> !r
  {
    match a
    case Toggle => !shown
    case Open => true
    case Close => false
  }

  /** Toggling twice restores the flag; opening and closing are idempotent. */
  lemma ActionLaws(shown: bool)
    ensures Next(Next(shown, Toggle), Toggle) == shown
    ensures Next(Next(shown, Open), Open) == Next(shown, Open)
    ensures Next(Next(shown, Close), Close) == Next(shown, Close)
    ensures Next(Next(shown, Open), Toggle) == false
    ensures Next(Next(shown, Close), Toggle) == true
  {
  }

  /** The provider's state. */
  class ChatbotState {
    var showChatbot: bool

    /** The panel starts hidden. */
    constructor ()
      ensures !showChatbot
    {
      showChatbot := false;
    }

    /** `toggleChatbot`. */
    method ToggleChatbot()
      modifies this
      ensures showChatbot == Next(old(showChatbot), Toggle)
      ensures showChatbot == !old(showChatbot)
    {
      showChatbot := !showChatbot;
    }

    /** `openChatbot`. */
    method OpenChatbot()
      modifies this
      ensures showChatbot == Next(old(showChatbot), Open)
    {
      showChatbot := true;
    }

    /** `closeChatbot`. */
    method CloseChatbot()
      modifies this
      ensures showChatbot == Next(old(showChatbot), Close)
    {
      showChatbot := false;
    }
  }

  const OutsideProviderMessage := "useChatbot must be used within a ChatbotProvider"

  /** `useChatbot`: the nearest provider's state, or the error thrown when there is none. */
  function UseChatbot(context: Option<ChatbotState>): (r: Result<ChatbotState, string>)
    ensures r.Failure? <==> context.None?
    ensures r.Success? ==> r.value == context.value
    ensures r.Failure? ==> r.error == OutsideProviderMessage
  {
    match context
    case None => Failure(OutsideProviderMessage)
    case Some(s) => Success(s)
  }
}
