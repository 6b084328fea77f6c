/** The chat screen of app/chat.tsx: the per-mode system prompt and welcome text, the
    `searchMode` flag, and what sending a message does to the screen's state. */
module ChatScreen {
  import opened Wrappers
  import opened Strings
  import opened Completions
  import GroqService
  import WebSearchService

  const DefaultMode := "general"
  const SearchMode := "search"
  const CreativeMode := "creative"
  const CodeMode := "code"

  const CreativePrompt := "You are a creative writing assistant. Help users with storytelling, character development, plot ideas, and creative writing techniques. Be imaginative and inspiring."
  const CodePrompt := "You are a programming assistant. Help users with coding questions, provide code examples, explain programming concepts, and assist with debugging. Be precise and helpful."
  const GeneralPrompt := "You are a helpful AI assistant. Provide accurate, helpful, and friendly responses to user questions."

  const SearchWelcome := "Hi! I'm your AI search assistant. I can search the web and provide you with comprehensive answers. What would you like to know?"
  const CreativeWelcome := "Hello! I'm here to help with your creative writing. Whether it's stories, poems, or brainstorming ideas, let's create something amazing together!"
  const CodeWelcome := "Hey there! I'm your coding assistant. I can help with programming questions, code reviews, debugging, and more. What are you working on?"
  const GeneralWelcome := "Hello! I'm Simple Chat Bot powered by Groq and Qwen. How can I help you today?"

  const FailureAlert := "Failed to get response. Please check your API key and try again."

  /** `const { mode = 'general' } = useLocalSearchParams()`: the route's `mode`, or
      'general' when it has none. */
  function RouteMode(param: Option<string>): (mode: string)
    ensures param.None? ==> mode == DefaultMode
    ensures param.Some? ==> mode == param.value
  {
    param.GetOr(DefaultMode)
  }

  /** `getSystemPrompt`: 'creative' and 'code' have their own prompts; every other
      mode, 'search' and 'general' included, gets the generic one. */
  function SystemPrompt(mode: string): (p: string)
    ensures p == CreativePrompt <==> mode == CreativeMode
    ensures p == CodePrompt <==> mode == CodeMode
    ensures p == GeneralPrompt <==> mode != CreativeMode && mode != CodeMode
  {
    match mode
    case "creative" => CreativePrompt
    case "code" => CodePrompt
    case _ => GeneralPrompt
  }

  /** `getWelcomeMessage`: 'search', 'creative' and 'code' each have their own text;
      every other mode gets the default one. */
  function WelcomeMessage(mode: string): (w: string)
    ensures w == SearchWelcome <==> mode == SearchMode
    ensures w == CreativeWelcome <==> mode == CreativeMode
    ensures w == CodeWelcome <==> mode == CodeMode
    ensures w == GeneralWelcome <==> mode != SearchMode && mode != CreativeMode && mode != CodeMode
  {
    match mode
    case "search" => SearchWelcome
    case "creative" => CreativeWelcome
    case "code" => CodeWelcome
    case _ => GeneralWelcome
  }

  /** The search mode greets differently from the general mode, but when it chats
      (with `searchMode` off) it uses the general mode's system prompt. */
  lemma SearchModeChatsLikeGeneral()
    ensures SystemPrompt(SearchMode) == SystemPrompt(DefaultMode) == GeneralPrompt
    ensures WelcomeMessage(SearchMode) != WelcomeMessage(DefaultMode)
  {
  }

  /** The rule in `onSend`: web search only when the flag is on and the mode is
      'search'. */
  predicate UsesWebSearch(searchMode: bool, mode: string) {
    searchMode && mode == SearchMode
  }

  /** The answer to `text` the screen asks for, as the services state it: None when
      the call throws. Web search when the rule says so; otherwise `chat` with the
      mode's system prompt. */
  predicate Answered(searchMode: bool, mode: string, text: string, storedKey: Option<string>,
                     encode: string -> string, fetch: ChatRequest -> FetchOutcome,
                     response: Option<string>, sent: seq<ChatRequest>)
  {
    if UsesWebSearch(searchMode, mode) then
      var x := WebSearchService.SearchAndAnswer(text, encode, storedKey, fetch);
      sent == x.sent && response == x.result.ToOption()
    else
      && (!Truthy(storedKey) ==> response.None? && sent == [])
      && (Truthy(storedKey) ==>
            && |sent| == 1
            && GroqService.IsGroqRequest(sent[0], storedKey.value, text, Some(SystemPrompt(mode)), false)
            && response == GroqService.ChatReply(fetch(sent[0])).ToOption())
  }

  datatype Sender = Person | Bot

  /** A message of the chat list, reduced to its text and who sent it. */
  datatype ChatMessage = ChatMessage(text: string, sender: Sender)

  /** The bot message a reply adds to the list: one for an answer, none for an error. */
  function BotMessages(reply: Option<string>): (added: multiset<ChatMessage>)
    ensures |added| == (if reply.Some? then 1 else 0)
    ensures forall m <- added :: m.sender == Bot && m.text == reply.value
  {
    if reply.Some? then multiset{ChatMessage(reply.value, Bot)} else multiset{}
  }

  /** The state of one chat screen. The list is a multiset: where `GiftedChat.append`
      places new messages is not part of the model. */
  class Screen {
    var mode: string
    var messages: multiset<ChatMessage>
    var isTyping: bool
    var searchMode: bool

    /** The first render: the route's mode, no messages, not typing, flag off. */
    constructor (param: Option<string>)
      ensures mode == RouteMode(param)
      ensures messages == multiset{} && !isTyping && !searchMode
    {
      mode := RouteMode(param);
      messages := multiset{};
      isTyping := false;
      searchMode := false;
    }

    /** The effect that runs whenever the mode is set: the list becomes the single
        welcome message, and the flag is switched on in the search mode (it is never
        switched off here). */
    method ShowMode(newMode: string)
      modifies this
      ensures mode == newMode
      ensures messages == multiset{ChatMessage(WelcomeMessage(newMode), Bot)}
      ensures searchMode == (old(searchMode) || newMode == SearchMode)
      ensures isTyping == old(isTyping)
    {
      mode := newMode;
      messages := multiset{ChatMessage(WelcomeMessage(newMode), Bot)};
      if newMode == SearchMode {
        searchMode := true;
      }
    }

    /** `toggleSearchMode`: flips the flag and nothing else. */
    method ToggleSearchMode()
      modifies this
      ensures searchMode == !old(searchMode)
      ensures mode == old(mode) && messages == old(messages) && isTyping == old(isTyping)
    {
      searchMode := !searchMode;
    }

    /** The call in the `try` block of `onSend`: `searchAndAnswer` or `chat`, chosen
        by the current flag and mode. `response` is None when the call throws. */
    method Respond(text: string, storedKey: Option<string>,
                   encode: string -> string, fetch: ChatRequest -> FetchOutcome)
      returns (response: Option<string>, sent: seq<ChatRequest>)
      ensures Answered(searchMode, mode, text, storedKey, encode, fetch, response, sent)
    {
      var result: Result<string, ServiceError>;
      if searchMode && mode == SearchMode {
        var x := WebSearchService.SearchAndAnswer(text, encode, storedKey, fetch);
        result, sent := x.result, x.sent;
      } else {
        result, sent := GroqService.Chat(text, Some(SystemPrompt(mode)), storedKey, fetch);
      }
      response := result.ToOption();
    }

    /** `onSend`: adds the person's messages, shows the typing indicator while the
        answer is fetched for the first of them, then adds the answer as one bot
        message, or raises the failure alert. `typingWhileWaiting` records the
        indicator as it was set before the request; it is a record of that
        assignment, not a property derived from the rest of the handler. With no
        message the access to its text throws, which the handler reports like any
        other failure. */
    method OnSend(newMessages: seq<ChatMessage>, storedKey: Option<string>,
                  encode: string -> string, fetch: ChatRequest -> FetchOutcome)
      returns (reply: Option<string>, alert: Option<string>, sent: seq<ChatRequest>,
               ghost typingWhileWaiting: bool)
      modifies this
      ensures typingWhileWaiting && !isTyping
      ensures mode == old(mode) && searchMode == old(searchMode)
      ensures messages == old(messages) + multiset(newMessages) + BotMessages(reply)
      ensures reply.Some? <==> alert.None?
      ensures alert.Some? ==> alert.value == FailureAlert
      ensures newMessages == [] ==> alert.Some? && sent == []
      ensures newMessages != [] ==>
        Answered(old(searchMode), old(mode), newMessages[0].text, storedKey, encode, fetch, reply, sent)
    {
      messages := messages + multiset(newMessages);
      isTyping := true;
      typingWhileWaiting := isTyping;
      if newMessages == [] {
        reply, sent := None, [];
      } else {
        reply, sent := Respond(newMessages[0].text, storedKey, encode, fetch);
        messages := messages + BotMessages(reply);
      }
      alert := if reply.Some? then None else Some(FailureAlert);
      isTyping := false;
    }
  }
}
