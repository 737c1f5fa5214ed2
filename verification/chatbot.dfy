/**
 * The thematic chatbot: a conversation manager plus the language-model
 * backend. The backend is abstract: listing the installed models and
 * generating a reply are parameters whose outcomes may be failures.
 */
module Chatbot {
  import opened Wrappers
  import opened ExpertPrompts
  import opened Conversation

  /** The two exception classes the chatbot raises. */
  datatype ChatError = ModelNotAvailableError | ConnectionErrorOllama

  const DefaultModelName: string := "gemma3:1b"
  const DefaultInitialExpert: ExpertType := Programming

  // ---------------------------------------------------------------------
  // Model availability

  /** One entry of the backend's model listing; either key may be missing. */
  datatype ModelEntry = ModelEntry(model: Option<string>, name: Option<string>)

  /** The listing response; its `models` key may be missing. */
  datatype ListResponse = ListResponse(models: Option<seq<ModelEntry>>)

  /** Asking the backend for its model listing: unreachable, or a response. */
  datatype ListOutcome = ListUnreachable | Listed(response: ListResponse)

  /** `m.get("model") or m.get("name")`: the model key unless missing or empty, else the name key. */
  function ListedName(m: ModelEntry): Option<string> {
    if m.model.Some? && m.model.value != "" then m.model else m.name
  }

  /** The entries of the listing, treating a missing `models` key as an empty list. */
  function Entries(response: ListResponse): seq<ModelEntry> {
    match response.models
    case Some(ms) => ms
    case None => []
  }

  /** The listed name of every entry, in listing order. */
  function ListedNames(response: ListResponse): (names: seq<Option<string>>)
    ensures |names| == |Entries(response)|
    ensures forall i :: 0 <= i < |names| ==> names[i] == ListedName(Entries(response)[i])
  {
    var entries := Entries(response);
    seq(|entries|, i requires 0 <= i < |entries| => ListedName(entries[i]))
  }

  /** The membership test: some entry's listed name is exactly `modelName`. */
  predicate IsModelListed(modelName: string, response: ListResponse)
    ensures IsModelListed(modelName, response) <==>
      exists i :: 0 <= i < |Entries(response)| && ListedName(Entries(response)[i]) == Some(modelName)
  {
    var names := ListedNames(response);
    assert forall i :: 0 <= i < |names| ==> names[i] == ListedName(Entries(response)[i]);
    Some(modelName) in names
  }

  /**
   * The availability check as written: the error raised for a missing model
   * is caught by the handler meant for an unreachable backend, so every
   * failure comes out as ConnectionErrorOllama.
   */
  function CheckModelAvailableAsWritten(modelName: string, listing: ListOutcome): Outcome<ChatError> {
    match listing
    case ListUnreachable => Fail(ConnectionErrorOllama)
    case Listed(response) =>
      var raised := if IsModelListed(modelName, response) then Pass else Fail(ModelNotAvailableError);
      if raised.Fail? then Fail(ConnectionErrorOllama) else Pass
  }

  /** As written, the check never reports ModelNotAvailableError, even for a missing model. */
  lemma MissingModelSurfacesAsConnectionError(modelName: string, listing: ListOutcome)
    ensures CheckModelAvailableAsWritten(modelName, listing) != Fail(ModelNotAvailableError)
    ensures listing.Listed? && !IsModelListed(modelName, listing.response) ==>
      CheckModelAvailableAsWritten(modelName, listing) == Fail(ConnectionErrorOllama)
  {
  }

  /**
   * The availability check as intended: a reachable backend that does not
   * list the model gives ModelNotAvailableError; an unreachable one gives
   * ConnectionErrorOllama; otherwise the check passes.
   */
  function CheckModelAvailable(modelName: string, listing: ListOutcome): (o: Outcome<ChatError>)
    ensures o.Pass? <==> listing.Listed? && IsModelListed(modelName, listing.response)
    ensures o == Fail(ModelNotAvailableError) <==> listing.Listed? && !IsModelListed(modelName, listing.response)
    ensures o == Fail(ConnectionErrorOllama) <==> listing.ListUnreachable?
  {
    match listing
    case ListUnreachable => Fail(ConnectionErrorOllama)
    case Listed(response) =>
      if IsModelListed(modelName, response) then Pass else Fail(ModelNotAvailableError)
  }

  /** Both checks agree except on a reachable backend that lacks the model. */
  lemma ChecksAgreeExceptOnMissingModel(modelName: string, listing: ListOutcome)
    ensures CheckModelAvailable(modelName, listing) != CheckModelAvailableAsWritten(modelName, listing)
        <==> listing.Listed? && !IsModelListed(modelName, listing.response)
  {
  }

  // ---------------------------------------------------------------------
  // Sending a message

  /** The `message` part of a chat response; its `content` key may be missing. */
  datatype ReplyMessage = ReplyMessage(content: Option<string>)

  /** A chat response; its `message` key may be missing. */
  datatype ChatResponse = ChatResponse(message: Option<ReplyMessage>)

  /** Asking the backend for a reply: the call fails, or it returns a response. */
  datatype ChatOutcome = ChatFailed | ChatReplied(response: ChatResponse)

  /** The backend's chat call: the model name and the full context in, an outcome out. */
  type Backend = (string, seq<Message>) -> ChatOutcome

  /** `response.get("message", {}).get("content", "")`. */
  function ReplyContent(response: ChatResponse): string {
    match response.message
    case None => ""
    case Some(m) => match m.content case None => "" case Some(c) => c
  }

  /** The state after sending a message, and what the call returns or raises. */
  datatype Exchanged = Exchanged(session: Session, result: Result<string, ChatError>)

  /**
   * Sending `userMessage`: the user turn is appended to the current expert's
   * history, that whole history is the context handed to the backend, and
   * only a reply adds an assistant turn; a failed call raises
   * ConnectionErrorOllama and leaves the user turn last. The current expert
   * and every other expert's history are untouched.
   */
  function Exchange(s: Session, modelName: string, userMessage: string, chat: Backend): (r: Exchanged)
    ensures var context := s.histories[s.current] + [Message(User, userMessage)];
      && r.session.current == s.current
      && (forall e :: e != s.current ==> r.session.histories[e] == s.histories[e])
      && (chat(modelName, context).ChatFailed? ==>
            r.result == Failure(ConnectionErrorOllama) && r.session.histories[s.current] == context)
      && (chat(modelName, context).ChatReplied? ==>
            var content := ReplyContent(chat(modelName, context).response);
            r.result == Success(content) &&
            r.session.histories[s.current] == context + [Message(Assistant, content)])
    ensures Consistent(s.histories) ==> Consistent(r.session.histories)
  {
    var withUser := Appended(s, User, userMessage, None);
    var context := History(withUser, None);
    match chat(modelName, context)
    case ChatFailed => Exchanged(withUser, Failure(ConnectionErrorOllama))
    case ChatReplied(response) =>
      var content := ReplyContent(response);
      Exchanged(Appended(withUser, Assistant, content, None), Success(content))
  }

  /** A successful send grows the active history by exactly two messages, a failed one by one. */
  lemma ExchangeGrowth(s: Session, modelName: string, userMessage: string, chat: Backend)
    ensures var r := Exchange(s, modelName, userMessage, chat);
      |r.session.histories[s.current]| == |s.histories[s.current]| + (if r.result.Success? then 2 else 1)
  {
  }

  /** A reply without a message, or a message without content, is recorded and returned as "". */
  lemma MissingContentIsEmpty(s: Session, modelName: string, userMessage: string, chat: Backend)
    requires var context := s.histories[s.current] + [Message(User, userMessage)];
      chat(modelName, context).ChatReplied? &&
      (chat(modelName, context).response.message.None? ||
       chat(modelName, context).response.message.value.content.None?)
    ensures var r := Exchange(s, modelName, userMessage, chat);
      r.result == Success("") &&
      r.session.histories[s.current][|r.session.histories[s.current]| - 1] == Message(Assistant, "")
  {
  }

  // ---------------------------------------------------------------------
  // The chatbot object

  class ThematicChatbot {
    const modelName: string
    const conversationManager: ConversationManager

    ghost predicate Valid()
      reads this, conversationManager
    {
      conversationManager.Valid()
    }

    /** Stores the model name and creates a freshly seeded conversation manager. */
    constructor (modelName: string, initialExpert: ExpertType)
      ensures Valid() && fresh(conversationManager)
      ensures this.modelName == modelName
      ensures conversationManager.State() == Seeded(initialExpert)
    {
      this.modelName := modelName;
      conversationManager := new ConversationManager(initialExpert);
    }

    method SetExpert(expert: ExpertType, resetHistory: bool)
      requires Valid()
      modifies conversationManager
      ensures Valid()
      ensures conversationManager.State() == Switched(old(conversationManager.State()), expert, resetHistory)
    {
      conversationManager.SetExpert(expert, resetHistory);
    }

    function GetActiveExpert(): (e: ExpertType)
      reads this, conversationManager
      ensures e == conversationManager.State().current
    {
      conversationManager.GetCurrentExpert()
    }

    function GetHistory(): (h: seq<Message>)
      reads this, conversationManager
      requires Valid()
      ensures h == History(conversationManager.State(), None)
      ensures WellFormedHistory(GetActiveExpert(), h)
    {
      conversationManager.GetHistory(None)
    }

    method SendMessage(userMessage: string, chat: Backend) returns (result: Result<string, ChatError>)
      requires Valid()
      modifies conversationManager
      ensures Valid()
      ensures Exchanged(conversationManager.State(), result)
           == Exchange(old(conversationManager.State()), modelName, userMessage, chat)
    {
      conversationManager.AddUserMessage(userMessage, None);
      var history := conversationManager.GetHistory(None);
      var outcome := chat(modelName, history);
      match outcome
      case ChatFailed =>
        result := Failure(ConnectionErrorOllama);
      case ChatReplied(response) =>
        var assistantMessage := ReplyContent(response);
        conversationManager.AddAssistantMessage(assistantMessage, None);
        result := Success(assistantMessage);
    }
  }

  /**
   * Building a chatbot: the object is made, then the model check runs; a
   * failing check raises its error and no chatbot is handed out.
   */
  method Create(modelName: string, initialExpert: ExpertType, listing: ListOutcome)
    returns (r: Result<ThematicChatbot, ChatError>)
    ensures r.Failure? <==> CheckModelAvailable(modelName, listing).Fail?
    ensures r.Failure? ==> r.error == CheckModelAvailable(modelName, listing).error
    ensures r.Success? ==>
      fresh(r.value) && fresh(r.value.conversationManager) && r.value.Valid() &&
      r.value.modelName == modelName &&
      r.value.conversationManager.State() == Seeded(initialExpert)
  {
    var chatbot := new ThematicChatbot(modelName, initialExpert);
    var check := CheckModelAvailable(modelName, listing);
    if check.Fail? {
      r := Failure(check.error);
    } else {
      r := Success(chatbot);
    }
  }
}
