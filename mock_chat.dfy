/**
 * The stand-in chat server used during front-end development
 * (backend/mock_chat.py): a fixed reply chosen by two substring tests, and a
 * health probe.
 */
module MockChat {
  import opened Wrappers
  import opened Text

  /** The request body; `conversation_id` and `user_id` default to "test" (lines 14-17). */
  datatype ChatRequest = ChatRequest(query: string, conversationId: string, userId: string)

  function MakeRequest(query: string, conversationId: Option<string>, userId: Option<string>): (r: ChatRequest)
    ensures r.query == query
    ensures r.conversationId == if conversationId.Some? then conversationId.value else "test"
    ensures r.userId == if userId.Some? then userId.value else "test"
  {
    ChatRequest(query, conversationId.GetOr("test"), userId.GetOr("test"))
  }

  /** The response body; `retrieved_context` keeps its default, the empty list (lines 19-22). */
  datatype ChatResponse = ChatResponse(response: string, conversationId: string, retrievedContext: seq<string>)

  const GreetingReply := "Hello! I'm your AI restaurant assistant. How can I help you today?"
  const MenuReply := "Our menu features delicious Swedish cuisine including k\U{00F6}ttbullar, fish dishes, and vegetarian options!"

  function EchoReply(query: string): string
  {
    "Thanks for your message: '" + query + "'. I'm a demo AI assistant for our restaurant!"
  }

  /** `chat_endpoint` (lines 24-37). */
  function ChatEndpoint(request: ChatRequest): (r: ChatResponse)
    ensures r.conversationId == request.conversationId && r.retrievedContext == []
    ensures r.response in {GreetingReply, MenuReply, EchoReply(request.query)}
  {
    var q := Lower(request.query);
    var response :=
      if Contains(q, "hi") then GreetingReply
      else if Contains(q, "menu") then MenuReply
      else EchoReply(request.query);
    ChatResponse(response, request.conversationId, [])
  }

  /** The greeting test comes first: any query containing "hi" is greeted, even one asking for the menu. */
  lemma GreetingShadowsMenu(request: ChatRequest)
    requires Contains(Lower(request.query), "hi")
    ensures ChatEndpoint(request).response == GreetingReply
  {
  }

  /** "Show me this menu" is greeted, because "this" contains "hi". */
  lemma ThisMenuIsGreeted()
    ensures ChatEndpoint(MakeRequest("this menu", None, None)).response == GreetingReply
  {
    LowerOfLowercase("this menu");
    ContainsAt("this menu", "hi", 1);
  }

  /** A query without "hi" but with "menu" gets the menu reply. */
  lemma MenuReplyWhenAsked(request: ChatRequest)
    requires !Contains(Lower(request.query), "hi") && Contains(Lower(request.query), "menu")
    ensures ChatEndpoint(request).response == MenuReply
  {
  }

  /** Every other query is echoed back verbatim inside the reply. */
  lemma {:induction false} OtherQueriesAreEchoed(request: ChatRequest)
    requires !Contains(Lower(request.query), "hi") && !Contains(Lower(request.query), "menu")
    ensures ChatEndpoint(request).response == EchoReply(request.query)
    ensures Contains(ChatEndpoint(request).response, request.query)
  {
    var prefix := "Thanks for your message: '";
    var reply := EchoReply(request.query);
    assert reply[|prefix|..|prefix| + |request.query|] == request.query;
    ContainsAt(reply, request.query, |prefix|);
  }

  /** The conversation id is echoed; without one the reply belongs to "test". */
  lemma DefaultConversation(query: string)
    ensures ChatEndpoint(MakeRequest(query, None, None)).conversationId == "test"
  {
  }

  datatype HealthStatus = HealthStatus(status: string)

  /** `health` (lines 39-41). */
  function Health(): (h: HealthStatus)
    ensures h.status == "healthy"
  {
    HealthStatus("healthy")
  }
}
