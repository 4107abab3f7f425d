/**
 * The deterministic parts of the restaurant agent
 * (backend/src/core/restaurant_agent.py): keyword intent detection, the
 * chat-history window handed to the prompt, and the tool calls derived
 * from the detected intents.
 */
module RestaurantAgent {
  import opened Text
  import opened Sequences

  datatype Intent = MenuInquiry | AllergenCheck | PriceInquiry | AddToCart | OrderStatus | HumanSupport

  /** The keys of the `intents` dict, in declaration order (lines 100-113). */
  const IntentOrder: seq<Intent> := [MenuInquiry, AllergenCheck, PriceInquiry, AddToCart, OrderStatus, HumanSupport]

  /** Every intent appears in the declaration order. */
  lemma IntentOrderComplete()
    ensures forall intent :: intent in IntentOrder
  {
    forall intent ensures intent in IntentOrder {
      match intent
      case MenuInquiry => assert IntentOrder[0] == intent;
      case AllergenCheck => assert IntentOrder[1] == intent;
      case PriceInquiry => assert IntentOrder[2] == intent;
      case AddToCart => assert IntentOrder[3] == intent;
      case OrderStatus => assert IntentOrder[4] == intent;
      case HumanSupport => assert IntentOrder[5] == intent;
    }
  }

  function Name(intent: Intent): string
  {
    match intent
    case MenuInquiry => "menu_inquiry"
    case AllergenCheck => "allergen_check"
    case PriceInquiry => "price_inquiry"
    case AddToCart => "add_to_cart"
    case OrderStatus => "order_status"
    case HumanSupport => "human_support"
  }

  /** The word list each intent is tested against. */
  function Keywords(intent: Intent): seq<string>
  {
    match intent
    case MenuInquiry => ["menu", "dish", "food", "eat", "hungry", "recommend"]
    case AllergenCheck => ["allerg", "gluten", "dairy", "nut", "vegan", "vegetarian"]
    case PriceInquiry => ["price", "cost", "expensive", "cheap", "afford"]
    case AddToCart => ["add to cart", "order", "want", "i'll have", "give me"]
    case OrderStatus => ["order status", "where is", "delivery", "when will"]
    case HumanSupport => ["human", "person", "staff", "manager", "help"]
  }

  /** `any(word in query_lower for word in ...)`: some keyword occurs as a substring. */
  predicate Flagged(queryLower: string, intent: Intent)
  {
    exists i | 0 <= i < |Keywords(intent)| :: Contains(queryLower, Keywords(intent)[i])
  }

  function FlaggedIn(queryLower: string): Intent -> bool
  {
    (intent: Intent) => Flagged(queryLower, intent)
  }

  datatype IntentData = IntentData(intents: seq<Intent>, primaryIntent: string)

  /** `_detect_intent` (lines 96-119). */
  function DetectIntent(query: string): (r: IntentData)
    ensures forall intent :: intent in r.intents <==> Flagged(Lower(query), intent)
    ensures IsSubsequence(r.intents, IntentOrder)
    ensures r.intents == [] ==> r.primaryIntent == "general"
    ensures r.intents != [] ==> r.primaryIntent == Name(r.intents[0])
  {
    var flagged := FlaggedIn(Lower(query));
    var detected := Filter(IntentOrder, flagged);
    FilterIsSubsequence(IntentOrder, flagged);
    IntentOrderComplete();
    IntentData(detected, if detected == [] then "general" else Name(detected[0]))
  }

  /** The primary intent is the flagged intent declared first: no intent declared before it is flagged. */
  lemma {:induction false} PrimaryIsFirstDeclared(query: string, k: nat)
    requires k < |IntentOrder| && Flagged(Lower(query), IntentOrder[k])
    requires forall j | 0 <= j < k :: !Flagged(Lower(query), IntentOrder[j])
    ensures DetectIntent(query).primaryIntent == Name(IntentOrder[k])
  {
    FilterFirst(IntentOrder, FlaggedIn(Lower(query)), k);
  }

  /** "order status" contains "order": such a query asks both for the cart and for the order's status. */
  lemma OrderStatusAlsoAddsToCart(query: string)
    requires Contains(Lower(query), "order status")
    ensures AddToCart in DetectIntent(query).intents && OrderStatus in DetectIntent(query).intents
  {
    assert "order" + " status" == "order status";
    ContainsPrefixOfNeedle(Lower(query), "order", " status");
    assert Keywords(AddToCart)[1] == "order";
    assert Keywords(OrderStatus)[0] == "order status";
  }

  /** Any query mentioning "help" asks for a human. */
  lemma HelpAsksForHuman(query: string)
    requires Contains(Lower(query), "help")
    ensures HumanSupport in DetectIntent(query).intents
  {
    assert Keywords(HumanSupport)[4] == "help";
  }

  /** One entry of the conversation history as the API receives it. */
  datatype HistoryEntry = HistoryEntry(role: string, content: string)

  datatype PromptMessage = HumanMessage(content: string) | AIMessage(content: string)

  /** Role "user" becomes a human message, every other role an AI message. */
  function ToPromptMessage(entry: HistoryEntry): (m: PromptMessage)
    ensures m.HumanMessage? <==> entry.role == "user"
    ensures m.content == entry.content
  {
    if entry.role == "user" then HumanMessage(entry.content) else AIMessage(entry.content)
  }

  /** `_format_chat_history` (lines 121-129): the last five entries (`[-5:]`), converted in order. */
  method FormatChatHistory(history: seq<HistoryEntry>) returns (messages: seq<PromptMessage>)
    ensures |messages| == if |history| < 5 then |history| else 5
    ensures forall i | 0 <= i < |messages| :: messages[i] == ToPromptMessage(history[|history| - |messages| + i])
  {
    var start := if |history| < 5 then 0 else |history| - 5;
    messages := [];
    for j := start to |history|
      invariant |messages| == j - start
      invariant forall i | 0 <= i < |messages| :: messages[i] == ToPromptMessage(history[start + i])
    {
      messages := messages + [ToPromptMessage(history[j])];
    }
  }

  datatype ToolCall = ToolCall(tool: string, parameters: map<string, string>)

  /** `_extract_tool_calls` (lines 177-194): the response text is not inspected; add_to_cart contributes nothing yet. */
  method ExtractToolCalls(response: string, intentData: IntentData) returns (toolCalls: seq<ToolCall>)
    ensures |toolCalls| <= 1
    ensures |toolCalls| == 1 <==> HumanSupport in intentData.intents
    ensures forall t | t in toolCalls :: t.tool == "escalate_to_human" && t.parameters == map[]
  {
    toolCalls := [];
    if AddToCart in intentData.intents {
      // item and quantity parsing is not implemented in the agent
    }
    if HumanSupport in intentData.intents {
      toolCalls := toolCalls + [ToolCall("escalate_to_human", map[])];
    }
  }
}
