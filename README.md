# AI Restaurant — a verified model of its ordering and assistant rules

Foodie is a restaurant web app. It has a React front end, a Python chat back end and a Python Cloud Functions back end. This project models the app's deterministic rules in Dafny and proves what those rules promise. The rules are:

- **Shopping cart.** The cart store (`CartContext`) holds an ordered list of lines, each a dish with a quantity. It supports add, remove, set quantity, clear and look up quantity, derives totals from the list, and mirrors the list into browser storage. Each cart row has +, − and remove controls (`CartItemControls`).
- **Menu page.** The page filters dishes with a switch, groups the filtered dishes by category in first-seen order, highlights the active filter button (`Menu`, `FilterButtons`), and gives each dish card at most two priority badges with their colours (`MenuItemView`).
- **Chat widget.** The widget keeps an append-only transcript with a blank-input guard and a deferred placeholder reply (`AIAssistant`).
- **Chat back end:**
  - keyword intent detection, the five-entry history window and tool-call extraction (`RestaurantAgent`);
  - a language guess plus greeting and quick-answer matching (`QuickResponses`);
  - the development mock endpoint (`MockChat`).
- **Data rules:**
  - grouping and searching the dish documents (`MenuService`);
  - order pricing, new-order shape, the add-to-cart acknowledgement and the status-to-progress table (`OrderService`);
  - API-key list parsing, the environment flags and the Firebase credentials (`Config`).

`Text` and `Sequences` hold the shared string and sequence definitions:

- lower-casing, stripping, substring containment, splitting and integer formatting;
- order-preserving filtering, subsequence, and first-seen grouping.

`MenuTypes` holds the dish record and four dishes of the static menu data as fixtures. `Wrappers` holds `Option`.

Mutable state is modelled as classes:

- `CartContext.CartProvider` (the `items` state) and `CartContext.BrowserStorage` (the 'cart' key);
- `AIAssistant.ChatWidget` (transcript, input, scheduled replies);
- `Config.Settings` (the settings object whose key list `__init__` extends).

Loops that build lists and dictionaries are methods, each proved against a specification function:

- `Menu.GroupByCategory`, `MenuItemView.DisplayTags`;
- `RestaurantAgent.FormatChatHistory`, `RestaurantAgent.ExtractToolCalls`;
- `MenuService.GetAllMenuItems`, `MenuService.SearchLoop`.

Everything else is functions with lemmas.

Inputs from outside the program are parameters:

- the documents of the menu collection (for `get_all_menu_items`, the list its query streams; for `search_items`, the collection before the category and price conditions);
- the id the database gives a new order;
- the stored order an id resolves to;
- message ids made from the clock;
- the index `random.choice` picks;
- the environment values the settings read.

## Model

| member | source | states |
|---|---|---|
| CartContext.Find | frontend/src/contexts/CartContext.tsx:58 | `find` by id: None exactly when no line has the id, otherwise the first line carrying it |
| CartContext.QuantityOfWellFormed | frontend/src/contexts/CartContext.tsx:103-106 | in a well-formed cart `getItemQuantity` is the matching line's quantity, at least 1 exactly when the dish is present, else 0 |
| CartContext.AddExistingBumpsItsLine | frontend/src/contexts/CartContext.tsx:58-66 | adding a dish already present raises exactly that line's quantity by 1; every other line and the order stay |
| CartContext.AddAbsentAppends | frontend/src/contexts/CartContext.tsx:67-70 | adding an absent dish appends one line of quantity 1 at the end |
| CartContext.AddCounts | frontend/src/contexts/CartContext.tsx:55-72 | after `addToCart` the added dish's quantity is one higher and every other dish's quantity is unchanged |
| CartContext.AddTimesCounts | frontend/src/contexts/CartContext.tsx:103-106 | after n adds of a dish that was absent, `getItemQuantity` returns n |
| CartContext.RemoveKeepsOthers | frontend/src/contexts/CartContext.tsx:75-79 | `removeFromCart` keeps exactly the lines with another id, as a subsequence in original order; an absent id changes nothing |
| CartContext.UpdateCases | frontend/src/contexts/CartContext.tsx:82-95 | quantity ≤ 0 behaves as remove; a positive quantity sets (not adds to) the matching line and changes nothing else; an absent id is a no-op |
| CartContext.AddPreservesWellFormed | frontend/src/contexts/CartContext.tsx:55-72 | `addToCart` keeps ids unique and quantities ≥ 1 |
| CartContext.RemovePreservesWellFormed | frontend/src/contexts/CartContext.tsx:75-79 | `removeFromCart` keeps ids unique and quantities ≥ 1 |
| CartContext.UpdatePreservesWellFormed | frontend/src/contexts/CartContext.tsx:82-95 | `updateQuantity` keeps ids unique and quantities ≥ 1, whatever quantity is asked for |
| CartContext.SumQuantities | frontend/src/contexts/CartContext.tsx:50-52 | in a well-formed cart `totalItems` is at least the number of lines and is 0 exactly for the empty cart |
| CartContext.AddTotals | frontend/src/contexts/CartContext.tsx:45-52 | each add raises `totalItems` by 1 and `totalAmount` by the price of the dish whose line grew |
| CartContext.RemoveTotals | frontend/src/contexts/CartContext.tsx:50-52 | removing a dish lowers `totalItems` by that dish's quantity |
| CartContext.ScenarioTotals | frontend/src/contexts/CartContext.tsx:45-52 | SE-001 (139) added once and SE-002 (149) twice give 3 items and 437 kr; the cleared cart gives 0 and 0 |
| CartContext.CartProvider.constructor | frontend/src/contexts/CartContext.tsx:109-127 | on mount the save effect writes the empty list before the load effect reads it back, so storage holds [] and no earlier cart is restored |
| CartContext.CartProvider.SaveEffect | frontend/src/contexts/CartContext.tsx:109-115 | storage holds exactly the current list |
| CartContext.CartProvider.LoadEffect | frontend/src/contexts/CartContext.tsx:118-127 | a stored list replaces the items unvalidated; no stored list leaves them |
| CartContext.CartProvider.AddToCart | frontend/src/contexts/CartContext.tsx:55-72 | the items become the add transform of the old items, storage mirrors them, and the cart invariant is kept |
| CartContext.CartProvider.RemoveFromCart | frontend/src/contexts/CartContext.tsx:75-79 | the items become the remove transform of the old items, storage mirrors them, and the invariant is kept |
| CartContext.CartProvider.UpdateQuantity | frontend/src/contexts/CartContext.tsx:82-95 | the items become the update transform (remove at ≤ 0), storage mirrors them, and the invariant is kept |
| CartContext.CartProvider.ClearCart | frontend/src/contexts/CartContext.tsx:98-100 | the cart and its stored copy become empty |
| CartContext.CartProvider.GetItemQuantity | frontend/src/contexts/CartContext.tsx:103-106 | 0 for an absent dish; in a valid cart it is the matching line's quantity, so positive exactly when the dish is present |
| CartContext.CartProvider.TotalItems | frontend/src/contexts/CartContext.tsx:50-52 | in a valid cart the item count is at least the number of lines and 0 only for the empty cart |
| CartContext.CartProvider.TotalAmount | frontend/src/contexts/CartContext.tsx:45-47 | the amount of the empty cart is 0, and a valid cart with no negative price never has a negative amount |
| CartItemControls.HandleDecrease | frontend/src/components/Cart/CartItem.tsx:25-29 | asks for quantity − 1 for the row's own id exactly when quantity > 1, and then never below 1; otherwise does nothing |
| CartItemControls.HandleIncrease | frontend/src/components/Cart/CartItem.tsx:31-33 | always asks for exactly one more than the row's quantity, for the row's own id |
| CartItemControls.HandleRemove | frontend/src/components/Cart/CartItem.tsx:35-37 | removes the row's own id |
| CartItemControls.DecreaseDisabledIffInert | frontend/src/components/Cart/CartItem.tsx:72 | the − button is disabled exactly when its handler would do nothing |
| CartItemControls.DecreaseNeverRemoves | frontend/src/components/Cart/CartItem.tsx:25-29 | on a well-formed cart the decrease path lowers the row by one, keeps it and the invariant, and never reaches the removal branch |
| CartItemControls.IncreaseAddsOne | frontend/src/components/Cart/CartItem.tsx:31-33 | the increase path raises only that row, by one |
| CartItemControls.RemoveTakesRowOut | frontend/src/components/Cart/CartItem.tsx:35-37 | the remove path takes the row out and its quantity off the item count |
| Menu.FilteredIsSubsequence | frontend/src/components/Menu/Menu.tsx:43-64 | no data gives []; 'all' gives the dishes unchanged; any filter gives an order-preserving subsequence |
| Menu.NamedFilters | frontend/src/components/Menu/Menu.tsx:51-59 | what each named case keeps: vegetarian or vegan category or tag; gluten-free tag or allergen entry; spicy or hearty tag; popular tag |
| Menu.UnknownFilterKeepsAll | frontend/src/components/Menu/Menu.tsx:60-61 | an unrecognised filter keeps every dish, in order |
| Menu.GlutenFreeFixtures | frontend/src/components/Menu/Menu.tsx:56-57 | of SE-001, SE-008 and SE-009 the gluten-free filter keeps SE-008 (by tag) and SE-009 (by allergen entry) |
| Menu.GroupByCategory | frontend/src/components/Menu/Menu.tsx:88-94 | the reduce builds one key per category in first-seen order, and each group is the dishes of that category in filtered order |
| Menu.GroupingPlacesEachDishOnce | frontend/src/components/Menu/Menu.tsx:88-94 | each dish is in its own category's group and in no other, and the group sizes add up to the number of dishes |
| FilterButtons.OnClick | frontend/src/components/FilterButtons/FilterButtons.tsx:58 | the value passed on click makes the option active exactly when that value is lower-case |
| FilterButtons.OptionValuesDistinct | frontend/src/components/FilterButtons/FilterButtons.tsx:22-48 | five options with pairwise distinct, lower-case values |
| FilterButtons.AtMostOneActive | frontend/src/components/FilterButtons/FilterButtons.tsx:53 | whatever the selected filter, at most one option is active |
| FilterButtons.ClickHighlightsThatButton | frontend/src/components/FilterButtons/FilterButtons.tsx:53-58 | clicking an option makes exactly that option active |
| FilterButtons.PopularFallsThrough | frontend/src/components/FilterButtons/FilterButtons.tsx:30 | the mis-encoded Popular value lights its button but reaches the menu's default case, so every dish is kept |
| FilterButtons.CorrectedPopularKeepsPopular | frontend/src/components/Menu/Menu.tsx:52-53 | with the value spelled 'populärt' the button lights up and keeps exactly the dishes tagged 'populärt' |
| MenuItemView.TagStyle | frontend/src/components/MenuItem/MenuItem.tsx:12-23 | a lower-cased tag in the seven-entry table gets its colour, never the grey default; a tag outside the table gets grey (`Object.prototype` names are not modelled, see Left out) |
| MenuItemView.TagStyleIgnoresCase | frontend/src/components/MenuItem/MenuItem.tsx:22 | a tag and its lower-case form get the same style |
| MenuItemView.EarnedLabelsByPriority | frontend/src/components/MenuItem/MenuItem.tsx:30-45 | the candidate badges are Vegetariskt, Veganskt, Glutenfritt, Laktosfritt in that order, each exactly when its condition holds |
| MenuItemView.ShownLabels | frontend/src/components/MenuItem/MenuItem.tsx:47 | at most two badges, in priority order |
| MenuItemView.DisplayTags | frontend/src/components/MenuItem/MenuItem.tsx:26-48 | the pushes and the slice give exactly the first two earned badges |
| MenuItemView.ShownLabelsDistinct | frontend/src/components/MenuItem/MenuItem.tsx:30-35 | Vegetariskt and Veganskt never both show, and no badge shows twice |
| MenuItemView.GlutenBadgeAlwaysFits | frontend/src/components/MenuItem/MenuItem.tsx:38-40 | Glutenfritt shows exactly when the tags hold 'glutenfritt' or the allergens hold 'glutenfri'; the cut to two never drops it |
| MenuItemView.BadgeStyles | frontend/src/components/MenuItem/MenuItem.tsx:13-17 | the four capitalised badges find their green, blue and purple entries once lower-cased |
| MenuItemView.ShownBadgesAreColoured | frontend/src/components/MenuItem/MenuItem.tsx:12-48 | every badge a card shows gets a colour, never grey |
| MenuItemView.MushroomStroganoffBadges | frontend/src/components/MenuItem/MenuItem.tsx:47 | SE-009 earns Veganskt, Glutenfritt, Laktosfritt and shows only the first two |
| AIAssistant.IsBlank | frontend/src/components/AIAssistant/AIAssistant.tsx:47 | blank exactly when the trimmed input is empty |
| AIAssistant.InitialCounts | frontend/src/components/AIAssistant/AIAssistant.tsx:17-36 | the opening transcript holds three assistant messages and no user message |
| AIAssistant.ChatWidget.constructor | frontend/src/components/AIAssistant/AIAssistant.tsx:17-38 | the widget opens with messages '1', '2', '3', an empty input and nothing scheduled |
| AIAssistant.ChatWidget.ChangeInput | frontend/src/components/AIAssistant/AIAssistant.tsx:155 | typing changes only the input |
| AIAssistant.ChatWidget.HandleSendMessage | frontend/src/components/AIAssistant/AIAssistant.tsx:46-69 | blank input changes nothing; otherwise one user message with the untrimmed text is appended, the input is cleared and one reply is scheduled, even while others are pending; the transcript only grows and replies balance user messages |
| AIAssistant.ChatWidget.ReplyArrives | frontend/src/components/AIAssistant/AIAssistant.tsx:59-67 | a scheduled reply appends the fixed placeholder as an assistant message and nothing else changes |
| AIAssistant.ChatWidget.HandleKeyPress | frontend/src/components/AIAssistant/AIAssistant.tsx:71-76 | Enter without Shift is prevented and sends; any other key changes nothing |
| RestaurantAgent.DetectIntent | backend/src/core/restaurant_agent.py:96-119 | an intent is detected exactly when one of its keywords occurs in the lower-cased query; intents keep declaration order; the primary intent is the first, or 'general' |
| RestaurantAgent.PrimaryIsFirstDeclared | backend/src/core/restaurant_agent.py:116-119 | the primary intent is the first flagged intent in declaration order |
| RestaurantAgent.OrderStatusAlsoAddsToCart | backend/src/core/restaurant_agent.py:107-110 | a query with "order status" flags both add_to_cart and order_status |
| RestaurantAgent.HelpAsksForHuman | backend/src/core/restaurant_agent.py:111-112 | any query with "help" flags human_support |
| RestaurantAgent.ToPromptMessage | backend/src/core/restaurant_agent.py:125-128 | role 'user' gives a human message, any other role an AI message, and the content is kept |
| RestaurantAgent.FormatChatHistory | backend/src/core/restaurant_agent.py:121-129 | the last min(5, n) entries, converted in order |
| RestaurantAgent.ExtractToolCalls | backend/src/core/restaurant_agent.py:177-194 | exactly one escalate_to_human call with no parameters when human_support is detected, none otherwise; add_to_cart adds nothing |
| QuickResponses.CountPresent | backend/src/utils/quick_responses.py:62-63 | the count is at most the word count and is 0 exactly when no word occurs |
| QuickResponses.NoSwedishWordMeansEnglish | backend/src/utils/quick_responses.py:56-65 | with no Swedish keyword present the language is English, so ties go to English |
| QuickResponses.WithoutClosingMarks | backend/src/utils/quick_responses.py:11 | removing the optional closing marks leaves a prefix at most two characters shorter |
| QuickResponses.SpaceThenLastWord | backend/src/utils/quick_responses.py:12 | `\s+word$` means only whitespace before the final word |
| QuickResponses.FirstQuick | backend/src/utils/quick_responses.py:89-92 | the first matching question pattern in table order, or none when no pattern matches |
| QuickResponses.GetQuickResponse | backend/src/utils/quick_responses.py:67-94 | greetings first: one of the three greetings in the detected language; otherwise the text of a matching question pattern in that language; None exactly when nothing matches |
| QuickResponses.QuestionAnswerIsFirstMatch | backend/src/utils/quick_responses.py:89-92 | without a greeting, the answer is the first matching pattern's text in the detected language |
| QuickResponses.ShouldUseMatchesAnyPick | backend/src/utils/quick_responses.py:96-106 | `should_use_quick_response` agrees with `get_quick_response` being non-None, whichever greeting the random pick chooses |
| QuickResponses.HejIsSwedishGreeting | backend/src/utils/quick_responses.py:11 | "Hej!" matches the first greeting pattern, is judged Swedish, and gets the chosen Swedish greeting |
| QuickResponses.HejHurMarDuIsNoGreeting | backend/src/utils/quick_responses.py:11-16 | greetings match the whole query: "hej hur mår du" matches no greeting pattern |
| QuickResponses.HejHurMarDuGetsNoAnswer | backend/src/utils/quick_responses.py:94 | "hej hur mår du" matches neither a greeting nor a question pattern, so the answer is None |
| MockChat.MakeRequest | backend/mock_chat.py:14-17 | conversation and user ids default to "test" |
| MockChat.ChatEndpoint | backend/mock_chat.py:24-37 | one of the three replies, echoing the conversation id, with an empty retrieved context |
| MockChat.GreetingShadowsMenu | backend/mock_chat.py:27-28 | any query containing "hi" is greeted, whatever else it asks |
| MockChat.ThisMenuIsGreeted | backend/mock_chat.py:27-30 | "this menu" gets the greeting, not the menu reply |
| MockChat.MenuReplyWhenAsked | backend/mock_chat.py:29-30 | without "hi", a query containing "menu" gets the menu reply |
| MockChat.OtherQueriesAreEchoed | backend/mock_chat.py:31-32 | every other query is embedded verbatim in the reply |
| MockChat.DefaultConversation | backend/mock_chat.py:16 | without a conversation id the reply belongs to "test" |
| MockChat.Health | backend/mock_chat.py:39-41 | the health probe reports "healthy" |
| MenuService.ToItem | backend/src/services/menu_service.py:53-54 | the item is the document's data with 'id' set to the document id, nothing else changed |
| MenuService.CategoryKey | backend/src/services/menu_service.py:56 | the category, or 'Other' when it is missing |
| MenuService.GetAllMenuItems | backend/src/services/menu_service.py:51-60 | one key per category in first-seen order; each group holds that category's items in stream order |
| MenuService.GroupingPlacesEachDocumentOnce | backend/src/services/menu_service.py:52-60 | each document is in the group of its category (or 'Other') and no other, carries its document id, and group sizes add up to the document count |
| MenuService.GroupsKeepStreamOrder | backend/src/services/menu_service.py:57-60 | each group is a subsequence of the stream |
| MenuService.SearchLoop | backend/src/services/menu_service.py:129-155 | the results are exactly the streamed items passing the allergen, tag and text checks, in stream order |
| MenuService.SearchItems | backend/src/services/menu_service.py:115-162 | the database filters on category and price, then the loop's checks |
| MenuService.SearchMembership | backend/src/services/menu_service.py:135-153 | a document passing every check is returned; every result passes every check and comes from such a document |
| MenuService.SearchKeepsStreamOrder | backend/src/services/menu_service.py:129-155 | results are an order-preserving subsequence of the streamed items |
| MenuService.ZeroPriceIsNoCap | backend/src/services/menu_service.py:124-125 | `max_price=0` is falsy and searches like no cap |
| MenuService.EmptyTagsKeepAll | backend/src/services/menu_service.py:142-145 | an empty tag list does not filter; for every non-empty list an item passes exactly when it passes without the list and shares a tag, so an item without tags is dropped |
| MenuService.QueryIgnoresCase | backend/src/services/menu_service.py:148-153 | the text query ignores case: "SILL" finds "Sill" |
| MenuService.SearchFindsNothingAsConstructed | backend/src/services/menu_service.py:34-36 | as constructed the service lacks `collection`, so the search returns [] even when documents match |
| MenuService.SearchWithCollection | backend/src/services/menu_service.py:115-117 | with a collection set, the search returns the filtered items |
| OrderService.SubtotalAppend | functions/src/services/order_service.py:41 | the subtotal of joined item lists is the sum of the parts, so item order does not matter |
| OrderService.SubtotalNonNegative | functions/src/services/order_service.py:41 | non-negative prices and quantities give a non-negative subtotal |
| OrderService.PriceOrder | functions/src/services/order_service.py:41-45 | fee 2.99 below a 50 subtotal and 0 from 50; taxes are 8% of the subtotal; the total is subtotal plus fee plus taxes |
| OrderService.FreeDeliveryThreshold | functions/src/services/order_service.py:42 | the fee is 0 exactly when the subtotal is at least 50, so exactly 50 ships free |
| OrderService.TotalCoversSubtotal | functions/src/services/order_service.py:43-45 | for non-negative orders the taxes are non-negative, the total is subtotal plus fee plus taxes, and it is at least the subtotal |
| OrderService.TotalDropsAtThreshold | functions/src/services/order_service.py:42-45 | a 49 order costs 55.91 and a 50 order only 54: the total is not monotone in the subtotal |
| OrderService.CreateOrder | functions/src/services/order_service.py:48-68 | a new order is 'pending', copies user and items, is priced by the rule, uses {} for missing customer info, and takes the database id |
| OrderService.AddToCart | functions/src/services/order_service.py:231-237 | success, the ids and quantity echoed, and a message "Added … item(s) to cart" |
| OrderService.AddOneToCart | functions/src/services/order_service.py:202-207 | with the default quantity, the reply is a success for quantity 1 whose message is "Added 1 item(s) to cart" |
| OrderService.CartMessageStatesQuantity | functions/src/services/order_service.py:233 | the middle of the message is the quantity's decimal text and reads back as the quantity |
| OrderService.EntryFor | functions/src/services/order_service.py:274-284 | the table row for a known status, pending's row otherwise; progress lies in 0..100 |
| OrderService.GetOrderStatusInfo | functions/src/services/order_service.py:268-294 | a missing order gives "Order not found"; otherwise the stored status (or 'pending') is reported with the progress and message of its `status_map` row (pending's row for an unknown status), progress within 0..100 |
| OrderService.UnknownStatusReadsAsPending | functions/src/services/order_service.py:283-290 | an unknown or missing status reports 10 and "Order received" while the stored status text is kept |
| OrderService.ProgressFollowsLifecycle | functions/src/services/order_service.py:274-281 | progress rises strictly from pending to delivered (100); cancelled reads 0 |
| OrderService.NewOrderIsReceived | functions/src/services/order_service.py:58 | a freshly created order reports 10 and "Order received" |
| Config.ExtraKeysAreClean | backend/src/config.py:87 | every key taken from API_KEYS is non-empty, stripped and comma-free |
| Config.ExtraKeysMembership | backend/src/config.py:85-87 | a key is taken exactly when it is the non-empty stripped form of a comma-separated piece |
| Config.KeysKeepListOrder | backend/src/config.py:87 | the keys keep the list's order |
| Config.BlankListAddsNothing | backend/src/config.py:86 | an empty or blank-and-comma API_KEYS adds nothing |
| Config.DuplicateKeyKept | backend/src/config.py:81-87 | keys are not de-duplicated: api_key "k" with API_KEYS "k" gives ["k", "k"] |
| Config.Settings.constructor | backend/src/config.py:78-87 | the key list is [api_key] when that is non-empty, else the loaded list, followed by the API_KEYS keys |
| Config.EnvironmentFlags | backend/src/config.py:56-64 | the development and production flags never hold together, and the comparison ignores case |
| Config.UnescapeNewlines | backend/src/config.py:71 | the replacement never lengthens the key and leaves a key without backslashes alone |
| Config.UnescapeLeavesNoEscape | backend/src/config.py:71 | no backslash-n pair is left after the replacement |
| Config.UnescapeUndoesEscape | backend/src/config.py:71 | a key without backslashes survives being escaped and read back |
| Config.Settings.FirebaseCredentials | backend/src/config.py:66-76 | the type is "service_account", the project id and client email are copied, the private key is `UnescapeNewlines` of the stored key (so no backslash-n pair survives and a backslash-free key is unchanged), and the token, auth and certificate URLs are the three fixed Google endpoints |
| Text.Split | backend/src/config.py:87 | `str.split(",")` gives at least one piece, none holding a comma, and joining them gives the input back |
| Text.IntToStringRoundTrip | functions/src/services/order_service.py:233 | the decimal text of an integer reads back as that integer |

## Left out

- Unicode case mapping and whitespace. `toLowerCase`, `str.lower` and `str.strip` are modelled for ASCII and Latin-1 letters (U+00C0 to U+00DE, except U+00D7). Whitespace is space, tab, line feed, vertical tab, form feed, carriage return and U+00A0. Other scripts, and Python's other whitespace characters, are not modelled.
- Regular expressions. The six anchored greeting patterns and five question patterns are written as predicates. `re.IGNORECASE` adds nothing, because the query is already lower-cased.
- Random choice. `random.choice` is replaced by an index parameter below 3.
- Clocks and timers. `Date.now()` message ids are parameters. The one-second `setTimeout` becomes the separate `ReplyArrives` step. Timestamps, `created_at`/`updated_at` and `_calculate_delivery_time` are not modelled.
- Rendering. JSX, CSS, icons, auto-scroll and the static components are not modelled.
- Browser storage. `localStorage` is one optional slot. JSON is treated as an exact encoding. Its exceptions are not modelled.
- Cart loading. A stored cart is loaded without validation, so the cart invariant holds only for carts built by the operations.
- Grouping key order and prototype keys. `Object.entries` lists integer-like keys first. The model uses insertion order, which is what the menu's word-valued categories get. The reduce tests `!acc[dish.category]` on a plain object, so a category named like an `Object.prototype` member (for example "constructor") would misbehave. This is not modelled.
- MenuItemView.TagStyle: the table lookup treats every key outside the seven entries as missing. In JavaScript, `tagStyles["constructor"]` or `tagStyles["__proto__"]` finds an `Object.prototype` member, which is truthy, so the grey fallback is not taken for those names. The card only looks up the four badge texts, so it never meets such a name.
- Firestore. Reads, writes, `add`, `.where`/`.order_by`/`.limit`/`.stream` and Firebase initialisation are outside the model. The streamed documents, the new document id and the stored order are parameters. The database filters of `search_items` are modelled as a filter on the given documents.
- MenuService.SearchItems: the stream the search loop walks is taken to be the given documents, filtered by the category and price conditions, in the order of `docs`. Firestore returns a query with an inequality filter (`priceSek <=`, line 125) ordered by that field, and other queries in document-id order. That ordering is not modelled, so the order of the results (`SearchKeepsStreamOrder`) holds for the order of `docs`, not for the database's order; which items are found (`SearchMembership`) does not depend on it.
- `get_item_by_id`, `get_daily_specials`, `get_order`, `update_order_status` and `get_user_orders` are not modelled. They are database reads and writes with no rule beyond copying the document id.
- Exceptions. The `except` branches of the services (logging, then [] / {} / re-raise) are not modelled, except for the missing `collection` attribute (see Findings).
- Field types. Dynamic-typing cases, such as a field that is present but None, or a non-string category, are not modelled.
- Rounding. `round(x, 2)`, `toFixed(2)` and floating point are not modelled. Prices are exact reals in the order service and integers (whole kronor) on the front end.
- OrderService.PriceOrder: states the unrounded amounts. The stored `pricing` holds them rounded to two decimals, and the delivery fee is the integer 0 rather than 0.0.
- OrderService.CreateOrder: a missing and an empty `customer_info` both become {}. Only the fields above are modelled.
- The language model. The LLM, prompt texts and `process_query` are outside the model. So are the chat HTTP client, the health check client and the test scripts.
- Settings loading. Pydantic loading from the environment and `.env` is replaced by constructor parameters. Only the fields the modelled members read are kept.
- Config.Settings.constructor and Config.DuplicateKeyKept: `loadedApiKeys` and `additional` are independent parameters. In the program both come from the one environment variable `API_KEYS`: pydantic-settings fills the list field `api_keys` from it (names are case-insensitive), decoding a list field's value as JSON before `__init__` runs. A plain comma list such as "k" or "a,b" would then fail to load, and the split at line 87 would only see JSON text. That decoding and the shared source are not modelled, so the scenario of `DuplicateKeyKept` (an empty loaded list with `API_KEYS` "k") may not be reachable in the running program.
- The `frontend/src/services/mockApi.ts` record declaration is not part of this model. The dish record has the fields the components read.

## Findings

| source | as written | input that shows it | evidently intended | confidence | as-written member | corrected member |
|---|---|---|---|---|---|---|
| frontend/src/components/FilterButtons/FilterButtons.tsx:30 | the Popular value is 'popul√§rt', a mis-encoded 'populärt' that matches no case of the menu's filter switch | clicking Popular: the button lights up, but every dish stays | value 'populärt', keeping only the dishes tagged 'populärt' | not executed | FilterButtons.PopularFallsThrough | FilterButtons.CorrectedPopularKeepsPopular |
| backend/src/services/menu_service.py:34-36 | `__init__` never sets `self.collection`, so `search_items` raises at line 117 and its `except` returns [] | any search, even with no filters over a non-empty dish collection | searching the dish collection and returning the filtered items | not executed | MenuService.SearchFindsNothingAsConstructed | MenuService.SearchItems |
