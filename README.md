# WhatsApp order bot: the conversation state machine

This project models the per-phone conversation of a WhatsApp store bot and
proves properties of it. The repository holds two copies of the machine:

- the newer one in `src/services/chatbotService.js`. It adds a WELCOME
  language step, the global "language" and "menu" text commands, support
  tickets, FAQ answers and the checkout questions. It relies on the session
  store (`sessionService.js`), the menu senders (`menuService.js`), ticket
  finalisation (`supportService.js`) and the FAQ lookup (`utils/faq.js`);
- the older one in `server.js`. It holds the product catalogue, category and
  product selection, and the quantity step. Its initial and reset state is
  MAIN_MENU.

Both copies share one vocabulary: states, cart lines, orders and intents
(module `Conversation`).

How the model is built:

- **Sessions are objects.** Each session record is a Dafny `class` whose
  fields the handlers assign in place. The `sessions`/`orders` maps are the
  `map` fields of a `SessionStore` class.
- **Handlers run against a specification.** Each JavaScript handler is a
  `method` proved equal to a pure transition function over record values:
  `ChatbotMachine.OnText`/`OnButton`/`OnList` for the newer copy,
  `LegacyMachine.OnText`/`OnButton` for the older one.
- **Outcomes.** A transition returns the record afterwards, the outbound
  intents (what is sent, without its wording) and a store effect: keep the
  record, reset it, or record an order and then reset.
- **Built-ins.** The ECMAScript functions the decisions depend on are
  modelled on character sequences in `JsBuiltins`: `trim`, `toLowerCase`,
  `parseInt(s, 10)` and `String(n)`.

The properties proved are:

- a rule lemma for each per-state arm of both copies, named in that arm's
  row, which states each branch of the arm it covers;
- the global commands;
- round trips: `parseInt` reads back `String(n)`, and the product buttons
  lead to the products they are labelled with;
- session-store frame and idempotence lemmas;
- a reachability invariant for each copy, kept over any run of messages
  (`ChatbotProperties.Run`, `LegacyProperties.Run`);
- the complete ordering walk-through of the older copy.

Behaviour of the code worth knowing, as the model has it:

- **`resetSession` always gives WELCOME.** In `sessionService.js` it
  replaces the record with `createNewSession(false)`: state WELCOME,
  `isFirstTime` false, language null. Once a language is known, the next
  menu word or a `sendMainMenu` moves the user on to MAIN_MENU.
- **"none" keeps the old ticket number.** At TICKET_ORDERNUM, "none" (any
  case, trimmed) leaves `ticketOrderNum` as it was; it does not clear it.
  Apart from `finalizeTicket`, only `resetSession` clears the ticket fields
  (through `createNewSession(false)`). Leaving a ticket with a menu word does
  not, and a reset only follows CONFIRM or CANCEL at CHECKOUT_CONFIRM, which
  this copy never reaches. So a ticket abandoned with a menu word after its
  order number was typed hands that number to the next ticket answered with
  "none".
  `ChatbotProperties.StaleTicketOrderNumber` and `FinishTicket` show this.
- **The newer copy can never record an order.** Its SHOW_PRODUCTS arm is a
  placeholder. SELECT_CATEGORY has no button arm and falls through to the
  log-only default. So none of SHOW_PRODUCTS, ASK_QUANTITY, CART_DECISION,
  the checkout states or CHECK_ORDER_STATUS (left at once) is ever
  entered, and every run leaves `orders` as it found it.
  `ChatbotProperties.Run` states this. The ASK_QUANTITY and
  CHECKOUT_CONFIRM arms are still modelled with their own rules.
- **`orders` is not exported.** `chatbotService.js` imports `orders` from
  `sessionService.js` (line 12), which exports only `sessions`, `getSession`
  and `resetSession`. As an ES module the newer copy therefore fails to link
  and never loads. Under a CommonJS build `orders` would be `undefined`, and
  the STATUS button would throw in `checkOrderStatus` (line 428) after line
  230 had already written CHECK_ORDER_STATUS. The model keeps `orders` as a
  second map beside `sessions`, as `server.js` does; see "## Left out".
- **The older copy's listing invites typing an id.** The product listing
  says the id may be typed, but text at SHOW_PRODUCTS only gets "Please use
  the buttons" (`LegacyProperties.TextElsewhereUsesButtons`).
- **Topic ids are not checked.** A list reply at TICKET_TOPIC stores any
  id as it came; nothing checks it against the four topic ids.

## Model

| member | source | states |
|---|---|---|
| Catalog.CategoryOf | server.js:385-392 | a category is returned exactly when `id` is one of the three category keys, and its key is `id` |
| Catalog.FindIn | server.js:75 | NotFound exactly when no product of the list has the id; otherwise the first product carrying that id |
| Catalog.FindProductById | server.js:72-76 | null exactly when the gender or category list is missing; a found product is in that list and has the requested id; not-found means no product of the list has it |
| Catalog.FirstIndexOf | server.js:75 | the position of the first product with the id, or the length when there is none: every earlier product has another id |
| Catalog.CatalogShape | server.js:35-70 | every gender/category list has three products, and no product id occurs twice in the catalogue |
| JsBuiltins.TrimStartShape | src/services/chatbotService.js:60 | the leading trim keeps the suffix that starts at the first non-space character and drops only white space |
| JsBuiltins.TrimEndShape | src/services/chatbotService.js:60 | the trailing trim keeps the prefix that ends at the last non-space character and drops only white space |
| JsBuiltins.TrimPadded | src/services/chatbotService.js:60 | `trim` removes exactly the white space around a word that starts and ends with a non-space character |
| JsBuiltins.DigitPrefix | src/services/chatbotService.js:119 | the longest prefix made of decimal digits |
| JsBuiltins.ParseInt | src/services/chatbotService.js:119 | its own contract only names the steps it takes (skip white space, drop a sign, read digits); what the result means is stated by ParseIntOfParts, ParseIntParts and ParseIntNaN |
| JsBuiltins.ParseIntOfParts | src/services/chatbotService.js:119 | any text made of white space, a sign that is empty, "+" or "-", at least one digit and then text not starting with a digit parses to the signed value of those digits |
| JsBuiltins.ParseIntParts | src/services/chatbotService.js:119 | conversely, whenever the result is a number the text splits that way and the number is the signed value of the digits; with ParseIntOfParts, NaN exactly when no such split exists |
| JsBuiltins.ParseIntPlusThree | src/services/chatbotService.js:119 | "+3" parses to 3: a leading "+" is read and dropped |
| JsBuiltins.NumberToString | server.js:406 | `String(n)`: decimal digits whose value is `n`, with no leading zero |
| JsBuiltins.ParseIntOfDigits | src/services/chatbotService.js:119 | white space, a digit run, then any non-digit text parse to the digit run's value |
| JsBuiltins.ParseIntOfSignedDigits | src/services/chatbotService.js:119 | the same with a minus sign parses to the negated value |
| JsBuiltins.ParseIntOfNumber | server.js:405-415 | `parseInt` reads back `String(n)` whatever white space precedes it and whatever non-digit text follows it |
| JsBuiltins.ParseIntOfNegative | src/services/chatbotService.js:119-120 | `"-" + String(n)` parses to `-n` |
| JsBuiltins.ParseIntRoundTrip | server.js:405-415 | `parseInt(String(n), 10) == n` |
| JsBuiltins.ParseIntNaN | src/services/chatbotService.js:119-120 | NaN exactly when, after white space and sign, the text is empty or starts with a non-digit |
| Conversation.ReplyScript | src/services/chatbotService.js:90-100 | the reply is Arabic exactly when the language is "ar", English otherwise (null included) |
| Conversation.ParseQuantity | src/services/chatbotService.js:119-126 | a quantity is accepted exactly when `parseInt` gives a number greater than zero, and it is that number |
| Conversation.QuantityThree | src/services/chatbotService.js:119-120 | "3" is accepted as 3 |
| Conversation.QuantityTrailingText | src/services/chatbotService.js:119-120 | "3x" is accepted as 3 |
| Conversation.QuantityZero | src/services/chatbotService.js:119-120 | "0" is refused |
| Conversation.QuantityNegative | src/services/chatbotService.js:119-120 | "-5" is refused |
| Conversation.QuantityNotANumber | src/services/chatbotService.js:119-120 | "abc" is refused |
| Conversation.QuantityOfNumber | src/services/chatbotService.js:119-126 | a padded number followed by non-digits is accepted exactly when it is positive, as its value |
| Faq.GetFaqContent | src/utils/faq.js:139-145 | for "ar", the Arabic entry when the key exists, else the Arabic fallback; for any other language (null included), the English entry or the English fallback; never empty |
| Faq.FaqTablesAgree | src/utils/faq.js:5-131 | both tables have the same five keys |
| Faq.FaqAnswersKnownKeys | src/utils/faq.js:139-145 | a known key never gets a fallback text, in either language |
| SessionService.CreateNewSession | src/services/sessionService.js:32-48 | the given `isFirstTime`, no language, WELCOME, an empty cart, every other field null |
| SessionService.GetSessionSpec | src/services/sessionService.js:13-18 | an existing entry is left as it is; a missing one becomes a first-time session; orders are untouched |
| SessionService.ResetSpec | src/services/sessionService.js:23-25 | the entry becomes `createNewSession(false)`; orders are untouched |
| SessionService.GetSessionOnce | src/services/sessionService.js:13-18 | a second getSession changes nothing; other phones' entries are unchanged; an existing entry is returned as it is |
| SessionService.ResetOnce | src/services/sessionService.js:23-25 | two resets are one; other phones' entries are unchanged; the reset entry has `isFirstTime` false |
| SessionService.Session.constructor | src/services/sessionService.js:32-48 | the new object's fields are those of `createNewSession(isFirstTime)` |
| SessionService.SessionStore.constructor | src/services/sessionService.js:7 | empty session and order maps |
| SessionService.SessionStore.GetSession | src/services/sessionService.js:13-18 | returns the stored object when present; otherwise stores and returns a fresh first-time one; the store's contents become GetSessionSpec of the old contents |
| SessionService.SessionStore.ResetSession | src/services/sessionService.js:23-25 | the entry is replaced by a fresh object, and the contents become ResetSpec of the old contents |
| MenuService.CategoryMenu | src/services/menuService.js:98-117 | the button ids are exactly perfumes, deodorants, body sprays: the ids CategoryOf accepts |
| MenuService.FaqListMenu | src/services/menuService.js:148-175 | five rows whose ids are exactly the keys of the English FAQ table |
| MenuService.MainMenuStep | src/services/menuService.js:60-91 | only the state changes; WELCOME with the language menu exactly when `isFirstTime` and no language; otherwise MAIN_MENU with ORDER/STATUS/SUPPORT |
| MenuService.SendMainMenu | src/services/menuService.js:60-91 | looks the session up (creating it) and leaves it and the output as MainMenuStep says; other entries and orders unchanged |
| MenuService.SendReturningWelcome | src/services/menuService.js:40-54 | a welcome-back text followed by exactly what `sendMainMenu` does |
| SupportService.TicketTopicsList | src/services/supportService.js:13-30 | the rows are exactly the four topic ids in order; Arabic exactly when the language is "ar" |
| SupportService.FinalizeTicketStep | src/services/supportService.js:38-65 | the four ticket fields are cleared and the state is MAIN_MENU; the logged ticket holds the fields as they were before |
| SupportService.FinalizeTicketKeepsTheRest | src/services/supportService.js:38-65 | cart, language, gender, category, product and checkout fields are unchanged |
| SupportService.FinalizeTicket | src/services/supportService.js:38-65 | the object's new fields and the output are those of FinalizeTicketStep |
| ChatbotMachine.OnText | src/services/chatbotService.js:59-186 | a text never resets the session or records an order |
| ChatbotMachine.MenuWordStep | src/services/chatbotService.js:75-84 | only the state changes; WELCOME exactly when `isFirstTime` and no language, otherwise MAIN_MENU |
| ChatbotMachine.TicketText | src/services/chatbotService.js:86-115 | only the four ticket fields and the state change; the state becomes TICKET_ORDERNUM, TICKET_TOPIC or MAIN_MENU (rules in TicketNameStep, TicketOrderNumberStep and FinishTicket) |
| ChatbotMachine.OrderText | src/services/chatbotService.js:117-185 | language and `isFirstTime` are kept; outside ASK_QUANTITY and the two checkout questions it only asks for the buttons (rules in QuantityStepRule and CheckoutTextRule) |
| ChatbotMachine.QuantityStep | src/services/chatbotService.js:118-145 | the session is unchanged exactly when the quantity is refused; otherwise one line is appended to the cart, `currentProduct` is cleared and the state is CART_DECISION (exact line in QuantityStepRule) |
| ChatbotMachine.OnButton | src/services/chatbotService.js:194-335 | an order is placed only by CONFIRM at CHECKOUT_CONFIRM and a reset happens only on CANCEL there; states without an arm change nothing and send nothing |
| ChatbotMachine.WelcomeButton | src/services/chatbotService.js:197-222 | any id but LANG_EN/LANG_AR leaves the session alone; those two end in MAIN_MENU with `isFirstTime` false (full rule in WelcomeButtons) |
| ChatbotMachine.MainMenuButton | src/services/chatbotService.js:225-241 | only the state changes (rule in MainMenuButtonRule) |
| ChatbotMachine.SupportButton | src/services/chatbotService.js:243-274 | only the state changes (rule in SupportButtonRule) |
| ChatbotMachine.GenderButton | src/services/chatbotService.js:276-287 | only the gender and the state change, and a new gender comes with SELECT_CATEGORY (rule in GenderButtonRule) |
| ChatbotMachine.CartButton | src/services/chatbotService.js:294-310 | only the state changes (rule in CartButtonRule) |
| ChatbotMachine.ConfirmButton | src/services/chatbotService.js:312-330 | an order is placed exactly on CONFIRM, from the session's cart, name and address; a reset happens exactly on CANCEL |
| ChatbotMachine.Step | src/services/chatbotService.js:35-50 | the same phones keep sessions; other phones' sessions and orders are unchanged; other interactive kinds and unsupported types change nothing and send nothing |
| ChatbotMachine.Deliver | src/services/chatbotService.js:31-51 | the sender gains a session when it had none; other phones' sessions and orders are unchanged |
| ChatbotMachine.CheckOrderStatusStep | src/services/chatbotService.js:427-456 | the session always ends in MAIN_MENU, with nothing else changed |
| ChatbotMachine.FinalizeOrderStep | src/services/chatbotService.js:378-396 | records a "Placed" order with the session's cart, name and address, then resets |
| ChatbotMachine.OnList | src/services/chatbotService.js:343-371 | a list reply never resets or records |
| ChatbotMachine.OutcomeOf | src/services/chatbotService.js:31-51 | only text, button replies and list replies reach a handler; other kinds are only logged |
| ChatbotProperties.CommandOfPadded | src/services/chatbotService.js:60 | commands ignore surrounding white space and ASCII case |
| ChatbotProperties.CommandMeaning | src/services/chatbotService.js:60-104 | the command classification matches the handler's comparisons for "language", the menu words and "none" |
| ChatbotProperties.CommandOfPlainWord | src/services/chatbotService.js:60 | a word without padding or capitals is its own command text |
| ChatbotProperties.CommandPaddedLanguage | src/services/chatbotService.js:60-62 | " Language\n" is the language command |
| ChatbotProperties.CommandPaddedNone | src/services/chatbotService.js:104 | " NONE " counts as "none" |
| ChatbotProperties.LanguageCommandResets | src/services/chatbotService.js:62-68 | from any state: `isFirstTime` true, language null, WELCOME, the language menu, nothing else changed |
| ChatbotProperties.LanguageCommandPadded | src/services/chatbotService.js:60-68 | the same for the padded, capitalised command |
| ChatbotProperties.WelcomeIgnoresText | src/services/chatbotService.js:70-73 | in WELCOME every other text, "menu" included, leaves the session unchanged and re-sends the language menu |
| ChatbotProperties.MenuWordRoutes | src/services/chatbotService.js:75-84 | outside WELCOME a menu word gives WELCOME with the language menu when `isFirstTime` and no language, otherwise MAIN_MENU with welcome-back and the main menu |
| ChatbotProperties.MenuTwice | src/services/chatbotService.js:75-84 | a menu word ends in WELCOME or MAIN_MENU, and a second one changes nothing more |
| ChatbotProperties.WelcomeButtons | src/services/chatbotService.js:197-222 | LANG_EN/LANG_AR set "en"/"ar", clear `isFirstTime`, go to MAIN_MENU and send greeting, invite and main menu; any other id changes nothing |
| ChatbotProperties.TicketOrderNumberStep | src/services/chatbotService.js:103-110 | "none" keeps `ticketOrderNum`; other text is stored as typed; both go to TICKET_TOPIC with the topic list |
| ChatbotProperties.NoneAnyCase | src/services/chatbotService.js:103-110 | " NONE " only moves to TICKET_TOPIC |
| ChatbotProperties.TicketNameStep | src/services/chatbotService.js:86-101 | at TICKET_NAME any text that is not a global command is stored as typed as `ticketName`, the order number is asked for, and the state is TICKET_ORDERNUM |
| ChatbotProperties.CheckoutTextRule | src/services/chatbotService.js:147-185 | CHECKOUT_NAME stores the text as the name and goes to CHECKOUT_ADDRESS; CHECKOUT_ADDRESS stores it as the address, shows the order summary with CONFIRM/CANCEL and goes to CHECKOUT_CONFIRM |
| ChatbotProperties.MainMenuButtonRule | src/services/chatbotService.js:225-241 | ORDER goes to SELECT_GENDER with the gender menu; STATUS leaves the session as it was, in MAIN_MENU; SUPPORT goes to SUPPORT_MENU with the support menu; an id outside the main menu's buttons changes nothing |
| ChatbotProperties.SupportButtonRule | src/services/chatbotService.js:243-274 | the state leaves SUPPORT_MENU exactly for the three ids `sendSupportMainMenu` offers (`MenuService.SupportIds`, from `menuService.js:129-139`): FAQS goes to FAQ_LIST with the FAQ rows, SUBMIT_TICKET to TICKET_NAME, LIVE_AGENT through `sendMainMenu`; any other id changes nothing |
| ChatbotProperties.GenderButtonRule | src/services/chatbotService.js:276-287 | MEN/WOMEN store that gender, go to SELECT_CATEGORY and offer the category menu; other ids change nothing |
| ChatbotProperties.CartButtonRule | src/services/chatbotService.js:294-310 | CONTINUE goes to SELECT_CATEGORY with cart and gender kept; CHECKOUT goes to CHECKOUT_NAME; other ids change nothing |
| ChatbotProperties.ListReplies | src/services/chatbotService.js:343-371 | TICKET_TOPIC stores the id unchecked and goes to TICKET_DESC; FAQ_LIST answers and ends in MAIN_MENU unless the session is first-time with no language, where `sendMainMenu` writes WELCOME and sends the language menu; elsewhere the session is unchanged |
| ChatbotProperties.QuantityStepRule | src/services/chatbotService.js:118-145 | NaN or not positive changes nothing; otherwise exactly one line from `currentProduct` is appended, it is cleared, and the state is CART_DECISION |
| ChatbotProperties.QuantityZeroRefused | src/services/chatbotService.js:118-126 | "0" at ASK_QUANTITY changes nothing |
| ChatbotProperties.QuantityNegativeRefused | src/services/chatbotService.js:118-126 | "-5" at ASK_QUANTITY changes nothing |
| ChatbotProperties.QuantityWordRefused | src/services/chatbotService.js:118-126 | "abc" at ASK_QUANTITY changes nothing |
| ChatbotProperties.QuantityThreeAccepted | src/services/chatbotService.js:118-145 | "3" appends a line of three and moves to CART_DECISION |
| ChatbotProperties.ConfirmEffects | src/services/chatbotService.js:312-330 | CONFIRM overwrites `orders[phone]` with a "Placed" order of the session's cart, name and address and resets; CANCEL only resets; other ids change nothing |
| ChatbotProperties.FirstText | src/services/chatbotService.js:31-73 | an unknown phone's first text (other than the language command) creates a first-time WELCOME session, leaves it as created and gets the language menu |
| ChatbotProperties.FirstLanguage | src/services/chatbotService.js:197-210 | LANG_EN on that session gives English, MAIN_MENU, greeting, invite and the main menu |
| ChatbotProperties.StatusWithoutOrder | src/services/chatbotService.js:427-441 | STATUS without an order reports none found, and the store ends as it was, in MAIN_MENU |
| ChatbotProperties.StaleTicketOrderNumber | src/services/chatbotService.js:75-110 | a ticket left with a menu word after its order number was given passes that number to the next ticket answered with "none" |
| ChatbotProperties.ReopenTicket | src/services/chatbotService.js:243-253 | SUPPORT then SUBMIT_TICKET from MAIN_MENU only sets TICKET_NAME, keeping old ticket fields |
| ChatbotProperties.FinishTicket | src/services/chatbotService.js:111-114 | a topic then a description log the ticket from the fields as they stand, clear them and end in MAIN_MENU |
| ChatbotProperties.TextKeepsInv | src/services/chatbotService.js:59-186 | a text keeps a reachable session reachable |
| ChatbotProperties.OrderTextKeepsInv | src/services/chatbotService.js:117-185 | in a reachable session the order arms only ever send "use the buttons" |
| ChatbotProperties.ButtonKeepsInv | src/services/chatbotService.js:194-335 | no button in a reachable session places an order, and a kept session stays reachable |
| ChatbotProperties.ListKeepsInv | src/services/chatbotService.js:343-371 | a list reply keeps a reachable session reachable |
| ChatbotProperties.DeliverKeepsInv | src/services/chatbotService.js:31-51 | one message keeps every session reachable and leaves the orders as they were |
| ChatbotProperties.Run | src/services/chatbotService.js:224-292 | over any run from a reachable store no ordering state is ever entered and no order is ever recorded |
| ChatbotService.HandleIncomingMessage | src/services/chatbotService.js:31-51 | the store afterwards and the output are those of Deliver on the store before |
| ChatbotService.Dispatch | src/services/chatbotService.js:35-50 | the type switch on the looked-up session: store and output as Step says |
| ChatbotService.DispatchText | src/services/chatbotService.js:35-36 | the text arm, on the whole store |
| ChatbotService.DispatchButton | src/services/chatbotService.js:37-41 | the button arm, on the whole store, with its reset or recorded order |
| ChatbotService.DispatchList | src/services/chatbotService.js:42-44 | the list arm, on the whole store |
| ChatbotService.HandleTextMessage | src/services/chatbotService.js:59-186 | the session object ends as OnText says, with the same output; no other entry and no order changes |
| ChatbotService.HandleTicketText | src/services/chatbotService.js:86-115 | the ticket arms, as TicketText says |
| ChatbotService.HandleOrderText | src/services/chatbotService.js:117-185 | the quantity and checkout arms and the fallback, as OrderText says |
| ChatbotService.HandleQuantity | src/services/chatbotService.js:118-145 | the cart push and state write, as QuantityStep says |
| ChatbotService.CheckOrderStatus | src/services/chatbotService.js:427-456 | reads `orders[phone]` and writes MAIN_MENU, as CheckOrderStatusStep says |
| ChatbotService.FinalizeOrder | src/services/chatbotService.js:378-396 | writes the order under the phone, then replaces the session by a reset one |
| ChatbotService.HandleButtonReply | src/services/chatbotService.js:194-335 | the session, store effect and output are those of OnButton |
| ChatbotService.HandleWelcomeButton | src/services/chatbotService.js:197-222 | the WELCOME arm |
| ChatbotService.ChooseLanguage | src/services/chatbotService.js:198-217 | stores the language and sends greeting, invite and main menu |
| ChatbotService.HandleMainMenuButton | src/services/chatbotService.js:225-241 | the MAIN_MENU arm |
| ChatbotService.HandleSupportButton | src/services/chatbotService.js:243-274 | the SUPPORT_MENU arm |
| ChatbotService.HandleGenderButton | src/services/chatbotService.js:276-287 | the SELECT_GENDER arm |
| ChatbotService.HandleCartButton | src/services/chatbotService.js:294-310 | the CART_DECISION arm |
| ChatbotService.HandleConfirmButton | src/services/chatbotService.js:312-330 | the CHECKOUT_CONFIRM arm with its order and reset |
| ChatbotService.HandleListReply | src/services/chatbotService.js:343-371 | the session and output those of OnList; no other entry and no order changes |
| ChatbotService.HandleFaqChoice | src/services/chatbotService.js:346-350 | the FAQ answer, then `sendMainMenu` |
| LegacySessions.DefaultRecord | server.js:89-102 | MAIN_MENU, an empty cart, every other field null |
| LegacySessions.GetSessionSpec | server.js:89-102 | an existing record is left; a missing one becomes the default record; orders untouched |
| LegacySessions.ResetSpec | server.js:104-114 | the entry becomes the default record; orders untouched |
| LegacySessions.GetSessionOnce | server.js:89-102 | a second getSession changes nothing; other phones unchanged |
| LegacySessions.ResetOnce | server.js:104-114 | two resets are one; other phones unchanged |
| LegacySessions.Session.constructor | server.js:91-99 | the object literal of getSession/resetSession |
| LegacySessions.SessionStore.constructor | server.js:79-80 | empty `sessions` and `orders` |
| LegacySessions.SessionStore.GetSession | server.js:89-102 | returns the stored object or a fresh default one; contents as GetSessionSpec |
| LegacySessions.SessionStore.ResetSession | server.js:104-114 | a fresh default object replaces the entry; contents as ResetSpec |
| LegacyMachine.CategoryButtons | server.js:374-382 | the button ids are exactly the category keys |
| LegacyMachine.QuantityStep | server.js:186-214 | the record is unchanged exactly when the quantity is refused; otherwise one line is appended, `currentProduct` is cleared and the state is CART_DECISION (exact line in QuantityRule) |
| LegacyMachine.StateText | server.js:185-247 | a text after the menu words never resets or records (rules in QuantityRule, CheckoutText, TextElsewhereUsesButtons) |
| LegacyMachine.ListingLine | server.js:400 | a line starts "ID " and `String(p.id)`, and ends with a newline |
| LegacyMachine.Listing | server.js:399-401 | empty exactly when there are no products (concatenation in ListingAppend and ListingOfOne) |
| LegacyMachine.ListingText | server.js:397-403 | the text starts with the category key and a newline and ends with the hint |
| LegacyMachine.CategorySelection | server.js:384-412 | never resets or records (rule in CategorySelectionRule) |
| LegacyMachine.ProductQuickReply | server.js:414-435 | never resets or records (rule in ProductReplyRule) |
| LegacyMachine.MainMenuButton | server.js:258-275 | never resets or records (rule in MainMenuRule; STATUS on the store in StatusRule) |
| LegacyMachine.GenderButton | server.js:277-285 | never resets or records (rule in GenderRule) |
| LegacyMachine.CartButton | server.js:297-307 | never resets or records (rule in CartDecisionRule) |
| LegacyMachine.SupportButton | server.js:309-330 | never resets or records (rule in SupportRule) |
| LegacyMachine.ConfirmButton | server.js:332-344 | an order is placed exactly on CONFIRM, from the record's cart, name and address; a reset happens exactly on CANCEL |
| LegacyMachine.HandleText | server.js:174-248 | the phone gains a record when it had none; orders and other phones' records are unchanged |
| LegacyMachine.HandleButton | server.js:251-352 | the phone gains a record when it had none; other phones' records and orders are unchanged |
| LegacyMachine.OnText | server.js:174-248 | a text never resets or records |
| LegacyMachine.ListingSnoc | server.js:399-401 | one more `forEach` iteration appends one more line |
| LegacyMachine.ListingExtend | server.js:399-401 | appending the next line to the text built so far gives the listing one product longer |
| LegacyMachine.ListingTextOf | server.js:398-403 | the listing text is the header and lines followed by the hint |
| LegacyMachine.OfferedIds | server.js:405-408 | at most three ids, as many as there are products up to three, each `String(p.id)` of the product at that position |
| LegacyMachine.CheckOrderStatusStep | server.js:437-454 | with or without an order, the record ends in MAIN_MENU and the main menu follows the reply |
| LegacyMachine.FinalizeOrderStep | server.js:465-481 | records a "Placed" order with the record's cart, name and address, then resets |
| LegacyMachine.OnButton | server.js:251-352 | an order is recorded only by CONFIRM at CHECKOUT_CONFIRM, and a reset happens only on CANCEL there |
| LegacyServer.HandleTextMessage | server.js:174-248 | the store afterwards and the output are those of HandleText |
| LegacyServer.TextOnStore | server.js:176-247 | the text step on the looked-up record, seen on the whole store |
| LegacyServer.TextStep | server.js:176-247 | the record object ends as OnText says |
| LegacyServer.StateTextStep | server.js:185-247 | the state checks after the menu words, as StateText says |
| LegacyServer.QuantityArm | server.js:186-214 | the cart push and state write, as QuantityStep says |
| LegacyServer.HandleButtonReply | server.js:251-352 | the store afterwards and the output are those of HandleButton |
| LegacyServer.ButtonDispatch | server.js:257-351 | the state switch on the looked-up record, with its reset or recorded order |
| LegacyServer.MainMenuOnStore | server.js:258-275 | the MAIN_MENU arm on the whole store |
| LegacyServer.RecordButtonOnStore | server.js:277-330 | the record-only arms on the whole store |
| LegacyServer.RecordButton | server.js:277-330 | the arms that only write the record |
| LegacyServer.HandleMainMenuButton | server.js:258-275 | the MAIN_MENU arm; STATUS through `checkOrderStatus` |
| LegacyServer.HandleGenderButton | server.js:277-285 | the SELECT_GENDER arm |
| LegacyServer.HandleCartButton | server.js:297-307 | the CART_DECISION arm |
| LegacyServer.HandleSupportButton | server.js:309-330 | the SUPPORT_MENU arm |
| LegacyServer.HandleConfirmButton | server.js:332-344 | the CHECKOUT_CONFIRM arm with its order and reset |
| LegacyServer.HandleCategorySelection | server.js:384-412 | the record and output as CategorySelection says |
| LegacyServer.BuildListing | server.js:397-403 | the `forEach` loop builds exactly the header, one line per product in order, and the hint |
| LegacyServer.HandleProductQuickReply | server.js:414-435 | the record and output as ProductQuickReply says |
| LegacyServer.CheckOrderStatus | server.js:437-454 | reads the order first, then looks the record up and writes MAIN_MENU |
| LegacyServer.FinalizeOrder | server.js:465-481 | writes the order from the looked-up record, then resets it |
| LegacyProperties.MenuWordShowsMenu | server.js:178-183 | "menu"/"hi"/"hello" only sets MAIN_MENU, every other field kept |
| LegacyProperties.PaddedHi | server.js:176-183 | " HI\n" counts as a menu word |
| LegacyProperties.TextElsewhereUsesButtons | server.js:243-247 | outside ASK_QUANTITY and the two checkout questions, text only asks for the buttons |
| LegacyProperties.CheckoutText | server.js:216-241 | the name is stored as typed, then the address, with the order summary |
| LegacyProperties.QuantityRule | server.js:185-214 | an invalid quantity changes nothing; a valid one appends one line, clears `currentProduct`, moves to CART_DECISION |
| LegacyProperties.QuantityZeroRefused | server.js:186-194 | "0" changes nothing |
| LegacyProperties.QuantityNegativeRefused | server.js:186-194 | "-5" changes nothing |
| LegacyProperties.QuantityWordRefused | server.js:186-194 | "abc" changes nothing |
| LegacyProperties.QuantityThreeAccepted | server.js:186-214 | "3" adds a line of three of the current product |
| LegacyProperties.ListingAppend | server.js:398-401 | the listing of two lists is the two listings in turn |
| LegacyProperties.ListingOfOne | server.js:399-401 | one product is listed as its line |
| LegacyProperties.CategorySelectionRule | server.js:384-412 | an invalid id changes nothing; a valid one sets the category, SHOW_PRODUCTS, sends the listing and three product buttons labelled `String(p.id)` |
| LegacyProperties.FindAtPosition | server.js:72-76 | the lookup of the id at a list position finds the product at that position |
| LegacyProperties.ProductReplyRule | server.js:414-435 | NaN or not found changes nothing; a found product from the list becomes `currentProduct`, with ASK_QUANTITY |
| LegacyProperties.OfferedButtonsRoundTrip | server.js:405-435 | tapping the k-th offered button picks the k-th product of the category |
| LegacyProperties.ButtonArm | server.js:287-295 | at SELECT_CATEGORY a button is a category choice, at SHOW_PRODUCTS a product choice |
| LegacyProperties.ProductButtonAt | server.js:414-435 | the id `String(p.id)` of the k-th product selects that product |
| LegacyProperties.MainMenuRule | server.js:258-275 | from any record in MAIN_MENU: ORDER goes to SELECT_GENDER; STATUS keeps the record and ends with the main menu; SUPPORT goes to SUPPORT_MENU; any other id changes nothing |
| LegacyProperties.SupportRule | server.js:309-330 | the state leaves SUPPORT_MENU exactly for FAQS and LIVE_AGENT, which answer and return to MAIN_MENU with the main menu; any other id changes nothing |
| LegacyProperties.GenderRule | server.js:277-285 | MEN/WOMEN store the gender and offer exactly the category ids; anything else changes nothing |
| LegacyProperties.CartDecisionRule | server.js:297-307 | CONTINUE goes to SELECT_CATEGORY with cart and gender kept; CHECKOUT asks for the name; anything else changes nothing |
| LegacyProperties.StatusRule | server.js:437-454 | STATUS reports the order or its absence and leaves the store as it was, in MAIN_MENU |
| LegacyProperties.ConfirmRule | server.js:332-344 | CONFIRM records a "Placed" order of cart, name and address and resets; CANCEL only resets; anything else changes nothing |
| LegacyProperties.DefaultReachable | server.js:89-102 | the default record is reachable |
| LegacyProperties.TextKeepsInv | server.js:174-248 | a text keeps a reachable record reachable |
| LegacyProperties.ButtonKeepsInv | server.js:251-352 | a button keeps a reachable record reachable, and any order it records is complete |
| LegacyProperties.ConfirmKeepsInv | server.js:465-474 | the order CONFIRM records has a line, a name and an address |
| LegacyProperties.HandleTextKeepsInv | server.js:174-248 | one text keeps the store reachable and the orders as they were |
| LegacyProperties.HandleButtonKeepsInv | server.js:251-352 | one button keeps the store reachable and every order complete |
| LegacyProperties.Deliver | server.js:139-167 | one webhook message keeps the store reachable |
| LegacyProperties.Run | server.js:139-167 | over any run no handler meets a missing product or gender, no undeclared state is entered, and every order has a line and an address |
| LegacyProperties.FirstContactStep | server.js:174-183 | an unknown phone's first text creates the default MAIN_MENU record and leaves it so |
| LegacyProperties.QuantityTyped | server.js:186-214 | a positive number typed as digits adds that many of the current product |
| LegacyProperties.OrderWalkthrough | server.js:174-481 | from nothing, a greeting, ORDER, MEN, perfumes, 1, a quantity, CHECKOUT, a name, an address and CONFIRM leave one default record and one order of that many XYZ Cologne at 50 with that name and address |

## Left out

- Sending: messages go through axios in `messageService.js` and
  `server.js:484-541`. They are modelled as a list of intents (kind,
  language branch, ids). The wording, the titles and send failures (which
  are only logged) are not modelled.
- Express wiring, the webhook verification handshake and the webhook's JSON
  unpacking (`server.js:117-171`, `src/app.js`, `src/routes`,
  `src/controllers`). Only the message-type dispatch is modelled:
  `ChatbotService.HandleIncomingMessage`, and `LegacyProperties.Deliver`
  over text and button events.
- ChatbotMachine.CheckOrderStatusStep, ChatbotMachine.FinalizeOrderStep,
  ChatbotService.CheckOrderStatus, ChatbotService.FinalizeOrder,
  ChatbotProperties.StatusWithoutOrder and ChatbotProperties.ConfirmEffects
  assume that `sessionService.js` exports `orders`. As written it does not,
  so the newer copy does not load (see above). These members model the code
  with that export added, holding a map like the one at `server.js:80`.
- LegacyProperties.Deliver: its button event stands for a message whose
  interactive type is "button" (`server.js:153`). The newer copy tests
  "button_reply" instead (`src/services/chatbotService.js:39`). Other
  interactive types are only logged, which the event type leaves out.
- Invoice PDFs and MySQL (`invoiceService.js`, `db.js`), because they lie
  outside the conversation.
- Order ids: `generateOrderId` draws a random id. The id is a parameter of
  the handlers.
- `localize` returns its first argument in every language, so it is
  inlined as identity.
- `async`/`await`: each event is handled to completion before the next.
- Logging: `console.log` of the ticket is an intent (`TicketLogged`). Other
  log lines are omitted.
- JsBuiltins.ParseInt: gives the exact integer, where JavaScript gives a
  double. Only the decisions come out the same for every input: whether a
  quantity is accepted, and whether a product id is found. The stored and displayed quantity differs for
  long digit runs: above 2^53 JavaScript keeps a rounded value
  ("9007199254740993" becomes 9007199254740992), from 1e21 on `String`
  prints it as "1e+21", and past about 309 digits it is Infinity. The
  model's cart line, `Added` message, order summary and recorded order all
  carry the exact number.
- JsBuiltins.ToLowerCase: maps only `A`-`Z`. No other character lower-cases
  to a character of the literals the bot compares with, so every
  comparison comes out as with the full Unicode mapping.
- `null` and `undefined` are both `None`. A field that a handler later
  adds to a newer-copy session (`currentProduct`, `address`) starts as
  `None`.
- The FAQ answer bodies are placeholder strings, one per key and language.
- Faq.GetFaqContent: `FAQS_EN` and `FAQS_AR` are plain object literals, so
  in JavaScript a key inherited from `Object.prototype` ("toString",
  "constructor", "__proto__", "hasOwnProperty", ...) returns that inherited
  member, which is truthy, and the fallback is not used. The model's tables
  hold only the five own keys, so for such a key it gives the fallback. The
  FAQ_LIST arm passes on any list id it receives, but the bot's own FAQ rows
  never carry such an id.
- The delivery-location and billing-address prompts, order totals, order
  rollback and ticket persistence are not modelled: these files have no
  code for them. The newer session record carries the three
  delivery/billing fields as `None`, as `createNewSession` does.
- Preconditions: the source dereferences `currentProduct` at ASK_QUANTITY
  (both copies) and `PRODUCT_DATA[session.gender]` at SELECT_CATEGORY
  (older copy). The handlers therefore require those to be set (`Ready`).
  The reachability invariants prove they always are in the older copy.
  The newer copy never reaches ASK_QUANTITY.
