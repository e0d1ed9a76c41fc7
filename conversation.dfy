/**
 * The vocabulary both copies of the order bot share: the conversation states,
 * cart lines, order records, support tickets and the outbound intents that
 * stand for the messages sent through the messaging platform.
 */
module Conversation {
  import opened Wrappers
  import opened JsBuiltins
  import opened Catalog

  /** A user's phone number, the key of every session and order. */
  type Phone = string

  /** The session `language` once chosen: "en" or "ar". */
  datatype Lang = En | Ar

  /** The values `session.state` takes in either copy of the bot. */
  datatype State =
    | Welcome | MainMenu
    | SelectGender | SelectCategory | ShowProducts | AskQuantity | CartDecision
    | CheckoutName | CheckoutAddress | CheckoutConfirm
    | CheckOrderStatus
    | SupportMenu | FaqList
    | TicketName | TicketOrderNum | TicketTopic | TicketDesc

  /** `{ id, name, price, quantity }` as pushed onto `session.cart`. */
  datatype CartLine = CartLine(id: nat, name: string, price: nat, quantity: nat)

  /** `orders[phone]`: `{ orderId, status, cart, name, address }`. */
  datatype Order = Order(orderId: string, status: string, cart: seq<CartLine>, name: Option<string>, address: Option<string>)

  const Placed: string := "Placed"

  /** The ticket record captured when a support ticket is finalised. */
  datatype Ticket = Ticket(name: Option<string>, orderNumber: Option<string>, topic: Option<string>, description: Option<string>)

  /** Which wording a message is sent in. The language menu is written in both languages. */
  datatype Script = English | Arabic | Bilingual

  /** The branch `session.language === "ar" ? <Arabic> : <English>` taken by a reply. */
  function ReplyScript(language: Option<Lang>): (r: Script)
    ensures r == Arabic <==> language == Some(Ar)
    ensures r == English <==> language != Some(Ar)
  {
    if language == Some(Ar) then Arabic else English
  }

  /** What a message says, without its wording. */
  datatype Message =
    // menus
    | LanguagePrompt | MainMenuPrompt | GenderPrompt | CategoryPrompt(gender: Option<Gender>)
    | SupportPrompt | FaqPrompt | TopicPrompt | ProductPrompt
    // greetings
    | Greeting | FirstOrderInvite | WelcomeBack
    // corrective prompts
    | SelectLanguage | UnknownMainButton | UnknownSupportOption | PickGender | PickCategory
    | PickContinueOrCheckout | ConfirmOrCancel | UnknownButton | UnknownListChoice | UseButtons
    | InvalidQuantity | InvalidProductId | ProductNotFound
    // ordering
    | ProductListing(text: string) | YouSelected(buttonId: string) | AskQuantityOf(productName: string)
    | Added(quantity: nat, productName: string) | AskName | AskAddress(customerName: string)
    | OrderSummary(cart: seq<CartLine>, address: string)
    | OrderPlaced(orderId: string) | OrderCanceled | NoOrderFound | OrderStatus(orderId: string, status: string)
    // support
    | FaqAnswer(text: string) | FaqDigest | LiveAgentSoon
    | AskFullName | AskOrderNumber | AskDescription | TicketSubmitted

  /**
   * One outbound action: a text, a button message or a list message (with the
   * ids of its buttons or rows), or the ticket record written to the log.
   */
  datatype Intent =
    | Text(script: Script, message: Message)
    | Buttons(script: Script, message: Message, ids: seq<string>)
    | List(script: Script, message: Message, ids: seq<string>)
    | TicketLogged(ticket: Ticket)

  /** `textBody.trim().toLowerCase()`, the form in which commands are recognised. */
  function CommandText(text: string): string {
    ToLowerCase(Trim(text))
  }

  /**
   * The quantity step: `parseInt(text, 10)` rejected when NaN or not positive.
   */
  function ParseQuantity(text: string): (r: Option<nat>)
    ensures r.Some? <==> ParseInt(text).Some? && ParseInt(text).value > 0
    ensures r.Some? ==> r.value > 0 && r.value == ParseInt(text).value
  {
    match ParseInt(text)
    case None => None
    case Some(q) => if q <= 0 then None else Some(q)
  }

  /** The cart line pushed for `product` and the parsed quantity. */
  function LineFor(product: Product, quantity: nat): (line: CartLine)
    ensures line.id == product.id && line.name == product.name && line.price == product.price
    ensures line.quantity == quantity
  {
    CartLine(product.id, product.name, product.price, quantity)
  }

  /** The quantity step accepts "3" as 3. */
  lemma QuantityThree()
    ensures ParseQuantity("3") == Some(3)
  {
    assert DecimalValue("3") == 3;
    assert [] + "3" + [] == "3";
    ParseIntOfDigits([], "3", []);
  }

  /** "3x" passes too: parseInt stops at the first non-digit. */
  lemma QuantityTrailingText()
    ensures ParseQuantity("3x") == Some(3)
  {
    assert DecimalValue("3") == 3;
    assert [] + "3" + "x" == "3x";
    ParseIntOfDigits([], "3", "x");
  }

  /** "0" is read but is not positive. */
  lemma QuantityZero()
    ensures ParseQuantity("0") == None
  {
    assert DecimalValue("0") == 0;
    assert [] + "0" + [] == "0";
    ParseIntOfDigits([], "0", []);
  }

  /** "-5" is read as -5, which is not positive. */
  lemma QuantityNegative()
    ensures ParseQuantity("-5") == None
  {
    assert !IsSpace('-');
    assert TrimStart("-5") == "-5";
    assert IsNegative("-5");
    assert Unsigned("-5") == "5";
    assert DigitPrefix("5") == "5";
    assert DecimalValue("5") == 5;
    assert ParseInt("-5") == Some(-5);
  }

  /** "abc" is NaN. */
  lemma QuantityNotANumber()
    ensures ParseQuantity("abc") == None
  {
    assert TrimStart("abc") == "abc";
    assert Unsigned("abc") == "abc";
    assert DigitPrefix("abc") == [];
  }

  /** A quantity is accepted exactly when parseInt reads a positive number, however it is written. */
  lemma QuantityOfNumber(ws: string, n: nat, rest: string)
    requires AllSpaces(ws)
    requires rest == [] || !IsDigit(rest[0])
    ensures ParseQuantity(ws + NumberToString(n) + rest) == if n > 0 then Some(n) else None
  {
    ParseIntOfNumber(ws, n, rest);
  }
}
