/**
 * The conversation state machine of src/services/chatbotService.js as pure
 * functions: given the session's record and one inbound event, the record
 * the handler leaves behind, the intents it sends, and what it does to the
 * store (nothing, a reset, or an order placed and then a reset).
 */
module ChatbotMachine {
  import opened Wrappers
  import opened Catalog
  import opened Conversation
  import opened SessionService
  import opened MenuService
  import opened SupportService
  import Faq

  /** What a handler does to the store besides updating the session record in place. */
  datatype Effect = Keep | Reset | Place(order: Order)

  datatype Outcome = Outcome(session: SessionData, out: seq<Intent>, effect: Effect)

  /** The kinds of inbound message `handleIncomingMessage` tells apart. */
  datatype Body = TextBody(text: string) | ButtonReply(id: string) | ListReply(id: string)
                | OtherInteractive | Unsupported
  datatype Inbound = Inbound(from: Phone, body: Body)

  const MenuWords: seq<string> := ["menu", "hi", "hello", "القائمة الرئيسية"]
  const CartDecisionIds: seq<string> := ["CONTINUE", "CHECKOUT"]
  const ConfirmIds: seq<string> := ["CONFIRM", "CANCEL"]

  predicate IsLanguageCommand(lower: string) {
    lower == "language" || lower == "لغة"
  }

  /** What `handleTextMessage` makes of a text once trimmed and lower-cased. */
  datatype Command = LanguageWord | MenuWord | NoneWord | OtherText

  function CommandOf(text: string): Command {
    var lower := CommandText(text);
    if IsLanguageCommand(lower) then LanguageWord
    else if lower in MenuWords then MenuWord
    else if lower == "none" then NoneWord
    else OtherText
  }

  /** What the quantity step dereferences: at ASK_QUANTITY there is a current product. */
  predicate Ready(s: SessionData) {
    s.state == AskQuantity ==> s.currentProduct.Some?
  }

  /** The placeholder `sendGenderMenu`. */
  function GenderMenu(language: Option<Lang>): Intent {
    Buttons(ReplyScript(language), GenderPrompt, ["MEN", "WOMEN"])
  }

  /** The ASK_QUANTITY arm of `handleTextMessage`. */
  function QuantityStep(s: SessionData, text: string): (r: Outcome)
    requires s.currentProduct.Some?
    ensures r.effect == Keep
    ensures r.session == s <==> ParseQuantity(text).None?
    ensures r.session != s ==> && r.session.state == CartDecision && r.session.currentProduct.None?
                               && |r.session.cart| == |s.cart| + 1 && r.session.cart[..|s.cart|] == s.cart
  {
    match ParseQuantity(text)
    case None => Outcome(s, [Text(English, InvalidQuantity)], Keep)
    case Some(q) =>
      var line := LineFor(s.currentProduct.value, q);
      Outcome(s.(cart := s.cart + [line], currentProduct := None, state := CartDecision),
              [Buttons(English, Added(q, line.name), CartDecisionIds)], Keep)
  }

  /** `handleTextMessage(session, userPhone, textBody)`. */
  function OnText(s: SessionData, text: string): (r: Outcome)
    requires Ready(s)
    ensures r.effect == Keep
  {
    var command := CommandOf(text);
    if command == LanguageWord then
      Outcome(s.(isFirstTime := true, language := None, state := Welcome), [LanguageMenu()], Keep)
    else if s.state == Welcome then
      Outcome(s, [LanguageMenu()], Keep)
    else if command == MenuWord then
      MenuWordStep(s)
    else
      FlowText(s, text, command)
  }

  /** One of the words that bring the main menu back. */
  function MenuWordStep(s: SessionData): (r: Outcome)
    ensures r.effect == Keep && r.session == s.(state := r.session.state)
    ensures r.session.state == Welcome <==> s.isFirstTime && s.language.None?
    ensures r.session.state == Welcome || r.session.state == MainMenu
  {
    if s.isFirstTime && s.language.None? then
      Outcome(s.(state := Welcome), [LanguageMenu()], Keep)
    else
      var (s', out) := ReturningWelcomeStep(s.(state := MainMenu));
      Outcome(s', out, Keep)
  }

  /** Free text in the ticket and order flows; `command` is what CommandOf made of it. */
  function FlowText(s: SessionData, text: string, command: Command): (r: Outcome)
    requires Ready(s)
  {
    if s.state in {TicketName, TicketOrderNum, TicketDesc} then TicketText(s, text, command)
    else OrderText(s, text)
  }

  function TicketText(s: SessionData, text: string, command: Command): (r: Outcome)
    requires s.state in {TicketName, TicketOrderNum, TicketDesc}
    ensures r.effect == Keep
    ensures r.session == s.(ticketName := r.session.ticketName, ticketOrderNum := r.session.ticketOrderNum,
                            ticketTopic := r.session.ticketTopic, ticketDesc := r.session.ticketDesc,
                            state := r.session.state)
    ensures r.session.state in {TicketOrderNum, TicketTopic, MainMenu}
  {
    if s.state == TicketName then
      Outcome(s.(ticketName := Some(text), state := TicketOrderNum),
              [Text(ReplyScript(s.language), AskOrderNumber)], Keep)
    else if s.state == TicketOrderNum then
      var s1 := if command != NoneWord then s.(ticketOrderNum := Some(text)) else s;
      Outcome(s1.(state := TicketTopic), [TicketTopicsList(s.language)], Keep)
    else
      var (s', out) := FinalizeTicketStep(s.(ticketDesc := Some(text)));
      Outcome(s', out, Keep)
  }

  function OrderText(s: SessionData, text: string): (r: Outcome)
    requires Ready(s)
    ensures r.effect == Keep
    ensures r.session.language == s.language && r.session.isFirstTime == s.isFirstTime
    ensures s.state !in {AskQuantity, CheckoutName, CheckoutAddress} ==> r == Outcome(s, [Text(English, UseButtons)], Keep)
  {
    if s.state == AskQuantity then
      QuantityStep(s, text)
    else if s.state == CheckoutName then
      Outcome(s.(name := Some(text), state := CheckoutAddress), [Text(English, AskAddress(text))], Keep)
    else if s.state == CheckoutAddress then
      Outcome(s.(address := Some(text), state := CheckoutConfirm),
              [Buttons(English, OrderSummary(s.cart, text), ConfirmIds)], Keep)
    else
      Outcome(s, [Text(English, UseButtons)], Keep)
  }

  /** The WELCOME arm of `handleButtonReply` for a chosen language. */
  function LanguageChosen(s: SessionData, lang: Lang): (r: Outcome) {
    var s1 := s.(language := Some(lang), isFirstTime := false, state := MainMenu);
    var script := if lang == Ar then Arabic else English;
    var (s', menu) := MainMenuStep(s1);
    Outcome(s', [Text(script, Greeting), Text(script, FirstOrderInvite)] + menu, Keep)
  }

  /** `checkOrderStatus(userPhone, session)`: reports the phone's order, if any, and returns to MAIN_MENU. */
  function CheckOrderStatusStep(s: SessionData, existing: Option<Order>): (r: (SessionData, seq<Intent>))
    ensures r.0 == s.(state := MainMenu)
  {
    var reply := match existing
      case None => NoOrderFound
      case Some(o) => OrderStatus(o.orderId, o.status);
    (s.(state := MainMenu), [Text(ReplyScript(s.language), reply)])
  }

  /** `finalizeOrder(userPhone, session)`: records the order under the phone, thanks the user, resets. */
  function FinalizeOrderStep(s: SessionData, orderId: string): (r: Outcome)
    ensures r.effect == Place(Order(orderId, Placed, s.cart, s.name, s.address))
    ensures r.session == s
  {
    Outcome(s, [Text(ReplyScript(s.language), OrderPlaced(orderId))],
            Place(Order(orderId, Placed, s.cart, s.name, s.address)))
  }

  /**
   * `handleButtonReply(session, userPhone, buttonId)`; `existing` is
   * `orders[userPhone]` and `orderId` the id `generateOrderId` would return.
   */
  function OnButton(s: SessionData, id: string, existing: Option<Order>, orderId: string): (r: Outcome)
    ensures r.effect.Place? ==> s.state == CheckoutConfirm && id == "CONFIRM"
    ensures r.effect.Reset? ==> s.state == CheckoutConfirm && id == "CANCEL"
    ensures s.state !in {Welcome, MainMenu, SupportMenu, SelectGender, ShowProducts, CartDecision, CheckoutConfirm} ==>
              r == Outcome(s, [], Keep)
  {
    if s.state == Welcome then WelcomeButton(s, id)
    else
      match s.state
      case MainMenu => MainMenuButton(s, id, existing)
      case SupportMenu => SupportButton(s, id)
      case SelectGender => GenderButton(s, id)
      case ShowProducts => Outcome(s, [Text(English, YouSelected(id))], Keep)
      case CartDecision => CartButton(s, id)
      case CheckoutConfirm => ConfirmButton(s, id, orderId)
      case _ => Outcome(s, [], Keep)
  }

  function WelcomeButton(s: SessionData, id: string): (r: Outcome)
    ensures r.effect == Keep
    ensures id != "LANG_EN" && id != "LANG_AR" ==> r.session == s
    ensures id == "LANG_EN" || id == "LANG_AR" ==> r.session.state == MainMenu && !r.session.isFirstTime
  {
    if id == "LANG_EN" then LanguageChosen(s, En)
    else if id == "LANG_AR" then LanguageChosen(s, Ar)
    else Outcome(s, [Text(English, SelectLanguage)], Keep)
  }

  function MainMenuButton(s: SessionData, id: string, existing: Option<Order>): (r: Outcome)
    ensures r.effect == Keep && r.session == s.(state := r.session.state)
  {
    if id == "ORDER" then
      Outcome(s.(state := SelectGender), [GenderMenu(s.language)], Keep)
    else if id == "STATUS" then
      var (s', out) := CheckOrderStatusStep(s.(state := CheckOrderStatus), existing);
      Outcome(s', out, Keep)
    else if id == "SUPPORT" then
      Outcome(s.(state := SupportMenu), [SupportMainMenu(s.language)], Keep)
    else
      Outcome(s, [Text(English, UnknownMainButton)], Keep)
  }

  function SupportButton(s: SessionData, id: string): (r: Outcome)
    ensures r.effect == Keep && r.session == s.(state := r.session.state)
  {
    if id == "FAQS" then
      Outcome(s.(state := FaqList), [FaqListMenu(s.language)], Keep)
    else if id == "SUBMIT_TICKET" then
      Outcome(s.(state := TicketName), [Text(ReplyScript(s.language), AskFullName)], Keep)
    else if id == "LIVE_AGENT" then
      var (s', menu) := MainMenuStep(s.(state := MainMenu));
      Outcome(s', [Text(ReplyScript(s.language), LiveAgentSoon)] + menu, Keep)
    else
      Outcome(s, [Text(English, UnknownSupportOption)], Keep)
  }

  function GenderButton(s: SessionData, id: string): (r: Outcome)
    ensures r.effect == Keep && r.session == s.(gender := r.session.gender, state := r.session.state)
    ensures r.session.gender != s.gender ==> r.session.state == SelectCategory
  {
    if id == "MEN" || id == "WOMEN" then
      var s1 := s.(gender := Some(if id == "MEN" then Men else Women), state := SelectCategory);
      Outcome(s1, [CategoryMenu(s1)], Keep)
    else
      Outcome(s, [Text(English, PickGender)], Keep)
  }

  function CartButton(s: SessionData, id: string): (r: Outcome)
    ensures r.effect == Keep && r.session == s.(state := r.session.state)
  {
    if id == "CONTINUE" then
      var s1 := s.(state := SelectCategory);
      Outcome(s1, [CategoryMenu(s1)], Keep)
    else if id == "CHECKOUT" then
      Outcome(s.(state := CheckoutName), [Text(English, AskName)], Keep)
    else
      Outcome(s, [Text(English, PickContinueOrCheckout)], Keep)
  }

  function ConfirmButton(s: SessionData, id: string, orderId: string): (r: Outcome)
    ensures r.effect.Place? <==> id == "CONFIRM"
    ensures r.effect.Reset? <==> id == "CANCEL"
    ensures r.effect.Place? ==> r.effect.order == Order(orderId, Placed, s.cart, s.name, s.address)
    ensures r.session == s
  {
    if id == "CONFIRM" then FinalizeOrderStep(s, orderId)
    else if id == "CANCEL" then Outcome(s, [Text(English, OrderCanceled)], Reset)
    else Outcome(s, [Text(English, ConfirmOrCancel)], Keep)
  }

  /** `handleListReply(session, userPhone, listId)`. */
  function OnList(s: SessionData, id: string): (r: Outcome)
    ensures r.effect == Keep
  {
    if s.state == FaqList then
      var answer := Text(ReplyScript(s.language), FaqAnswer(Faq.GetFaqContent(id, s.language)));
      var (s', menu) := MainMenuStep(s.(state := MainMenu));
      Outcome(s', [answer] + menu, Keep)
    else if s.state == TicketTopic then
      Outcome(s.(ticketTopic := Some(id), state := TicketDesc), [Text(ReplyScript(s.language), AskDescription)], Keep)
    else
      Outcome(s, [Text(English, UnknownListChoice)], Keep)
  }

  /** The store after a handler with outcome `r` ran for `phone`. */
  function Apply(w: World, phone: Phone, r: Outcome): (w': World)
    ensures phone in w'.sessions
  {
    match r.effect
    case Keep => w.(sessions := w.sessions[phone := r.session])
    case Reset => ResetSpec(w, phone)
    case Place(order) => ResetSpec(w.(orders := w.orders[phone := order]), phone)
  }

  function OrderOf(orders: map<Phone, Order>, phone: Phone): Option<Order> {
    if phone in orders then Some(orders[phone]) else None
  }

  /** Every session of the store satisfies Ready. */
  ghost predicate WorldReady(w: World) {
    forall p :: p in w.sessions ==> Ready(w.sessions[p])
  }

  /** The handler `handleIncomingMessage` picks for a message body, and its outcome; None when it only logs. */
  function OutcomeOf(s: SessionData, body: Body, existing: Option<Order>, orderId: string): (r: Option<Outcome>)
    requires Ready(s)
    ensures r.None? <==> body.OtherInteractive? || body.Unsupported?
  {
    match body
    case TextBody(text) => Some(OnText(s, text))
    case ButtonReply(id) => Some(OnButton(s, id, existing, orderId))
    case ListReply(id) => Some(OnList(s, id))
    case OtherInteractive => None
    case Unsupported => None
  }

  /** The dispatch of `handleIncomingMessage` once `phone`'s session exists. */
  function Step(w: World, phone: Phone, body: Body, orderId: string): (r: (World, seq<Intent>))
    requires phone in w.sessions && Ready(w.sessions[phone])
    ensures r.0.sessions.Keys == w.sessions.Keys
    ensures forall q :: q in w.sessions && q != phone ==> r.0.sessions[q] == w.sessions[q]
    ensures forall q :: q in w.orders && q != phone ==> q in r.0.orders && r.0.orders[q] == w.orders[q]
    ensures body.OtherInteractive? || body.Unsupported? ==> r == (w, [])
  {
    match OutcomeOf(w.sessions[phone], body, OrderOf(w.orders, phone), orderId)
    case None => (w, [])
    case Some(o) => (Apply(w, phone, o), o.out)
  }

  /** `handleIncomingMessage(msg)` on the store: look the session up (creating it), then dispatch on the kind. */
  function Deliver(w: World, msg: Inbound, orderId: string): (r: (World, seq<Intent>))
    requires msg.from in w.sessions ==> Ready(w.sessions[msg.from])
    ensures r.0.sessions.Keys == w.sessions.Keys + {msg.from}
    ensures forall q :: q in w.sessions && q != msg.from ==> r.0.sessions[q] == w.sessions[q]
    ensures forall q :: q in w.orders && q != msg.from ==> q in r.0.orders && r.0.orders[q] == w.orders[q]
  {
    Step(GetSessionSpec(w, msg.from), msg.from, msg.body, orderId)
  }
}
