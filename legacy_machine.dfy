/**
 * The older copy of the conversation (server.js) as a transition function:
 * for a session record and an inbound text or button id, the record
 * afterwards, the messages sent and what happens to the store.
 */
module LegacyMachine {
  import opened Wrappers
  import opened JsBuiltins
  import opened Catalog
  import opened Conversation
  import opened LegacySessions

  /** What a handler does to the store besides the looked-up record. */
  datatype Effect = Keep | Reset | Place(order: Order)

  /** The record afterwards (meaningful when the effect is Keep), the messages, the store effect. */
  datatype Outcome = Outcome(session: Record, out: seq<Intent>, effect: Effect)

  /** The texts that bring the main menu back in this copy (no Arabic word). */
  const MenuWords: seq<string> := ["menu", "hi", "hello"]
  const MainMenuIds: seq<string> := ["ORDER", "STATUS", "SUPPORT"]
  const GenderIds: seq<string> := ["MEN", "WOMEN"]
  const CategoryIds: seq<string> := ["perfumes", "deodorants", "body sprays"]
  const SupportIds: seq<string> := ["FAQS", "LIVE_AGENT"]
  const CartDecisionIds: seq<string> := ["CONTINUE", "CHECKOUT"]
  const ConfirmIds: seq<string> := ["CONFIRM", "CANCEL"]
  const PickHint: string := "Pick a product from the first 3 below or type the ID if not there."

  /** `sendMainMenu(userPhone)`: only sends the buttons; this copy does not touch the state there. */
  function MainMenuButtons(): Intent {
    Buttons(English, MainMenuPrompt, MainMenuIds)
  }

  function GenderButtons(): Intent {
    Buttons(English, GenderPrompt, GenderIds)
  }

  /** `sendCategoryMenu(userPhone, gender)`. */
  function CategoryButtons(gender: Option<Gender>): (i: Intent)
    ensures i.Buttons? && forall id :: id in i.ids <==> CategoryOf(id).Some?
  {
    assert forall id :: CategoryOf(id).Some? ==> id == CategoryKey(CategoryOf(id).value);
    Buttons(English, CategoryPrompt(gender), CategoryIds)
  }

  function SupportButtons(): Intent {
    Buttons(English, SupportPrompt, SupportIds)
  }

  /** What the handlers dereference: a product at ASK_QUANTITY, a gender at SELECT_CATEGORY. */
  predicate Ready(r: Record) {
    && (r.state == AskQuantity ==> r.currentProduct.Some?)
    && (r.state == SelectCategory ==> r.gender.Some?)
  }

  // ---------------------------------------------------------------------
  // handleTextMessage
  // ---------------------------------------------------------------------

  /** The ASK_QUANTITY step of this copy, the same rule as the newer one. */
  function QuantityStep(r: Record, text: string): (o: Outcome)
    requires r.currentProduct.Some?
    ensures o.effect == Keep
    ensures o.session == r <==> ParseQuantity(text).None?
    ensures o.session != r ==> && o.session.state == CartDecision && o.session.currentProduct.None?
                               && |o.session.cart| == |r.cart| + 1 && o.session.cart[..|r.cart|] == r.cart
  {
    match ParseQuantity(text)
    case None => Outcome(r, [Text(English, InvalidQuantity)], Keep)
    case Some(q) =>
      var line := LineFor(r.currentProduct.value, q);
      Outcome(r.(cart := r.cart + [line], currentProduct := None, state := CartDecision),
              [Buttons(English, Added(q, line.name), CartDecisionIds)], Keep)
  }

  /** `handleTextMessage(userPhone, textBody)` on the looked-up record. */
  function OnText(r: Record, text: string): (o: Outcome)
    requires Ready(r)
    ensures o.effect == Keep
  {
    if CommandText(text) in MenuWords then
      Outcome(r.(state := MainMenu), [MainMenuButtons()], Keep)
    else
      StateText(r, text)
  }

  /** The checks of `handleTextMessage` after the menu words, one per state that reads text. */
  function StateText(r: Record, text: string): (o: Outcome)
    requires Ready(r)
    ensures o.effect == Keep
  {
    if r.state == AskQuantity then
      QuantityStep(r, text)
    else if r.state == CheckoutName then
      Outcome(r.(name := Some(text), state := CheckoutAddress), [Text(English, AskAddress(text))], Keep)
    else if r.state == CheckoutAddress then
      Outcome(r.(address := Some(text), state := CheckoutConfirm),
              [Buttons(English, OrderSummary(r.cart, text), ConfirmIds)], Keep)
    else
      Outcome(r, [Text(English, UseButtons)], Keep)
  }

  // ---------------------------------------------------------------------
  // handleCategorySelection and handleProductQuickReply
  // ---------------------------------------------------------------------

  /** One line of the product listing: `ID <id>: <name> ($<price>)` and a newline. */
  function ListingLine(p: Product): (line: string)
    ensures var id := NumberToString(p.id);
      |line| > 3 + |id| && line[..3] == "ID " && line[3..3 + |id|] == id && line[|line| - 1] == '\n'
  {
    "ID " + NumberToString(p.id) + ": " + p.name + " ($" + NumberToString(p.price) + ")\n"
  }

  /** The lines the `forEach` appends, one per product, in order. */
  function Listing(ps: seq<Product>): (t: string)
    ensures t == "" <==> ps == []
    decreases |ps|
  {
    if ps == [] then "" else Listing(ps[..|ps| - 1]) + ListingLine(ps[|ps| - 1])
  }

  /** One more `forEach` iteration appends one more line. */
  lemma ListingSnoc(ps: seq<Product>, i: nat)
    requires i < |ps|
    ensures Listing(ps[..i + 1]) == Listing(ps[..i]) + ListingLine(ps[i])
  {
    assert ps[..i + 1][..i] == ps[..i];
  }

  /** Appending the next line to a header and the lines so far gives the header and one more line. */
  lemma ListingExtend(header: string, ps: seq<Product>, i: nat, t: string)
    requires i < |ps| && t == header + Listing(ps[..i])
    ensures t + ListingLine(ps[i]) == header + Listing(ps[..i + 1])
  {
    ListingSnoc(ps, i);
    assert header + Listing(ps[..i]) + ListingLine(ps[i]) == header + (Listing(ps[..i]) + ListingLine(ps[i]));
  }

  /** The whole text sent before the product buttons. */
  function ListingText(c: Category, ps: seq<Product>): (t: string)
    ensures var header := CategoryKey(c) + ":\n";
      |t| >= |header| + |PickHint| && t[..|header|] == header && t[|t| - |PickHint|..] == PickHint
  {
    CategoryKey(c) + ":\n" + Listing(ps) + PickHint
  }

  /** The listing text is the header and lines built so far, followed by the hint. */
  lemma ListingTextOf(c: Category, ps: seq<Product>, t: string)
    requires t == CategoryKey(c) + ":\n" + Listing(ps)
    ensures ListingText(c, ps) == t + PickHint
  {
  }

  /** `products.slice(0, 3).map(p => String(p.id))`: the ids of the product buttons. */
  function OfferedIds(ps: seq<Product>): (ids: seq<string>)
    ensures |ids| <= 3 && |ids| <= |ps|
    ensures |ids| == if |ps| < 3 then |ps| else 3
    ensures forall i :: 0 <= i < |ids| ==> ids[i] == NumberToString(ps[i].id)
  {
    var k := if |ps| < 3 then |ps| else 3;
    seq(k, i requires 0 <= i < k => NumberToString(ps[i].id))
  }

  /** `handleCategorySelection(userPhone, category, session)`. */
  function CategorySelection(r: Record, id: string): (o: Outcome)
    requires r.gender.Some?
    ensures o.effect == Keep
  {
    match CategoryOf(id)
    case None => Outcome(r, [Text(English, PickCategory)], Keep)
    case Some(c) =>
      var ps := Items(r.gender, Some(c)).value;
      Outcome(r.(category := Some(c), state := ShowProducts),
              [Text(English, ProductListing(ListingText(c, ps))), Buttons(English, ProductPrompt, OfferedIds(ps))],
              Keep)
  }

  /** `handleProductQuickReply(userPhone, buttonId, session)`. */
  function ProductQuickReply(r: Record, id: string): (o: Outcome)
    ensures o.effect == Keep
  {
    match ParseInt(id)
    case None => Outcome(r, [Text(English, InvalidProductId)], Keep)
    case Some(n) =>
      match FindProductById(r.gender, r.category, n)
      case Found(p) => Outcome(r.(currentProduct := Some(p), state := AskQuantity), [Text(English, AskQuantityOf(p.name))], Keep)
      case _ => Outcome(r, [Text(English, ProductNotFound)], Keep)
  }

  // ---------------------------------------------------------------------
  // handleButtonReply, checkOrderStatus, finalizeOrder
  // ---------------------------------------------------------------------

  /** `checkOrderStatus(userPhone)`: reports the phone's order, if any, and writes MAIN_MENU. */
  function CheckOrderStatusStep(r: Record, existing: Option<Order>): (o: (Record, seq<Intent>))
    ensures o.0 == r.(state := MainMenu)
    ensures |o.1| == 2 && o.1[1] == MainMenuButtons()
  {
    match existing
    case None => (r.(state := MainMenu), [Text(English, NoOrderFound), MainMenuButtons()])
    case Some(order) => (r.(state := MainMenu), [Text(English, OrderStatus(order.orderId, order.status)), MainMenuButtons()])
  }

  /** `finalizeOrder(userPhone)` with `orderId` the generated id: the order from the record, then a reset. */
  function FinalizeOrderStep(r: Record, orderId: string): (o: Outcome)
    ensures o.effect == Place(Order(orderId, Placed, r.cart, r.name, r.address))
  {
    Outcome(r, [Text(English, OrderPlaced(orderId))], Place(Order(orderId, Placed, r.cart, r.name, r.address)))
  }

  function MainMenuButton(r: Record, id: string, existing: Option<Order>): (o: Outcome)
    ensures o.effect == Keep
  {
    if id == "ORDER" then
      Outcome(r.(state := SelectGender), [GenderButtons()], Keep)
    else if id == "STATUS" then
      var (r', out) := CheckOrderStatusStep(r.(state := CheckOrderStatus), existing);
      Outcome(r', out, Keep)
    else if id == "SUPPORT" then
      Outcome(r.(state := SupportMenu), [SupportButtons()], Keep)
    else
      Outcome(r, [Text(English, UnknownMainButton)], Keep)
  }

  function GenderButton(r: Record, id: string): (o: Outcome)
    ensures o.effect == Keep
  {
    if id == "MEN" || id == "WOMEN" then
      var g := if id == "MEN" then Men else Women;
      Outcome(r.(gender := Some(g), state := SelectCategory), [CategoryButtons(Some(g))], Keep)
    else
      Outcome(r, [Text(English, PickGender)], Keep)
  }

  function CartButton(r: Record, id: string): (o: Outcome)
    ensures o.effect == Keep
  {
    if id == "CONTINUE" then
      Outcome(r.(state := SelectCategory), [CategoryButtons(r.gender)], Keep)
    else if id == "CHECKOUT" then
      Outcome(r.(state := CheckoutName), [Text(English, AskName)], Keep)
    else
      Outcome(r, [Text(English, PickContinueOrCheckout)], Keep)
  }

  function SupportButton(r: Record, id: string): (o: Outcome)
    ensures o.effect == Keep
  {
    if id == "FAQS" then
      Outcome(r.(state := MainMenu), [Text(English, FaqDigest), MainMenuButtons()], Keep)
    else if id == "LIVE_AGENT" then
      Outcome(r.(state := MainMenu), [Text(English, LiveAgentSoon), MainMenuButtons()], Keep)
    else
      Outcome(r, [Text(English, UnknownSupportOption)], Keep)
  }

  function ConfirmButton(r: Record, id: string, orderId: string): (o: Outcome)
    ensures o.effect.Place? <==> id == "CONFIRM"
    ensures o.effect.Reset? <==> id == "CANCEL"
    ensures o.effect.Place? ==> o.effect.order == Order(orderId, Placed, r.cart, r.name, r.address)
    ensures o.session == r
  {
    if id == "CONFIRM" then FinalizeOrderStep(r, orderId)
    else if id == "CANCEL" then Outcome(r, [Text(English, OrderCanceled)], Reset)
    else Outcome(r, [Text(English, ConfirmOrCancel)], Keep)
  }

  /** `handleButtonReply(userPhone, buttonId, buttonTitle)` on the looked-up record. */
  function OnButton(r: Record, id: string, existing: Option<Order>, orderId: string): (o: Outcome)
    requires Ready(r)
    ensures o.effect.Place? ==> r.state == CheckoutConfirm && id == "CONFIRM"
    ensures o.effect.Reset? ==> r.state == CheckoutConfirm && id == "CANCEL"
  {
    match r.state
    case MainMenu => MainMenuButton(r, id, existing)
    case SelectGender => GenderButton(r, id)
    case SelectCategory => CategorySelection(r, id)
    case ShowProducts => ProductQuickReply(r, id)
    case CartDecision => CartButton(r, id)
    case SupportMenu => SupportButton(r, id)
    case CheckoutConfirm => ConfirmButton(r, id, orderId)
    case _ => Outcome(r, [Text(English, UnknownButton)], Keep)
  }

  // ---------------------------------------------------------------------
  // The handlers on the maps
  // ---------------------------------------------------------------------

  /** The store after a handler's outcome for `phone`. */
  function Apply(w: World, phone: Phone, o: Outcome): (w': World)
    ensures phone in w'.sessions
  {
    match o.effect
    case Keep => w.(sessions := w.sessions[phone := o.session])
    case Reset => ResetSpec(w, phone)
    case Place(order) => ResetSpec(w.(orders := w.orders[phone := order]), phone)
  }

  function OrderOf(orders: map<Phone, Order>, phone: Phone): Option<Order> {
    if phone in orders then Some(orders[phone]) else None
  }

  /** `handleTextMessage(userPhone, textBody)`: look the record up (creating it), then the text step. */
  function HandleText(w: World, phone: Phone, text: string): (r: (World, seq<Intent>))
    requires phone in w.sessions ==> Ready(w.sessions[phone])
    ensures r.0.sessions.Keys == w.sessions.Keys + {phone} && r.0.orders == w.orders
    ensures forall q :: q in w.sessions && q != phone ==> r.0.sessions[q] == w.sessions[q]
  {
    var w1 := GetSessionSpec(w, phone);
    var o := OnText(w1.sessions[phone], text);
    (Apply(w1, phone, o), o.out)
  }

  /** `handleButtonReply(userPhone, buttonId, buttonTitle)` with `orderId` the id finalizeOrder would draw. */
  function HandleButton(w: World, phone: Phone, id: string, orderId: string): (r: (World, seq<Intent>))
    requires phone in w.sessions ==> Ready(w.sessions[phone])
    ensures r.0.sessions.Keys == w.sessions.Keys + {phone}
    ensures forall q :: q in w.sessions && q != phone ==> r.0.sessions[q] == w.sessions[q]
    ensures forall q :: q in w.orders && q != phone ==> q in r.0.orders && r.0.orders[q] == w.orders[q]
  {
    var w1 := GetSessionSpec(w, phone);
    var o := OnButton(w1.sessions[phone], id, OrderOf(w1.orders, phone), orderId);
    (Apply(w1, phone, o), o.out)
  }
}
