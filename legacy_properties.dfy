/**
 * What the older conversation machine (server.js) guarantees: the menu
 * words, the per-state rules of the ordering flow, the product buttons as a
 * round trip through `String` and `parseInt`, an invariant that every session
 * keeps over any run (so every recorded order is complete), and the ordering
 * walk-through from the main menu to a recorded order.
 */
module LegacyProperties {
  import opened Wrappers
  import opened JsBuiltins
  import opened Catalog
  import opened Conversation
  import opened LegacySessions
  import opened LegacyMachine
  import ChatbotProperties

  // ---------------------------------------------------------------------
  // Text
  // ---------------------------------------------------------------------

  /** "menu", "hi" or "hello" only moves the record to MAIN_MENU, keeping the cart and every other field. */
  lemma MenuWordShowsMenu(r: Record, text: string)
    requires Ready(r) && CommandText(text) in MenuWords
    ensures OnText(r, text) == Outcome(r.(state := MainMenu), [MainMenuButtons()], Keep)
  {
  }

  lemma TrimPaddedHi()
    ensures Trim(" HI\n") == "HI"
  {
    assert " HI\n" == " " + "HI" + "\n";
    TrimPadded(" ", "HI", "\n");
  }

  lemma LowerHi()
    ensures ToLowerCase("HI") == "hi"
  {
  }

  lemma TextPaddedHi()
    ensures CommandText(" HI\n") == "hi"
  {
    TrimPaddedHi();
    LowerHi();
  }

  /** " HI\n" is a menu word. */
  lemma PaddedHi(r: Record)
    requires Ready(r)
    ensures OnText(r, " HI\n").session == r.(state := MainMenu)
  {
    TextPaddedHi();
    MenuWordShowsMenu(r, " HI\n");
  }

  /**
   * Outside ASK_QUANTITY and the two checkout questions any other text only
   * asks for the buttons, SHOW_PRODUCTS included, although the listing there
   * invites the user to type an id.
   */
  lemma TextElsewhereUsesButtons(r: Record, text: string)
    requires Ready(r) && CommandText(text) !in MenuWords
    requires r.state !in {AskQuantity, CheckoutName, CheckoutAddress}
    ensures OnText(r, text) == Outcome(r, [Text(English, UseButtons)], Keep)
  {
  }

  /** The name question stores the text as typed, the address question stores it and shows the summary. */
  lemma CheckoutText(r: Record, text: string)
    requires Ready(r) && CommandText(text) !in MenuWords
    ensures r.state == CheckoutName ==>
      OnText(r, text) == Outcome(r.(name := Some(text), state := CheckoutAddress), [Text(English, AskAddress(text))], Keep)
    ensures r.state == CheckoutAddress ==>
      OnText(r, text) == Outcome(r.(address := Some(text), state := CheckoutConfirm),
                                 [Buttons(English, OrderSummary(r.cart, text), ConfirmIds)], Keep)
  {
  }

  /** At ASK_QUANTITY a positive quantity appends one line from `currentProduct`; anything else changes nothing. */
  lemma QuantityRule(r: Record, text: string)
    requires r.state == AskQuantity && r.currentProduct.Some? && CommandText(text) !in MenuWords
    ensures var o := OnText(r, text);
      var p := r.currentProduct.value;
      && (ParseInt(text).None? || ParseInt(text).value <= 0 ==>
            o.session == r && o.out == [Text(English, InvalidQuantity)])
      && (ParseInt(text).Some? && ParseInt(text).value > 0 ==>
            o.session == r.(cart := r.cart + [CartLine(p.id, p.name, p.price, ParseInt(text).value as nat)],
                            currentProduct := None, state := CartDecision))
  {
    assert OnText(r, text) == QuantityStep(r, text);
  }

  /** "0" is refused at ASK_QUANTITY. */
  lemma QuantityZeroRefused(r: Record)
    requires r.state == AskQuantity && r.currentProduct.Some?
    ensures OnText(r, "0").session == r
  {
    ChatbotProperties.TextZero();
    QuantityZero();
    QuantityRule(r, "0");
  }

  /** "-5" is refused at ASK_QUANTITY. */
  lemma QuantityNegativeRefused(r: Record)
    requires r.state == AskQuantity && r.currentProduct.Some?
    ensures OnText(r, "-5").session == r
  {
    ChatbotProperties.TextMinusFive();
    QuantityNegative();
    QuantityRule(r, "-5");
  }

  /** "abc" is refused at ASK_QUANTITY. */
  lemma QuantityWordRefused(r: Record)
    requires r.state == AskQuantity && r.currentProduct.Some?
    ensures OnText(r, "abc").session == r
  {
    ChatbotProperties.TextAbc();
    QuantityNotANumber();
    QuantityRule(r, "abc");
  }

  /** "3" at ASK_QUANTITY adds a line of three of the current product. */
  lemma QuantityThreeAccepted(r: Record)
    requires r.state == AskQuantity && r.currentProduct.Some?
    ensures OnText(r, "3").session == r.(cart := r.cart + [LineFor(r.currentProduct.value, 3)],
                                       currentProduct := None, state := CartDecision)
  {
    ChatbotProperties.TextThree();
    QuantityThree();
    QuantityRule(r, "3");
  }

  // ---------------------------------------------------------------------
  // The product listing and the product buttons
  // ---------------------------------------------------------------------

  /** The listing of two lists one after the other is the two listings one after the other. */
  lemma {:induction false} ListingAppend(ps: seq<Product>, qs: seq<Product>)
    ensures Listing(ps + qs) == Listing(ps) + Listing(qs)
    decreases |qs|
  {
    if qs == [] {
      assert ps + qs == ps;
    } else {
      var init := qs[..|qs| - 1];
      var last := qs[|qs| - 1];
      var all := ps + qs;
      assert all[..|all| - 1] == ps + init;
      assert all[|all| - 1] == last;
      ListingAppend(ps, init);
      var line := ListingLine(last);
      ListingStep(all, Listing(ps + init), line);
      ListingStep(qs, Listing(init), line);
      Associate(Listing(ps), Listing(init), line);
    }
  }

  /** The recursive case of Listing, with the line and the prefix listing named. */
  lemma ListingStep(ps: seq<Product>, front: string, line: string)
    requires ps != [] && front == Listing(ps[..|ps| - 1]) && line == ListingLine(ps[|ps| - 1])
    ensures Listing(ps) == front + line
  {
  }

  lemma Associate(x: string, y: string, z: string)
    ensures x + y + z == x + (y + z)
  {
  }

  /** A list of one product is listed as its line. */
  lemma ListingOfOne(p: Product)
    ensures Listing([p]) == ListingLine(p)
  {
    ListingStep([p], Listing([p][..0]), ListingLine(p));
    assert [p][..0] == [];
  }

  /** A valid category is stored and listed with one button per product (three); any other id changes nothing. */
  lemma CategorySelectionRule(r: Record, id: string)
    requires r.gender.Some?
    ensures var o := CategorySelection(r, id);
      && (CategoryOf(id).None? ==> o.session == r && o.out == [Text(English, PickCategory)])
      && (CategoryOf(id).Some? ==>
            var ps := ProductData(r.gender.value, CategoryOf(id).value);
            && o.session == r.(category := CategoryOf(id), state := ShowProducts)
            && |o.out| == 2
            && o.out[0] == Text(English, ProductListing(ListingText(CategoryOf(id).value, ps)))
            && o.out[1].Buttons? && |o.out[1].ids| == 3
            && forall k :: 0 <= k < 3 ==> o.out[1].ids[k] == NumberToString(ps[k].id))
  {
    if CategoryOf(id).Some? {
      CatalogShape(r.gender.value, CategoryOf(id).value, r.gender.value, CategoryOf(id).value, 0, 0);
    }
  }

  /** Within one catalogue list the product with a given list position's id is the one at that position. */
  lemma FindAtPosition(g: Gender, c: Category, k: nat)
    requires k < |ProductData(g, c)|
    ensures FindProductById(Some(g), Some(c), ProductData(g, c)[k].id) == Found(ProductData(g, c)[k])
  {
    var items := ProductData(g, c);
    var j := FirstIndexOf(items, items[k].id);
    assert j <= k;
    if j < k {
      CatalogShape(g, c, g, c, j, k);
      assert false;
    }
  }

  /** `handleProductQuickReply`: an id that is NaN or names no product of the list leaves the record as it was. */
  lemma ProductReplyRule(r: Record, id: string)
    ensures var o := ProductQuickReply(r, id);
      && (ParseInt(id).None? ==> o.session == r && o.out == [Text(English, InvalidProductId)])
      && (ParseInt(id).Some? && !FindProductById(r.gender, r.category, ParseInt(id).value).Found? ==>
            o.session == r && o.out == [Text(English, ProductNotFound)])
      && (ParseInt(id).Some? && FindProductById(r.gender, r.category, ParseInt(id).value).Found? ==>
            var p := FindProductById(r.gender, r.category, ParseInt(id).value).product;
            && p in Items(r.gender, r.category).value && p.id == ParseInt(id).value
            && o.session == r.(currentProduct := Some(p), state := AskQuantity))
  {
  }

  /**
   * Every product button offered at SELECT_CATEGORY leads, when tapped, to
   * the product it was labelled with: `String(p.id)` parses back to `p.id`,
   * and ids are distinct in the catalogue.
   */
  lemma OfferedButtonsRoundTrip(r: Record, id: string, k: nat)
    requires r.state == SelectCategory && r.gender.Some? && CategoryOf(id).Some? && k < 3
    ensures var o := OnButton(r, id, None, "");
      var ps := ProductData(r.gender.value, CategoryOf(id).value);
      && o.session.state == ShowProducts
      && o.out[1].Buttons? && k < |o.out[1].ids|
      && OnButton(o.session, o.out[1].ids[k], None, "").session ==
           o.session.(currentProduct := Some(ps[k]), state := AskQuantity)
  {
    var o := OnButton(r, id, None, "");
    ButtonArm(r, id);
    CategorySelectionRule(r, id);
    var s := o.session;
    var t := o.out[1].ids[k];
    ButtonArm(s, t);
    ProductButtonAt(s, k);
  }

  /** At SELECT_CATEGORY a button is a category choice; at SHOW_PRODUCTS it is a product choice. */
  lemma ButtonArm(r: Record, id: string)
    requires Ready(r)
    ensures r.state == SelectCategory ==> OnButton(r, id, None, "") == CategorySelection(r, id)
    ensures r.state == ShowProducts ==> OnButton(r, id, None, "") == ProductQuickReply(r, id)
  {
  }

  /** Tapping the button labelled with the k-th product's id picks the k-th product. */
  lemma ProductButtonAt(s: Record, k: nat)
    requires s.gender.Some? && s.category.Some? && k < 3
    ensures var ps := ProductData(s.gender.value, s.category.value);
      ProductQuickReply(s, NumberToString(ps[k].id)).session == s.(currentProduct := Some(ps[k]), state := AskQuantity)
  {
    var g := s.gender.value;
    var c := s.category.value;
    CatalogShape(g, c, g, c, k, k);
    var p := ProductData(g, c)[k];
    var t := NumberToString(p.id);
    ParseIntRoundTrip(p.id);
    FindAtPosition(g, c, k);
    ProductReplyRule(s, t);
  }

  // ---------------------------------------------------------------------
  // Buttons
  // ---------------------------------------------------------------------

  /** MEN or WOMEN at SELECT_GENDER stores the gender and offers exactly the three categories. */
  lemma GenderRule(r: Record, id: string)
    requires r.state == SelectGender
    ensures var o := OnButton(r, id, None, "");
      && (id == "MEN" ==> o.session == r.(gender := Some(Men), state := SelectCategory))
      && (id == "WOMEN" ==> o.session == r.(gender := Some(Women), state := SelectCategory))
      && (id == "MEN" || id == "WOMEN" ==> forall b :: b in o.out[0].ids <==> CategoryOf(b).Some?)
      && (id != "MEN" && id != "WOMEN" ==> o.session == r && o.out == [Text(English, PickGender)])
  {
  }

  /**
   * In MAIN_MENU, from any record: ORDER asks for the gender, STATUS reports and
   * comes back to MAIN_MENU, SUPPORT opens the support menu; any other id
   * leaves the record as it was.
   */
  lemma MainMenuRule(r: Record, id: string, existing: Option<Order>, orderId: string)
    requires r.state == MainMenu
    ensures var o := OnButton(r, id, existing, orderId);
      && o.effect == Keep
      && (id == "ORDER" ==> o.session == r.(state := SelectGender) && o.out == [GenderButtons()])
      && (id == "STATUS" ==> o.session == r && |o.out| == 2 && o.out[1] == MainMenuButtons())
      && (id == "SUPPORT" ==> o.session == r.(state := SupportMenu) && o.out == [SupportButtons()])
      && (id !in MainMenuIds ==> o.session == r && o.out == [Text(English, UnknownMainButton)])
  {
  }

  /** FAQS and LIVE_AGENT answer and return to MAIN_MENU with the main menu; other ids change nothing. */
  lemma SupportRule(r: Record, id: string, existing: Option<Order>, orderId: string)
    requires r.state == SupportMenu
    ensures var o := OnButton(r, id, existing, orderId);
      && o.effect == Keep
      && (id in SupportIds <==> o.session.state == MainMenu)
      && (id == "FAQS" ==> o.session == r.(state := MainMenu) && o.out == [Text(English, FaqDigest), MainMenuButtons()])
      && (id == "LIVE_AGENT" ==>
            o.session == r.(state := MainMenu) && o.out == [Text(English, LiveAgentSoon), MainMenuButtons()])
      && (id !in SupportIds ==> o.session == r && o.out == [Text(English, UnknownSupportOption)])
  {
  }

  /** CONTINUE goes back to the categories of the same gender; CHECKOUT asks for the name. */
  lemma CartDecisionRule(r: Record, id: string)
    requires r.state == CartDecision
    ensures var o := OnButton(r, id, None, "");
      && (id == "CONTINUE" ==> o.session == r.(state := SelectCategory) && o.out == [CategoryButtons(r.gender)])
      && (id == "CHECKOUT" ==> o.session == r.(state := CheckoutName) && o.out == [Text(English, AskName)])
      && (id != "CONTINUE" && id != "CHECKOUT" ==>
            o.session == r && o.out == [Text(English, PickContinueOrCheckout)])
  {
  }

  /** STATUS reports the phone's order, or that there is none, and the record ends in MAIN_MENU. */
  lemma StatusRule(w: World, phone: Phone, orderId: string)
    requires phone in w.sessions && w.sessions[phone].state == MainMenu
    ensures var (w', out) := HandleButton(w, phone, "STATUS", orderId);
      && w' == w
      && out[1] == MainMenuButtons()
      && (phone !in w.orders ==> out[0] == Text(English, NoOrderFound))
      && (phone in w.orders ==> out[0] == Text(English, OrderStatus(w.orders[phone].orderId, w.orders[phone].status)))
  {
    var r := w.sessions[phone];
    assert GetSessionSpec(w, phone) == w;
    assert r.(state := CheckOrderStatus).(state := MainMenu) == r;
  }

  /**
   * CONFIRM records a "Placed" order for the phone from the record's cart,
   * name and address, replacing any earlier one, and resets the record;
   * CANCEL only resets it; any other button changes nothing.
   */
  lemma ConfirmRule(w: World, phone: Phone, id: string, orderId: string)
    requires phone in w.sessions && w.sessions[phone].state == CheckoutConfirm
    ensures var r := w.sessions[phone];
      var w' := HandleButton(w, phone, id, orderId).0;
      && (id == "CONFIRM" ==>
            && w'.orders == w.orders[phone := Order(orderId, Placed, r.cart, r.name, r.address)]
            && w'.sessions == w.sessions[phone := DefaultRecord()])
      && (id == "CANCEL" ==> w'.orders == w.orders && w'.sessions == w.sessions[phone := DefaultRecord()])
      && (id != "CONFIRM" && id != "CANCEL" ==> w' == w)
  {
    assert GetSessionSpec(w, phone) == w;
  }

  // ---------------------------------------------------------------------
  // Reachability
  // ---------------------------------------------------------------------

  /** The states this copy declares no handler for: never entered, or (CHECK_ORDER_STATUS) left at once. */
  predicate Unreached(s: State) {
    s.Welcome? || s.FaqList? || s.TicketName? || s.TicketOrderNum? || s.TicketTopic? || s.TicketDesc? ||
    s.CheckOrderStatus?
  }

  /** From the category choice to the cart decision a gender is known. */
  predicate GenderKnown(s: State) {
    s.SelectCategory? || s.ShowProducts? || s.AskQuantity? || s.CartDecision?
  }

  /** From the listing to the cart decision a category is known. */
  predicate CategoryKnown(s: State) {
    s.ShowProducts? || s.AskQuantity? || s.CartDecision?
  }

  /** From the cart decision to the confirmation the cart has a line. */
  predicate CartFilled(s: State) {
    s.CartDecision? || s.CheckoutName? || s.CheckoutAddress? || s.CheckoutConfirm?
  }

  /**
   * What a reachable record satisfies: a gender from the category choice on,
   * a category from the listing on, a non-empty cart from the cart decision
   * through checkout, and the name and address once they were asked for.
   */
  predicate Inv(r: Record) {
    && Ready(r)
    && !Unreached(r.state)
    && (GenderKnown(r.state) ==> r.gender.Some?)
    && (CategoryKnown(r.state) ==> r.category.Some?)
    && (CartFilled(r.state) ==> r.cart != [])
    && (r.state.CheckoutAddress? || r.state.CheckoutConfirm? ==> r.name.Some?)
    && (r.state.CheckoutConfirm? ==> r.address.Some?)
  }

  /** A recorded order: placed, with at least one line, a name and an address. */
  predicate Complete(o: Order) {
    o.status == Placed && o.cart != [] && o.name.Some? && o.address.Some?
  }

  ghost predicate WorldInv(w: World) {
    && (forall p :: p in w.sessions ==> Inv(w.sessions[p]))
    && (forall p :: p in w.orders ==> Complete(w.orders[p]))
  }

  lemma DefaultReachable()
    ensures Inv(DefaultRecord())
  {
  }

  lemma TextKeepsInv(r: Record, text: string)
    requires Inv(r)
    ensures Inv(OnText(r, text).session)
  {
    if CommandText(text) in MenuWords {
      MenuWordShowsMenu(r, text);
    } else {
      assert OnText(r, text) == StateText(r, text);
      StateTextKeepsInv(r, text);
    }
  }

  lemma StateTextKeepsInv(r: Record, text: string)
    requires Inv(r)
    ensures Inv(StateText(r, text).session)
  {
    if r.state == AskQuantity {
      QuantityStepKeepsInv(r, text);
    }
  }

  lemma QuantityStepKeepsInv(r: Record, text: string)
    requires Inv(r) && r.state == AskQuantity
    ensures Inv(QuantityStep(r, text).session)
  {
  }

  lemma CategoryKeepsInv(r: Record, id: string)
    requires Inv(r) && r.state == SelectCategory
    ensures Inv(CategorySelection(r, id).session)
  {
    CategorySelectionRule(r, id);
  }

  lemma ProductKeepsInv(r: Record, id: string)
    requires Inv(r) && r.state == ShowProducts
    ensures Inv(ProductQuickReply(r, id).session)
  {
    ProductReplyRule(r, id);
  }

  lemma MenuKeepsInv(r: Record, id: string, existing: Option<Order>)
    requires Inv(r) && r.state == MainMenu
    ensures Inv(MainMenuButton(r, id, existing).session)
  {
  }

  lemma GenderKeepsInv(r: Record, id: string)
    requires Inv(r) && r.state == SelectGender
    ensures Inv(GenderButton(r, id).session)
  {
  }

  lemma CartKeepsInv(r: Record, id: string)
    requires Inv(r) && r.state == CartDecision
    ensures Inv(CartButton(r, id).session)
  {
  }

  lemma SupportKeepsInv(r: Record, id: string)
    requires Inv(r) && r.state == SupportMenu
    ensures Inv(SupportButton(r, id).session)
  {
  }

  /** CONFIRM places a complete order; any other button but CANCEL keeps the record as it was. */
  lemma ConfirmKeepsInv(r: Record, id: string, orderId: string)
    requires Inv(r) && r.state == CheckoutConfirm
    ensures var o := ConfirmButton(r, id, orderId);
      && (o.effect.Keep? ==> Inv(o.session))
      && (o.effect.Place? ==> Complete(o.effect.order))
  {
  }

  /** A button keeps a reachable record reachable, and an order it places is complete. */
  lemma ButtonKeepsInv(r: Record, id: string, existing: Option<Order>, orderId: string)
    requires Inv(r)
    ensures var o := OnButton(r, id, existing, orderId);
      && (o.effect.Keep? ==> Inv(o.session))
      && (o.effect.Place? ==> Complete(o.effect.order))
  {
    match r.state
    case MainMenu => MenuKeepsInv(r, id, existing);
    case SelectGender => GenderKeepsInv(r, id);
    case SelectCategory => CategoryKeepsInv(r, id);
    case ShowProducts => ProductKeepsInv(r, id);
    case CartDecision => CartKeepsInv(r, id);
    case SupportMenu => SupportKeepsInv(r, id);
    case CheckoutConfirm => ConfirmKeepsInv(r, id, orderId);
    case _ =>
  }

  lemma ApplyKeepsInv(w: World, phone: Phone, o: Outcome)
    requires WorldInv(w)
    requires o.effect.Keep? ==> Inv(o.session)
    requires o.effect.Place? ==> Complete(o.effect.order)
    ensures WorldInv(Apply(w, phone, o))
  {
    DefaultReachable();
  }

  /** One text message keeps every record reachable and leaves the orders as they were. */
  lemma HandleTextKeepsInv(w: World, phone: Phone, text: string)
    requires WorldInv(w)
    ensures WorldInv(HandleText(w, phone, text).0) && HandleText(w, phone, text).0.orders == w.orders
  {
    var w1 := GetSessionSpec(w, phone);
    DefaultReachable();
    assert WorldInv(w1);
    TextKeepsInv(w1.sessions[phone], text);
    ApplyKeepsInv(w1, phone, OnText(w1.sessions[phone], text));
  }

  /** One button reply keeps every record reachable and every recorded order complete. */
  lemma HandleButtonKeepsInv(w: World, phone: Phone, id: string, orderId: string)
    requires WorldInv(w)
    ensures WorldInv(HandleButton(w, phone, id, orderId).0)
  {
    var w1 := GetSessionSpec(w, phone);
    DefaultReachable();
    assert WorldInv(w1);
    var existing := OrderOf(w1.orders, phone);
    ButtonKeepsInv(w1.sessions[phone], id, existing, orderId);
    ApplyKeepsInv(w1, phone, OnButton(w1.sessions[phone], id, existing, orderId));
  }

  /** An inbound message as the webhook hands it to a handler; a button carries the id `generateOrderId` would return. */
  datatype Event = TextEvent(phone: Phone, text: string) | ButtonEvent(phone: Phone, id: string, orderId: string)

  function Deliver(w: World, e: Event): (r: (World, seq<Intent>))
    requires WorldInv(w)
    ensures WorldInv(r.0)
  {
    match e
    case TextEvent(phone, text) =>
      HandleTextKeepsInv(w, phone, text);
      HandleText(w, phone, text)
    case ButtonEvent(phone, id, orderId) =>
      HandleButtonKeepsInv(w, phone, id, orderId);
      HandleButton(w, phone, id, orderId)
  }

  /**
   * Messages handled one after another. From a reachable store every record
   * stays reachable (so no handler meets a missing product or gender, and no
   * undeclared state is ever entered) and every recorded order is complete.
   */
  function Run(w: World, events: seq<Event>): (r: (World, seq<Intent>))
    requires WorldInv(w)
    ensures WorldInv(r.0)
    ensures forall p :: p in r.0.sessions ==> !Unreached(r.0.sessions[p].state)
    ensures forall p :: p in r.0.orders ==> r.0.orders[p].cart != [] && r.0.orders[p].address.Some?
    decreases |events|
  {
    if events == [] then (w, [])
    else
      var (w1, out1) := Deliver(w, events[0]);
      var (w2, out2) := Run(w1, events[1..]);
      (w2, out1 + out2)
  }

  /** The empty store, where every run starts. */
  lemma EmptyStoreReachable()
    ensures WorldInv(World(map[], map[]))
  {
  }

  // ---------------------------------------------------------------------
  // The ordering walk-through
  // ---------------------------------------------------------------------

  /**
   * The events of one order: a first text (a greeting, or anything else),
   * ORDER, MEN, perfumes, product 1, the quantity typed as digits, CHECKOUT,
   * the name, the address and CONFIRM.
   */
  function OrderEvents(phone: Phone, greeting: string, quantity: nat, name: string, address: string, orderId: string): (es: seq<Event>)
    ensures |es| == 10
  {
    [TextEvent(phone, greeting), ButtonEvent(phone, "ORDER", orderId), ButtonEvent(phone, "MEN", orderId),
     ButtonEvent(phone, "perfumes", orderId), ButtonEvent(phone, "1", orderId), TextEvent(phone, NumberToString(quantity)),
     ButtonEvent(phone, "CHECKOUT", orderId), TextEvent(phone, name), TextEvent(phone, address),
     ButtonEvent(phone, "CONFIRM", orderId)]
  }

  /** The first product of the men's perfumes. */
  const Cologne: Product := Product(1, "XYZ Cologne", 50)

  /** The record after the first `k` events, for 1 <= k <= 9. */
  function Stage(k: nat, quantity: nat, name: string, address: string): Record {
    var r := DefaultRecord();
    if k <= 1 then r
    else if k == 2 then r.(state := SelectGender)
    else if k == 3 then r.(gender := Some(Men), state := SelectCategory)
    else if k == 4 then r.(gender := Some(Men), category := Some(Perfumes), state := ShowProducts)
    else if k == 5 then r.(gender := Some(Men), category := Some(Perfumes), currentProduct := Some(Cologne), state := AskQuantity)
    else
      var r6 := r.(gender := Some(Men), category := Some(Perfumes), cart := [LineFor(Cologne, quantity)], state := CartDecision);
      if k == 6 then r6
      else if k == 7 then r6.(state := CheckoutName)
      else if k == 8 then r6.(name := Some(name), state := CheckoutAddress)
      else r6.(name := Some(name), address := Some(address), state := CheckoutConfirm)
  }

  /** The store after the first `k` events: empty, then one record, then the reset record and the order. */
  function StageWorld(phone: Phone, k: nat, quantity: nat, name: string, address: string, orderId: string): World {
    if k == 0 then World(map[], map[])
    else if k < 10 then World(map[phone := Stage(k, quantity, name, address)], map[])
    else World(map[phone := DefaultRecord()],
               map[phone := Order(orderId, Placed, [CartLine(1, "XYZ Cologne", 50, quantity)], Some(name), Some(address))])
  }

  /** A text to a phone with a reachable record replaces that record by the text step's result. */
  lemma TextOnWorld(phone: Phone, r: Record, text: string, r': Record)
    requires Inv(r) && OnText(r, text).session == r'
    ensures HandleText(World(map[phone := r], map[]), phone, text).0 == World(map[phone := r'], map[])
  {
    var w := World(map[phone := r], map[]);
    assert GetSessionSpec(w, phone) == w;
    assert w.sessions[phone := r'] == map[phone := r'];
  }

  /** A button that neither places an order nor resets replaces the record by the button step's result. */
  lemma ButtonOnWorld(phone: Phone, r: Record, id: string, orderId: string, r': Record)
    requires Inv(r) && OnButton(r, id, None, orderId).effect == Keep && OnButton(r, id, None, orderId).session == r'
    ensures HandleButton(World(map[phone := r], map[]), phone, id, orderId).0 == World(map[phone := r'], map[])
  {
    var w := World(map[phone := r], map[]);
    assert GetSessionSpec(w, phone) == w;
    assert OrderOf(w.orders, phone) == None;
    assert w.sessions[phone := r'] == map[phone := r'];
  }

  /** Any first text from an unknown phone creates the default record and leaves it as it is. */
  lemma FirstContactStep(phone: Phone, text: string)
    ensures HandleText(World(map[], map[]), phone, text).0 == World(map[phone := DefaultRecord()], map[])
  {
    var w1 := World(map[phone := DefaultRecord()], map[]);
    assert GetSessionSpec(World(map[], map[]), phone) == w1;
    if CommandText(text) in MenuWords {
      MenuWordShowsMenu(DefaultRecord(), text);
    } else {
      TextElsewhereUsesButtons(DefaultRecord(), text);
    }
    TextOnWorld(phone, DefaultRecord(), text, DefaultRecord());
  }

  lemma PickPerfumes(r: Record, orderId: string)
    requires r.state == SelectCategory && r.gender == Some(Men)
    ensures OnButton(r, "perfumes", None, orderId).effect == Keep
    ensures OnButton(r, "perfumes", None, orderId).session == r.(category := Some(Perfumes), state := ShowProducts)
  {
    assert CategoryOf("perfumes") == Some(Perfumes);
  }

  lemma PickCologne(r: Record, orderId: string)
    requires r.state == ShowProducts && r.gender == Some(Men) && r.category == Some(Perfumes)
    ensures OnButton(r, "1", None, orderId).effect == Keep
    ensures OnButton(r, "1", None, orderId).session == r.(currentProduct := Some(Cologne), state := AskQuantity)
  {
    assert NumberToString(1) == "1";
    ParseIntRoundTrip(1);
    FindAtPosition(Men, Perfumes, 0);
    assert OnButton(r, "1", None, orderId) == ProductQuickReply(r, "1");
  }

  /** The decimal form of a number is no menu word and is its own command text. */
  lemma NumberIsPlain(n: nat)
    ensures CommandText(NumberToString(n)) == NumberToString(n)
    ensures NumberToString(n) !in MenuWords
  {
    var t := NumberToString(n);
    DigitsArePlain(t);
  }

  lemma DigitsArePlain(ds: string)
    requires AllDigits(ds) && ds != []
    ensures CommandText(ds) == ds && ds !in MenuWords
  {
    assert IsDigit(ds[0]) && IsDigit(ds[|ds| - 1]);
    ChatbotProperties.CommandOfPlainWord(ds);
    assert ds[0] != "menu"[0] && ds[0] != "hi"[0] && ds[0] != "hello"[0];
  }

  /** Typing a positive number at ASK_QUANTITY adds that many of the current product. */
  lemma QuantityTyped(r: Record, quantity: nat)
    requires r.state == AskQuantity && r.currentProduct.Some? && quantity > 0
    ensures OnText(r, NumberToString(quantity)).session ==
      r.(cart := r.cart + [LineFor(r.currentProduct.value, quantity)], currentProduct := None, state := CartDecision)
  {
    NumberIsPlain(quantity);
    ParseIntRoundTrip(quantity);
    QuantityRule(r, NumberToString(quantity));
  }

  lemma Event0(phone: Phone, greeting: string, quantity: nat, name: string, address: string, orderId: string)
    requires WorldInv(StageWorld(phone, 0, quantity, name, address, orderId))
    ensures WorldInv(StageWorld(phone, 1, quantity, name, address, orderId))
    ensures Run(StageWorld(phone, 0, quantity, name, address, orderId), OrderEvents(phone, greeting, quantity, name, address, orderId)[0..]).0 ==
            Run(StageWorld(phone, 1, quantity, name, address, orderId), OrderEvents(phone, greeting, quantity, name, address, orderId)[1..]).0
  {
    Step0(phone, greeting, quantity, name, address, orderId);
    DeliverText(StageWorld(phone, 0, quantity, name, address, orderId), phone, greeting, StageWorld(phone, 1, quantity, name, address, orderId));
    assert OrderEvents(phone, greeting, quantity, name, address, orderId)[0] == TextEvent(phone, greeting);
    RunStep(phone, 0, greeting, quantity, name, address, orderId);
  }

  lemma Event1(phone: Phone, greeting: string, quantity: nat, name: string, address: string, orderId: string)
    requires WorldInv(StageWorld(phone, 1, quantity, name, address, orderId))
    ensures WorldInv(StageWorld(phone, 2, quantity, name, address, orderId))
    ensures Run(StageWorld(phone, 1, quantity, name, address, orderId), OrderEvents(phone, greeting, quantity, name, address, orderId)[1..]).0 ==
            Run(StageWorld(phone, 2, quantity, name, address, orderId), OrderEvents(phone, greeting, quantity, name, address, orderId)[2..]).0
  {
    Step1(phone, quantity, name, address, orderId);
    DeliverButton(StageWorld(phone, 1, quantity, name, address, orderId), phone, "ORDER", orderId, StageWorld(phone, 2, quantity, name, address, orderId));
    assert OrderEvents(phone, greeting, quantity, name, address, orderId)[1] == ButtonEvent(phone, "ORDER", orderId);
    RunStep(phone, 1, greeting, quantity, name, address, orderId);
  }

  lemma Event2(phone: Phone, greeting: string, quantity: nat, name: string, address: string, orderId: string)
    requires WorldInv(StageWorld(phone, 2, quantity, name, address, orderId))
    ensures WorldInv(StageWorld(phone, 3, quantity, name, address, orderId))
    ensures Run(StageWorld(phone, 2, quantity, name, address, orderId), OrderEvents(phone, greeting, quantity, name, address, orderId)[2..]).0 ==
            Run(StageWorld(phone, 3, quantity, name, address, orderId), OrderEvents(phone, greeting, quantity, name, address, orderId)[3..]).0
  {
    Step2(phone, quantity, name, address, orderId);
    DeliverButton(StageWorld(phone, 2, quantity, name, address, orderId), phone, "MEN", orderId, StageWorld(phone, 3, quantity, name, address, orderId));
    assert OrderEvents(phone, greeting, quantity, name, address, orderId)[2] == ButtonEvent(phone, "MEN", orderId);
    RunStep(phone, 2, greeting, quantity, name, address, orderId);
  }

  lemma Event3(phone: Phone, greeting: string, quantity: nat, name: string, address: string, orderId: string)
    requires WorldInv(StageWorld(phone, 3, quantity, name, address, orderId))
    ensures WorldInv(StageWorld(phone, 4, quantity, name, address, orderId))
    ensures Run(StageWorld(phone, 3, quantity, name, address, orderId), OrderEvents(phone, greeting, quantity, name, address, orderId)[3..]).0 ==
            Run(StageWorld(phone, 4, quantity, name, address, orderId), OrderEvents(phone, greeting, quantity, name, address, orderId)[4..]).0
  {
    Step3(phone, quantity, name, address, orderId);
    DeliverButton(StageWorld(phone, 3, quantity, name, address, orderId), phone, "perfumes", orderId, StageWorld(phone, 4, quantity, name, address, orderId));
    assert OrderEvents(phone, greeting, quantity, name, address, orderId)[3] == ButtonEvent(phone, "perfumes", orderId);
    RunStep(phone, 3, greeting, quantity, name, address, orderId);
  }

  lemma Event4(phone: Phone, greeting: string, quantity: nat, name: string, address: string, orderId: string)
    requires WorldInv(StageWorld(phone, 4, quantity, name, address, orderId))
    ensures WorldInv(StageWorld(phone, 5, quantity, name, address, orderId))
    ensures Run(StageWorld(phone, 4, quantity, name, address, orderId), OrderEvents(phone, greeting, quantity, name, address, orderId)[4..]).0 ==
            Run(StageWorld(phone, 5, quantity, name, address, orderId), OrderEvents(phone, greeting, quantity, name, address, orderId)[5..]).0
  {
    Step4(phone, quantity, name, address, orderId);
    DeliverButton(StageWorld(phone, 4, quantity, name, address, orderId), phone, "1", orderId, StageWorld(phone, 5, quantity, name, address, orderId));
    assert OrderEvents(phone, greeting, quantity, name, address, orderId)[4] == ButtonEvent(phone, "1", orderId);
    RunStep(phone, 4, greeting, quantity, name, address, orderId);
  }

  lemma Event5(phone: Phone, greeting: string, quantity: nat, name: string, address: string, orderId: string)
    requires quantity > 0
    requires WorldInv(StageWorld(phone, 5, quantity, name, address, orderId))
    ensures WorldInv(StageWorld(phone, 6, quantity, name, address, orderId))
    ensures Run(StageWorld(phone, 5, quantity, name, address, orderId), OrderEvents(phone, greeting, quantity, name, address, orderId)[5..]).0 ==
            Run(StageWorld(phone, 6, quantity, name, address, orderId), OrderEvents(phone, greeting, quantity, name, address, orderId)[6..]).0
  {
    Record5(quantity, name, address);
    StageInv(5, quantity, name, address);
    TextStage(phone, 5, NumberToString(quantity), quantity, name, address, orderId);
    DeliverText(StageWorld(phone, 5, quantity, name, address, orderId), phone, NumberToString(quantity), StageWorld(phone, 6, quantity, name, address, orderId));
    assert OrderEvents(phone, greeting, quantity, name, address, orderId)[5] == TextEvent(phone, NumberToString(quantity));
    RunStep(phone, 5, greeting, quantity, name, address, orderId);
  }

  lemma Event6(phone: Phone, greeting: string, quantity: nat, name: string, address: string, orderId: string)
    requires WorldInv(StageWorld(phone, 6, quantity, name, address, orderId))
    ensures WorldInv(StageWorld(phone, 7, quantity, name, address, orderId))
    ensures Run(StageWorld(phone, 6, quantity, name, address, orderId), OrderEvents(phone, greeting, quantity, name, address, orderId)[6..]).0 ==
            Run(StageWorld(phone, 7, quantity, name, address, orderId), OrderEvents(phone, greeting, quantity, name, address, orderId)[7..]).0
  {
    Step6(phone, quantity, name, address, orderId);
    DeliverButton(StageWorld(phone, 6, quantity, name, address, orderId), phone, "CHECKOUT", orderId, StageWorld(phone, 7, quantity, name, address, orderId));
    assert OrderEvents(phone, greeting, quantity, name, address, orderId)[6] == ButtonEvent(phone, "CHECKOUT", orderId);
    RunStep(phone, 6, greeting, quantity, name, address, orderId);
  }

  lemma Event7(phone: Phone, greeting: string, quantity: nat, name: string, address: string, orderId: string)
    requires CommandText(name) !in MenuWords
    requires WorldInv(StageWorld(phone, 7, quantity, name, address, orderId))
    ensures WorldInv(StageWorld(phone, 8, quantity, name, address, orderId))
    ensures Run(StageWorld(phone, 7, quantity, name, address, orderId), OrderEvents(phone, greeting, quantity, name, address, orderId)[7..]).0 ==
            Run(StageWorld(phone, 8, quantity, name, address, orderId), OrderEvents(phone, greeting, quantity, name, address, orderId)[8..]).0
  {
    Record7(quantity, name, address);
    StageInv(7, quantity, name, address);
    TextStage(phone, 7, name, quantity, name, address, orderId);
    DeliverText(StageWorld(phone, 7, quantity, name, address, orderId), phone, name, StageWorld(phone, 8, quantity, name, address, orderId));
    assert OrderEvents(phone, greeting, quantity, name, address, orderId)[7] == TextEvent(phone, name);
    RunStep(phone, 7, greeting, quantity, name, address, orderId);
  }

  lemma Event8(phone: Phone, greeting: string, quantity: nat, name: string, address: string, orderId: string)
    requires CommandText(address) !in MenuWords
    requires WorldInv(StageWorld(phone, 8, quantity, name, address, orderId))
    ensures WorldInv(StageWorld(phone, 9, quantity, name, address, orderId))
    ensures Run(StageWorld(phone, 8, quantity, name, address, orderId), OrderEvents(phone, greeting, quantity, name, address, orderId)[8..]).0 ==
            Run(StageWorld(phone, 9, quantity, name, address, orderId), OrderEvents(phone, greeting, quantity, name, address, orderId)[9..]).0
  {
    Record8(quantity, name, address);
    StageInv(8, quantity, name, address);
    TextStage(phone, 8, address, quantity, name, address, orderId);
    DeliverText(StageWorld(phone, 8, quantity, name, address, orderId), phone, address, StageWorld(phone, 9, quantity, name, address, orderId));
    assert OrderEvents(phone, greeting, quantity, name, address, orderId)[8] == TextEvent(phone, address);
    RunStep(phone, 8, greeting, quantity, name, address, orderId);
  }

  lemma Event9(phone: Phone, greeting: string, quantity: nat, name: string, address: string, orderId: string)
    requires WorldInv(StageWorld(phone, 9, quantity, name, address, orderId))
    ensures WorldInv(StageWorld(phone, 10, quantity, name, address, orderId))
    ensures Run(StageWorld(phone, 9, quantity, name, address, orderId), OrderEvents(phone, greeting, quantity, name, address, orderId)[9..]).0 ==
            Run(StageWorld(phone, 10, quantity, name, address, orderId), OrderEvents(phone, greeting, quantity, name, address, orderId)[10..]).0
  {
    Step9(phone, quantity, name, address, orderId);
    DeliverButton(StageWorld(phone, 9, quantity, name, address, orderId), phone, "CONFIRM", orderId, StageWorld(phone, 10, quantity, name, address, orderId));
    assert OrderEvents(phone, greeting, quantity, name, address, orderId)[9] == ButtonEvent(phone, "CONFIRM", orderId);
    RunStep(phone, 9, greeting, quantity, name, address, orderId);
  }

  lemma DeliverText(w: World, phone: Phone, text: string, w': World)
    requires WorldInv(w) && HandleText(w, phone, text).0 == w'
    ensures Deliver(w, TextEvent(phone, text)).0 == w'
  {
  }

  lemma DeliverButton(w: World, phone: Phone, id: string, orderId: string, w': World)
    requires WorldInv(w) && HandleButton(w, phone, id, orderId).0 == w'
    ensures Deliver(w, ButtonEvent(phone, id, orderId)).0 == w'
  {
  }

  lemma Step0(phone: Phone, greeting: string, quantity: nat, name: string, address: string, orderId: string)
    ensures HandleText(StageWorld(phone, 0, quantity, name, address, orderId), phone, greeting).0 == StageWorld(phone, 1, quantity, name, address, orderId)
  {
    FirstContactStep(phone, greeting);
  }

  lemma StageInv(k: nat, quantity: nat, name: string, address: string)
    requires 1 <= k <= 9
    ensures Inv(Stage(k, quantity, name, address))
  {
  }

  /** A button that turns stage k's record into stage k + 1's does the same to the store. */
  lemma ButtonStage(phone: Phone, k: nat, id: string, quantity: nat, name: string, address: string, orderId: string)
    requires 1 <= k < 9
    requires OnButton(Stage(k, quantity, name, address), id, None, orderId).effect == Keep
    requires OnButton(Stage(k, quantity, name, address), id, None, orderId).session == Stage(k + 1, quantity, name, address)
    ensures HandleButton(StageWorld(phone, k, quantity, name, address, orderId), phone, id, orderId).0 ==
            StageWorld(phone, k + 1, quantity, name, address, orderId)
  {
    StageInv(k, quantity, name, address);
    ButtonOnWorld(phone, Stage(k, quantity, name, address), id, orderId, Stage(k + 1, quantity, name, address));
  }

  /** A text that turns stage k's record into stage k + 1's does the same to the store. */
  lemma TextStage(phone: Phone, k: nat, text: string, quantity: nat, name: string, address: string, orderId: string)
    requires 1 <= k < 9 && Ready(Stage(k, quantity, name, address))
    requires OnText(Stage(k, quantity, name, address), text).session == Stage(k + 1, quantity, name, address)
    ensures HandleText(StageWorld(phone, k, quantity, name, address, orderId), phone, text).0 ==
            StageWorld(phone, k + 1, quantity, name, address, orderId)
  {
    StageInv(k, quantity, name, address);
    TextOnWorld(phone, Stage(k, quantity, name, address), text, Stage(k + 1, quantity, name, address));
  }

  lemma Record1(quantity: nat, name: string, address: string, orderId: string)
    ensures OnButton(Stage(1, quantity, name, address), "ORDER", None, orderId).effect == Keep
    ensures OnButton(Stage(1, quantity, name, address), "ORDER", None, orderId).session == Stage(2, quantity, name, address)
  {
    var r := Stage(1, quantity, name, address);
    assert OnButton(r, "ORDER", None, orderId) == MainMenuButton(r, "ORDER", None);
  }

  lemma Step1(phone: Phone, quantity: nat, name: string, address: string, orderId: string)
    ensures HandleButton(StageWorld(phone, 1, quantity, name, address, orderId), phone, "ORDER", orderId).0 ==
            StageWorld(phone, 2, quantity, name, address, orderId)
  {
    Record1(quantity, name, address, orderId);
    ButtonStage(phone, 1, "ORDER", quantity, name, address, orderId);
  }

  lemma Record2(quantity: nat, name: string, address: string, orderId: string)
    ensures OnButton(Stage(2, quantity, name, address), "MEN", None, orderId).effect == Keep
    ensures OnButton(Stage(2, quantity, name, address), "MEN", None, orderId).session == Stage(3, quantity, name, address)
  {
    var r := Stage(2, quantity, name, address);
    GenderRule(r, "MEN");
    assert OnButton(r, "MEN", None, orderId) == GenderButton(r, "MEN");
  }

  lemma Step2(phone: Phone, quantity: nat, name: string, address: string, orderId: string)
    ensures HandleButton(StageWorld(phone, 2, quantity, name, address, orderId), phone, "MEN", orderId).0 ==
            StageWorld(phone, 3, quantity, name, address, orderId)
  {
    Record2(quantity, name, address, orderId);
    ButtonStage(phone, 2, "MEN", quantity, name, address, orderId);
  }

  lemma Record3(quantity: nat, name: string, address: string, orderId: string)
    ensures OnButton(Stage(3, quantity, name, address), "perfumes", None, orderId).effect == Keep
    ensures OnButton(Stage(3, quantity, name, address), "perfumes", None, orderId).session == Stage(4, quantity, name, address)
  {
    var r := Stage(3, quantity, name, address);
    PickPerfumes(r, orderId);
  }

  lemma Step3(phone: Phone, quantity: nat, name: string, address: string, orderId: string)
    ensures HandleButton(StageWorld(phone, 3, quantity, name, address, orderId), phone, "perfumes", orderId).0 ==
            StageWorld(phone, 4, quantity, name, address, orderId)
  {
    Record3(quantity, name, address, orderId);
    ButtonStage(phone, 3, "perfumes", quantity, name, address, orderId);
  }

  lemma Record4(quantity: nat, name: string, address: string, orderId: string)
    ensures OnButton(Stage(4, quantity, name, address), "1", None, orderId).effect == Keep
    ensures OnButton(Stage(4, quantity, name, address), "1", None, orderId).session == Stage(5, quantity, name, address)
  {
    var r := Stage(4, quantity, name, address);
    PickCologne(r, orderId);
  }

  lemma Step4(phone: Phone, quantity: nat, name: string, address: string, orderId: string)
    ensures HandleButton(StageWorld(phone, 4, quantity, name, address, orderId), phone, "1", orderId).0 ==
            StageWorld(phone, 5, quantity, name, address, orderId)
  {
    Record4(quantity, name, address, orderId);
    ButtonStage(phone, 4, "1", quantity, name, address, orderId);
  }

  lemma Record5(quantity: nat, name: string, address: string)
    requires quantity > 0
    ensures OnText(Stage(5, quantity, name, address), NumberToString(quantity)).session == Stage(6, quantity, name, address)
  {
    var r := Stage(5, quantity, name, address);
    QuantityTyped(r, quantity);
    assert r.cart + [LineFor(Cologne, quantity)] == [LineFor(Cologne, quantity)];
  }

  lemma Record6(quantity: nat, name: string, address: string, orderId: string)
    ensures OnButton(Stage(6, quantity, name, address), "CHECKOUT", None, orderId).effect == Keep
    ensures OnButton(Stage(6, quantity, name, address), "CHECKOUT", None, orderId).session == Stage(7, quantity, name, address)
  {
    var r := Stage(6, quantity, name, address);
    CartDecisionRule(r, "CHECKOUT");
    assert OnButton(r, "CHECKOUT", None, orderId) == CartButton(r, "CHECKOUT");
  }

  lemma Step6(phone: Phone, quantity: nat, name: string, address: string, orderId: string)
    ensures HandleButton(StageWorld(phone, 6, quantity, name, address, orderId), phone, "CHECKOUT", orderId).0 ==
            StageWorld(phone, 7, quantity, name, address, orderId)
  {
    Record6(quantity, name, address, orderId);
    ButtonStage(phone, 6, "CHECKOUT", quantity, name, address, orderId);
  }

  /** Text that is no menu word is handled by the step of the current state. */
  lemma TypedText(r: Record, text: string, r': Record)
    requires Ready(r) && CommandText(text) !in MenuWords && StateText(r, text).session == r'
    ensures OnText(r, text).session == r'
  {
  }

  lemma Record7(quantity: nat, name: string, address: string)
    requires CommandText(name) !in MenuWords
    ensures OnText(Stage(7, quantity, name, address), name).session == Stage(8, quantity, name, address)
  {
    var r := Stage(7, quantity, name, address);
    assert StateText(r, name).session == Stage(8, quantity, name, address);
    TypedText(r, name, Stage(8, quantity, name, address));
  }

  lemma Record8(quantity: nat, name: string, address: string)
    requires CommandText(address) !in MenuWords
    ensures OnText(Stage(8, quantity, name, address), address).session == Stage(9, quantity, name, address)
  {
    var r := Stage(8, quantity, name, address);
    assert StateText(r, address).session == Stage(9, quantity, name, address);
    TypedText(r, address, Stage(9, quantity, name, address));
  }

  lemma Step9(phone: Phone, quantity: nat, name: string, address: string, orderId: string)
    ensures HandleButton(StageWorld(phone, 9, quantity, name, address, orderId), phone, "CONFIRM", orderId).0 == StageWorld(phone, 10, quantity, name, address, orderId)
  {
    var r := Stage(9, quantity, name, address);
    var w := World(map[phone := r], map[]);
    ConfirmRule(w, phone, "CONFIRM", orderId);
    assert w.sessions[phone := DefaultRecord()] == map[phone := DefaultRecord()];
  }

  /** Running the events from position k is delivering event k, then running the rest. */
  lemma RunStep(phone: Phone, k: nat, greeting: string, quantity: nat, name: string, address: string, orderId: string)
    requires k < 10 && WorldInv(StageWorld(phone, k, quantity, name, address, orderId))
    requires Deliver(StageWorld(phone, k, quantity, name, address, orderId), OrderEvents(phone, greeting, quantity, name, address, orderId)[k]).0 ==
             StageWorld(phone, k + 1, quantity, name, address, orderId)
    ensures WorldInv(StageWorld(phone, k + 1, quantity, name, address, orderId))
    ensures Run(StageWorld(phone, k, quantity, name, address, orderId), OrderEvents(phone, greeting, quantity, name, address, orderId)[k..]).0 ==
            Run(StageWorld(phone, k + 1, quantity, name, address, orderId), OrderEvents(phone, greeting, quantity, name, address, orderId)[k + 1..]).0
  {
    var es := OrderEvents(phone, greeting, quantity, name, address, orderId);
    assert es[k..][0] == es[k];
    assert es[k..][1..] == es[k + 1..];
  }

  /** The first five events pick the product: from nothing to ASK_QUANTITY for XYZ Cologne. */
  lemma OrderingRun(phone: Phone, greeting: string, quantity: nat, name: string, address: string, orderId: string)
    requires WorldInv(StageWorld(phone, 0, quantity, name, address, orderId))
    ensures WorldInv(StageWorld(phone, 5, quantity, name, address, orderId))
    ensures Run(StageWorld(phone, 0, quantity, name, address, orderId), OrderEvents(phone, greeting, quantity, name, address, orderId)[0..]).0 ==
            Run(StageWorld(phone, 5, quantity, name, address, orderId), OrderEvents(phone, greeting, quantity, name, address, orderId)[5..]).0
  {
    Event0(phone, greeting, quantity, name, address, orderId);
    Event1(phone, greeting, quantity, name, address, orderId);
    Event2(phone, greeting, quantity, name, address, orderId);
    Event3(phone, greeting, quantity, name, address, orderId);
    Event4(phone, greeting, quantity, name, address, orderId);
  }

  /** The quantity and CHECKOUT fill the cart and ask for the name. */
  lemma CartRun(phone: Phone, greeting: string, quantity: nat, name: string, address: string, orderId: string)
    requires quantity > 0
    requires WorldInv(StageWorld(phone, 5, quantity, name, address, orderId))
    ensures WorldInv(StageWorld(phone, 7, quantity, name, address, orderId))
    ensures Run(StageWorld(phone, 5, quantity, name, address, orderId), OrderEvents(phone, greeting, quantity, name, address, orderId)[5..]).0 ==
            Run(StageWorld(phone, 7, quantity, name, address, orderId), OrderEvents(phone, greeting, quantity, name, address, orderId)[7..]).0
  {
    Event5(phone, greeting, quantity, name, address, orderId);
    Event6(phone, greeting, quantity, name, address, orderId);
  }

  /** The name and the address are taken as typed. */
  lemma DetailsRun(phone: Phone, greeting: string, quantity: nat, name: string, address: string, orderId: string)
    requires quantity > 0 && CommandText(name) !in MenuWords && CommandText(address) !in MenuWords
    requires WorldInv(StageWorld(phone, 7, quantity, name, address, orderId))
    ensures WorldInv(StageWorld(phone, 9, quantity, name, address, orderId))
    ensures Run(StageWorld(phone, 7, quantity, name, address, orderId), OrderEvents(phone, greeting, quantity, name, address, orderId)[7..]).0 ==
            Run(StageWorld(phone, 9, quantity, name, address, orderId), OrderEvents(phone, greeting, quantity, name, address, orderId)[9..]).0
  {
    Event7(phone, greeting, quantity, name, address, orderId);
    Event8(phone, greeting, quantity, name, address, orderId);
  }

  /** CONFIRM records the order and resets the record. */
  lemma ConfirmRun(phone: Phone, greeting: string, quantity: nat, name: string, address: string, orderId: string)
    requires WorldInv(StageWorld(phone, 9, quantity, name, address, orderId))
    ensures WorldInv(StageWorld(phone, 10, quantity, name, address, orderId))
    ensures Run(StageWorld(phone, 9, quantity, name, address, orderId), OrderEvents(phone, greeting, quantity, name, address, orderId)[9..]).0 ==
            Run(StageWorld(phone, 10, quantity, name, address, orderId), OrderEvents(phone, greeting, quantity, name, address, orderId)[10..]).0
  {
    Event9(phone, greeting, quantity, name, address, orderId);
  }

  /**
   * From an empty store, the ten events of OrderEvents leave one record,
   * the reset default, and one recorded order: the typed quantity of XYZ
   * Cologne at 50 each, with the name and the address as typed, provided
   * the quantity is positive and neither the name nor the address is a menu
   * word.
   */
  lemma OrderWalkthrough(phone: Phone, greeting: string, quantity: nat, name: string, address: string, orderId: string)
    requires quantity > 0 && CommandText(name) !in MenuWords && CommandText(address) !in MenuWords
    ensures Run(World(map[], map[]), OrderEvents(phone, greeting, quantity, name, address, orderId)).0 ==
      World(map[phone := DefaultRecord()],
            map[phone := Order(orderId, Placed, [CartLine(1, "XYZ Cologne", 50, quantity)], Some(name), Some(address))])
  {
    var es := OrderEvents(phone, greeting, quantity, name, address, orderId);
    EmptyStoreReachable();
    OrderingRun(phone, greeting, quantity, name, address, orderId);
    CartRun(phone, greeting, quantity, name, address, orderId);
    DetailsRun(phone, greeting, quantity, name, address, orderId);
    ConfirmRun(phone, greeting, quantity, name, address, orderId);
    assert es[0..] == es;
    assert es[10..] == [];
  }
}
