/**
 * The handlers of server.js as methods over the module-level `sessions` and
 * `orders` objects and the session records they hold, each proved to do
 * what the transition function of LegacyMachine says.
 */
module LegacyServer {
  import opened Wrappers
  import opened JsBuiltins
  import opened Catalog
  import opened Conversation
  import opened LegacySessions
  import opened LegacyMachine

  /** `handleTextMessage(userPhone, textBody)`. */
  method HandleTextMessage(store: SessionStore, phone: Phone, text: string) returns (out: seq<Intent>)
    requires store.Valid()
    requires phone in store.sessions ==> Ready(store.sessions[phone].Data())
    modifies store, if phone in store.sessions then {store.sessions[phone]} else {}
    ensures store.Valid()
    ensures store.Snapshot() == HandleText(old(store.Snapshot()), phone, text).0
    ensures out == HandleText(old(store.Snapshot()), phone, text).1
  {
    ghost var w1 := GetSessionSpec(store.Snapshot(), phone);
    var session := store.GetSession(phone);
    assert store.Snapshot() == w1;
    out := TextOnStore(store, session, phone, text, session.Data());
  }

  /** The text step on the looked-up record, seen from the whole store. */
  method TextOnStore(store: SessionStore, session: Session, phone: Phone, text: string, ghost d: Record)
    returns (out: seq<Intent>)
    requires store.Valid() && phone in store.sessions && store.sessions[phone] == session
    requires d == session.Data() && Ready(d)
    modifies session
    ensures store.Valid()
    ensures store.Snapshot() == Apply(old(store.Snapshot()), phone, OnText(d, text))
    ensures out == OnText(d, text).out
  {
    ghost var w := store.Snapshot();
    out := TextStep(session, text, d);
    SnapshotAfterUpdate(store, phone, w);
  }

  /** The body of `handleTextMessage` after the lookup; `d` is the record's content on entry. */
  method TextStep(session: Session, text: string, ghost d: Record) returns (out: seq<Intent>)
    requires d == session.Data() && Ready(d)
    modifies session
    ensures session.Data() == OnText(d, text).session
    ensures out == OnText(d, text).out
  {
    var lowerText := CommandText(text);
    if lowerText in MenuWords {
      session.state := MainMenu;
      out := [MainMenuButtons()];
      return;
    }
    out := StateTextStep(session, text, d);
  }

  /** The state checks of `handleTextMessage` once the text is not a menu word. */
  method StateTextStep(session: Session, text: string, ghost d: Record) returns (out: seq<Intent>)
    requires d == session.Data() && Ready(d)
    modifies session
    ensures session.Data() == StateText(d, text).session
    ensures out == StateText(d, text).out
  {
    assert session.state == d.state && session.cart == d.cart;
    if session.state == AskQuantity {
      out := QuantityArm(session, text, d);
      return;
    }
    if session.state == CheckoutName {
      session.name := Some(text);
      session.state := CheckoutAddress;
      out := [Text(English, AskAddress(text))];
      return;
    }
    if session.state == CheckoutAddress {
      session.address := Some(text);
      session.state := CheckoutConfirm;
      out := [Buttons(English, OrderSummary(session.cart, text), ConfirmIds)];
      return;
    }
    out := [Text(English, UseButtons)];
  }

  /** The ASK_QUANTITY arm: a positive quantity pushes a cart line for the current product. */
  method QuantityArm(session: Session, text: string, ghost d: Record) returns (out: seq<Intent>)
    requires d == session.Data() && d.currentProduct.Some?
    modifies session
    ensures session.Data() == QuantityStep(d, text).session
    ensures out == QuantityStep(d, text).out
  {
    var qty := ParseInt(text);
    if qty.None? || qty.value <= 0 {
      out := [Text(English, InvalidQuantity)];
      return;
    }
    var product := session.currentProduct.value;
    session.cart := session.cart + [CartLine(product.id, product.name, product.price, qty.value)];
    session.currentProduct := None;
    session.state := CartDecision;
    out := [Buttons(English, Added(qty.value, session.cart[|session.cart| - 1].name), CartDecisionIds)];
  }

  /** `handleButtonReply(userPhone, buttonId, buttonTitle)`, with `orderId` the id finalizeOrder would draw. */
  method HandleButtonReply(store: SessionStore, phone: Phone, id: string, orderId: string) returns (out: seq<Intent>)
    requires store.Valid()
    requires phone in store.sessions ==> Ready(store.sessions[phone].Data())
    modifies store, if phone in store.sessions then {store.sessions[phone]} else {}
    ensures store.Valid()
    ensures store.Snapshot() == HandleButton(old(store.Snapshot()), phone, id, orderId).0
    ensures out == HandleButton(old(store.Snapshot()), phone, id, orderId).1
  {
    ghost var w1 := GetSessionSpec(store.Snapshot(), phone);
    var session := store.GetSession(phone);
    assert store.Snapshot() == w1;
    out := ButtonDispatch(store, session, phone, id, orderId, session.Data());
  }

  /** The `switch (session.state)` of `handleButtonReply`, once the record is looked up. */
  method ButtonDispatch(store: SessionStore, session: Session, phone: Phone, id: string, orderId: string,
                        ghost d: Record)
    returns (out: seq<Intent>)
    requires store.Valid() && phone in store.sessions && store.sessions[phone] == session
    requires d == session.Data() && Ready(d)
    modifies store, session
    ensures store.Valid()
    ensures var o := OnButton(d, id, OrderOf(old(store.orders), phone), orderId);
      store.Snapshot() == Apply(old(store.Snapshot()), phone, o) && out == o.out
  {
    if session.state == CheckoutConfirm {
      out := HandleConfirmButton(store, session, phone, id, orderId, d);
    } else if session.state == MainMenu {
      out := MainMenuOnStore(store, session, phone, id, d);
    } else {
      out := RecordButtonOnStore(store, session, phone, id, d);
    }
  }

  /** The MAIN_MENU arm seen from the whole store. */
  method MainMenuOnStore(store: SessionStore, session: Session, phone: Phone, id: string, ghost d: Record)
    returns (out: seq<Intent>)
    requires store.Valid() && phone in store.sessions && store.sessions[phone] == session
    requires d == session.Data()
    modifies store, session
    ensures store.Valid()
    ensures var o := MainMenuButton(d, id, OrderOf(old(store.orders), phone));
      store.Snapshot() == Apply(old(store.Snapshot()), phone, o) && out == o.out
  {
    ghost var w := store.Snapshot();
    out := HandleMainMenuButton(store, session, phone, id, d);
    SnapshotAfterUpdate(store, phone, w);
  }

  /** The record-only arms seen from the whole store. */
  method RecordButtonOnStore(store: SessionStore, session: Session, phone: Phone, id: string, ghost d: Record)
    returns (out: seq<Intent>)
    requires store.Valid() && phone in store.sessions && store.sessions[phone] == session
    requires d == session.Data() && Ready(d) && d.state != CheckoutConfirm && d.state != MainMenu
    modifies session
    ensures store.Valid()
    ensures var o := OnButton(d, id, None, "");
      store.Snapshot() == Apply(old(store.Snapshot()), phone, o) && out == o.out
  {
    ghost var w := store.Snapshot();
    out := RecordButton(session, id, d);
    SnapshotAfterUpdate(store, phone, w);
  }

  /** The arms of `handleButtonReply` that only touch the record. */
  method RecordButton(session: Session, id: string, ghost d: Record) returns (out: seq<Intent>)
    requires d == session.Data() && Ready(d) && d.state != CheckoutConfirm && d.state != MainMenu
    modifies session
    ensures session.Data() == OnButton(d, id, None, "").session
    ensures out == OnButton(d, id, None, "").out
  {
    match session.state
    case SelectGender =>
      out := HandleGenderButton(session, id, d);
    case SelectCategory =>
      out := HandleCategorySelection(session, id, d);
    case ShowProducts =>
      out := HandleProductQuickReply(session, id, d);
    case CartDecision =>
      out := HandleCartButton(session, id, d);
    case SupportMenu =>
      out := HandleSupportButton(session, id, d);
    case _ =>
      out := [Text(English, UnknownButton)];
  }

  /** The MAIN_MENU arm; STATUS goes through `checkOrderStatus`. */
  method HandleMainMenuButton(store: SessionStore, session: Session, phone: Phone, id: string, ghost d: Record)
    returns (out: seq<Intent>)
    requires store.Valid() && phone in store.sessions && store.sessions[phone] == session
    requires d == session.Data()
    modifies store, session
    ensures store.Valid() && store.sessions == old(store.sessions) && store.orders == old(store.orders)
    ensures session.Data() == MainMenuButton(d, id, OrderOf(store.orders, phone)).session
    ensures out == MainMenuButton(d, id, OrderOf(store.orders, phone)).out
  {
    if id == "ORDER" {
      session.state := SelectGender;
      out := [GenderButtons()];
    } else if id == "STATUS" {
      session.state := State.CheckOrderStatus;
      ghost var d1 := session.Data();
      out := CheckOrderStatus(store, phone);
      assert session.Data() == CheckOrderStatusStep(d1, OrderOf(store.orders, phone)).0;
    } else if id == "SUPPORT" {
      session.state := SupportMenu;
      out := [SupportButtons()];
    } else {
      out := [Text(English, UnknownMainButton)];
    }
  }

  method HandleGenderButton(session: Session, id: string, ghost d: Record) returns (out: seq<Intent>)
    requires d == session.Data()
    modifies session
    ensures session.Data() == GenderButton(d, id).session && out == GenderButton(d, id).out
  {
    if id == "MEN" || id == "WOMEN" {
      session.gender := Some(if id == "MEN" then Men else Women);
      session.state := SelectCategory;
      out := [CategoryButtons(session.gender)];
    } else {
      out := [Text(English, PickGender)];
    }
  }

  method HandleCartButton(session: Session, id: string, ghost d: Record) returns (out: seq<Intent>)
    requires d == session.Data()
    modifies session
    ensures session.Data() == CartButton(d, id).session && out == CartButton(d, id).out
  {
    if id == "CONTINUE" {
      session.state := SelectCategory;
      out := [CategoryButtons(session.gender)];
    } else if id == "CHECKOUT" {
      session.state := CheckoutName;
      out := [Text(English, AskName)];
    } else {
      out := [Text(English, PickContinueOrCheckout)];
    }
  }

  method HandleSupportButton(session: Session, id: string, ghost d: Record) returns (out: seq<Intent>)
    requires d == session.Data()
    modifies session
    ensures session.Data() == SupportButton(d, id).session && out == SupportButton(d, id).out
  {
    if id == "FAQS" {
      out := [Text(English, FaqDigest)];
      session.state := MainMenu;
      out := out + [MainMenuButtons()];
    } else if id == "LIVE_AGENT" {
      out := [Text(English, LiveAgentSoon)];
      session.state := MainMenu;
      out := out + [MainMenuButtons()];
    } else {
      out := [Text(English, UnknownSupportOption)];
    }
  }

  /** The CHECKOUT_CONFIRM arm: CONFIRM finalizes the order, CANCEL resets the record. */
  method HandleConfirmButton(store: SessionStore, session: Session, phone: Phone, id: string, orderId: string,
                             ghost d: Record)
    returns (out: seq<Intent>)
    requires store.Valid() && phone in store.sessions && store.sessions[phone] == session
    requires d == session.Data()
    modifies store, session
    ensures store.Valid()
    ensures store.Snapshot() == Apply(old(store.Snapshot()), phone, ConfirmButton(d, id, orderId))
    ensures out == ConfirmButton(d, id, orderId).out
  {
    if id == "CONFIRM" {
      out := FinalizeOrder(store, phone, orderId);
    } else if id == "CANCEL" {
      store.ResetSession(phone);
      out := [Text(English, OrderCanceled)];
    } else {
      out := [Text(English, ConfirmOrCancel)];
    }
  }

  /**
   * `handleCategorySelection(userPhone, category, session)`: the `forEach`
   * builds the listing line by line.
   */
  method HandleCategorySelection(session: Session, category: string, ghost d: Record) returns (out: seq<Intent>)
    requires d == session.Data() && d.gender.Some?
    modifies session
    ensures session.Data() == CategorySelection(d, category).session
    ensures out == CategorySelection(d, category).out
  {
    assert session.gender == d.gender;
    var c := CategoryOf(category);
    if c.None? {
      out := [Text(English, PickCategory)];
      return;
    }
    session.category := c;
    session.state := ShowProducts;
    var products := Items(session.gender, c).value;
    var textMsg := BuildListing(c.value, products);
    var firstThree := OfferedIds(products);
    out := [Text(English, ProductListing(textMsg)), Buttons(English, ProductPrompt, firstThree)];
  }

  /** The listing text of `handleCategorySelection`: the header, one line per product from the `forEach`, then the hint. */
  method BuildListing(c: Category, products: seq<Product>) returns (textMsg: string)
    ensures textMsg == ListingText(c, products)
  {
    var header := CategoryKey(c) + ":\n";
    textMsg := header;
    var i := 0;
    while i < |products|
      invariant 0 <= i <= |products|
      invariant textMsg == header + Listing(products[..i])
    {
      ListingExtend(header, products, i, textMsg);
      textMsg := textMsg + ListingLine(products[i]);
      i := i + 1;
    }
    assert products[..i] == products;
    ListingTextOf(c, products, textMsg);
    textMsg := textMsg + PickHint;
  }

  /** `handleProductQuickReply(userPhone, buttonId, session)`. */
  method HandleProductQuickReply(session: Session, buttonId: string, ghost d: Record) returns (out: seq<Intent>)
    requires d == session.Data()
    modifies session
    ensures session.Data() == ProductQuickReply(d, buttonId).session
    ensures out == ProductQuickReply(d, buttonId).out
  {
    assert session.gender == d.gender && session.category == d.category;
    var productId := ParseInt(buttonId);
    if productId.None? {
      out := [Text(English, InvalidProductId)];
      return;
    }
    var product := FindProductById(session.gender, session.category, productId.value);
    if !product.Found? {
      out := [Text(English, ProductNotFound)];
      return;
    }
    session.currentProduct := Some(product.product);
    session.state := AskQuantity;
    out := [Text(English, AskQuantityOf(product.product.name))];
  }

  /** `checkOrderStatus(userPhone)`: the order is read first, then the record looked up is put in MAIN_MENU. */
  method CheckOrderStatus(store: SessionStore, phone: Phone) returns (out: seq<Intent>)
    requires store.Valid()
    modifies store, if phone in store.sessions then {store.sessions[phone]} else {}
    ensures store.Valid() && phone in store.sessions && store.orders == old(store.orders)
    ensures phone in old(store.sessions) ==> store.sessions == old(store.sessions)
    ensures var r := CheckOrderStatusStep(GetSessionSpec(old(store.Snapshot()), phone).sessions[phone],
                                          OrderOf(old(store.orders), phone));
      store.sessions[phone].Data() == r.0 && out == r.1
  {
    var existing := if phone in store.orders then Some(store.orders[phone]) else None;
    if existing.None? {
      out := [Text(English, NoOrderFound)];
    } else {
      out := [Text(English, OrderStatus(existing.value.orderId, existing.value.status))];
    }
    var session := store.GetSession(phone);
    session.state := MainMenu;
    out := out + [MainMenuButtons()];
  }

  /** `finalizeOrder(userPhone)`, with `orderId` the value `generateOrderId()` returned. */
  method FinalizeOrder(store: SessionStore, phone: Phone, orderId: string) returns (out: seq<Intent>)
    requires store.Valid()
    modifies store, if phone in store.sessions then {store.sessions[phone]} else {}
    ensures store.Valid()
    ensures var w1 := GetSessionSpec(old(store.Snapshot()), phone);
      var o := FinalizeOrderStep(w1.sessions[phone], orderId);
      store.Snapshot() == Apply(w1, phone, o) && out == o.out
  {
    ghost var w1 := GetSessionSpec(store.Snapshot(), phone);
    var session := store.GetSession(phone);
    assert session.Data() == w1.sessions[phone];
    var order := Order(orderId, Placed, session.cart, session.name, session.address);
    store.orders := store.orders[phone := order];
    assert store.Snapshot() == w1.(orders := w1.orders[phone := order]);
    out := [Text(English, OrderPlaced(orderId))];
    store.ResetSession(phone);
  }
}
