/**
 * The handlers of src/services/chatbotService.js as methods over the
 * mutable session records and the store, each proved to do what the pure
 * transition of ChatbotMachine says.
 */
module ChatbotService {
  import opened Wrappers
  import opened JsBuiltins
  import opened Catalog
  import opened Conversation
  import opened SessionService
  import opened MenuService
  import opened SupportService
  import opened ChatbotMachine

  /**
   * `handleTextMessage(session, userPhone, textBody)`, where `session` is the
   * store's record for `phone` and `d` its content on entry.
   */
  method HandleTextMessage(store: SessionStore, session: Session, phone: Phone, text: string, ghost d: SessionData)
    returns (out: seq<Intent>)
    requires store.Valid() && phone in store.sessions && store.sessions[phone] == session
    requires d == session.Data() && Ready(d)
    modifies store, session
    ensures store.Valid() && store.sessions == old(store.sessions) && store.orders == old(store.orders)
    ensures session.Data() == OnText(d, text).session
    ensures out == OnText(d, text).out
  {
    var command := CommandOf(text);
    if command == LanguageWord {
      session.isFirstTime := true;
      session.language := None;
      session.state := Welcome;
      out := [LanguageMenu()];
    } else if session.state == Welcome {
      out := [LanguageMenu()];
    } else if command == MenuWord {
      if session.isFirstTime && session.language.None? {
        session.state := Welcome;
        out := [LanguageMenu()];
      } else {
        session.state := MainMenu;
        ghost var d1 := session.Data();
        assert d1 == d.(state := MainMenu);
        out := SendReturningWelcome(store, phone);
        assert session.Data() == ReturningWelcomeStep(d1).0;
      }
    } else if session.state in {TicketName, TicketOrderNum, TicketDesc} {
      out := HandleTicketText(session, text, command, d);
    } else {
      out := HandleOrderText(session, text, d);
    }
  }

  /** The TICKET_NAME, TICKET_ORDERNUM and TICKET_DESC arms of `handleTextMessage`. */
  method HandleTicketText(session: Session, text: string, command: Command, ghost d: SessionData)
    returns (out: seq<Intent>)
    requires d == session.Data() && d.state in {TicketName, TicketOrderNum, TicketDesc}
    modifies session
    ensures session.Data() == TicketText(d, text, command).session
    ensures out == TicketText(d, text, command).out
  {
    if session.state == TicketName {
      session.ticketName := Some(text);
      session.state := TicketOrderNum;
      out := [Text(if session.language == Some(Ar) then Arabic else English, AskOrderNumber)];
    } else if session.state == TicketOrderNum {
      if command != NoneWord {
        session.ticketOrderNum := Some(text);
      }
      session.state := TicketTopic;
      out := [TicketTopicsList(session.language)];
    } else {
      session.ticketDesc := Some(text);
      ghost var d1 := session.Data();
      assert d1 == d.(ticketDesc := Some(text));
      out := FinalizeTicket(session);
    }
  }

  /** The ASK_QUANTITY, CHECKOUT_NAME and CHECKOUT_ADDRESS arms of `handleTextMessage`, and its fallback. */
  method HandleOrderText(session: Session, text: string, ghost d: SessionData) returns (out: seq<Intent>)
    requires d == session.Data() && Ready(d)
    modifies session
    ensures session.Data() == OrderText(d, text).session
    ensures out == OrderText(d, text).out
  {
    if session.state == AskQuantity {
      out := HandleQuantity(session, text, d);
    } else if session.state == CheckoutName {
      session.name := Some(text);
      session.state := CheckoutAddress;
      out := [Text(English, AskAddress(text))];
    } else if session.state == CheckoutAddress {
      session.address := Some(text);
      session.state := CheckoutConfirm;
      out := [Buttons(English, OrderSummary(session.cart, text), ConfirmIds)];
    } else {
      out := [Text(English, UseButtons)];
    }
  }

  /** The ASK_QUANTITY arm: a positive quantity adds a cart line for the current product. */
  method HandleQuantity(session: Session, text: string, ghost d: SessionData) returns (out: seq<Intent>)
    requires d == session.Data() && d.currentProduct.Some?
    modifies session
    ensures session.Data() == QuantityStep(d, text).session
    ensures out == QuantityStep(d, text).out
  {
    var qty := ParseInt(text);
    if qty.None? || qty.value <= 0 {
      out := [Text(English, InvalidQuantity)];
      return;
    }
    var product := session.currentProduct.value;
    session.cart := session.cart + [CartLine(product.id, product.name, product.price, qty.value)];
    session.currentProduct := None;
    session.state := CartDecision;
    out := [Buttons(English, Added(qty.value, session.cart[|session.cart| - 1].name), CartDecisionIds)];
  }

  /** `checkOrderStatus(userPhone, session)`. */
  method CheckOrderStatus(store: SessionStore, session: Session, phone: Phone) returns (out: seq<Intent>)
    modifies session
    ensures var r := CheckOrderStatusStep(old(session.Data()), OrderOf(store.orders, phone));
      session.Data() == r.0 && out == r.1
  {
    if phone !in store.orders {
      out := [Text(ReplyScript(session.language), NoOrderFound)];
      session.state := MainMenu;
    } else {
      var existing := store.orders[phone];
      out := [Text(ReplyScript(session.language), OrderStatus(existing.orderId, existing.status))];
      session.state := MainMenu;
    }
  }

  /** `finalizeOrder(userPhone, session)`, with `orderId` the value `generateOrderId()` returned. */
  method FinalizeOrder(store: SessionStore, session: Session, phone: Phone, orderId: string)
    returns (out: seq<Intent>)
    requires store.Valid()
    modifies store
    ensures store.Valid() && phone in store.sessions && fresh(store.sessions[phone])
    ensures store.sessions == old(store.sessions)[phone := store.sessions[phone]]
    ensures store.Snapshot() == Apply(old(store.Snapshot()), phone, FinalizeOrderStep(session.Data(), orderId))
    ensures out == FinalizeOrderStep(session.Data(), orderId).out
  {
    ghost var w := old(store.Snapshot());
    var order := Order(orderId, Placed, session.cart, session.name, session.address);
    store.orders := store.orders[phone := order];
    assert store.Snapshot() == w.(orders := w.orders[phone := order]);
    out := [Text(ReplyScript(session.language), OrderPlaced(orderId))];
    store.ResetSession(phone);
  }

  /** `handleButtonReply(session, userPhone, buttonId)`. */
  method HandleButtonReply(store: SessionStore, session: Session, phone: Phone, id: string, orderId: string,
                           ghost d: SessionData)
    returns (out: seq<Intent>)
    requires store.Valid() && phone in store.sessions && store.sessions[phone] == session
    requires d == session.Data()
    modifies store, session
    ensures store.Valid() && phone in store.sessions
    ensures var r := OnButton(d, id, OrderOf(old(store.orders), phone), orderId);
      out == r.out &&
      (r.effect.Keep? ==> store.sessions == old(store.sessions) && store.orders == old(store.orders)
                          && session.Data() == r.session) &&
      (!r.effect.Keep? ==> fresh(store.sessions[phone])
                           && store.sessions == old(store.sessions)[phone := store.sessions[phone]]
                           && store.Snapshot() == Apply(old(store.Snapshot()), phone, r))
  {
    if session.state == Welcome {
      out := HandleWelcomeButton(store, session, phone, id, d);
      return;
    }
    match session.state
    case MainMenu =>
      out := HandleMainMenuButton(store, session, phone, id);
    case SupportMenu =>
      out := HandleSupportButton(store, session, phone, id);
    case SelectGender =>
      out := HandleGenderButton(session, id);
    case ShowProducts =>
      out := [Text(English, YouSelected(id))];
    case CartDecision =>
      out := HandleCartButton(session, id);
    case CheckoutConfirm =>
      out := HandleConfirmButton(store, session, phone, id, orderId);
    case _ =>
      out := [];
  }

  /** The WELCOME arm of `handleButtonReply`. */
  method HandleWelcomeButton(store: SessionStore, session: Session, phone: Phone, id: string, ghost d: SessionData)
    returns (out: seq<Intent>)
    requires store.Valid() && phone in store.sessions && store.sessions[phone] == session
    requires d == session.Data()
    modifies store, session
    ensures store.Valid() && store.sessions == old(store.sessions) && store.orders == old(store.orders)
    ensures session.Data() == WelcomeButton(d, id).session
    ensures out == WelcomeButton(d, id).out
  {
    if id == "LANG_EN" || id == "LANG_AR" {
      var lang := if id == "LANG_EN" then En else Ar;
      out := ChooseLanguage(store, session, phone, lang, d);
    } else {
      out := [Text(English, SelectLanguage)];
    }
  }

  /** A LANG_EN or LANG_AR button at WELCOME: the language is stored and the main menu follows the greeting. */
  method ChooseLanguage(store: SessionStore, session: Session, phone: Phone, lang: Lang, ghost d: SessionData)
    returns (out: seq<Intent>)
    requires store.Valid() && phone in store.sessions && store.sessions[phone] == session
    requires d == session.Data()
    modifies store, session
    ensures store.Valid() && store.sessions == old(store.sessions) && store.orders == old(store.orders)
    ensures session.Data() == LanguageChosen(d, lang).session
    ensures out == LanguageChosen(d, lang).out
  {
    session.language := Some(lang);
    session.isFirstTime := false;
    session.state := MainMenu;
    ghost var d1 := session.Data();
    assert d1 == d.(language := Some(lang), isFirstTime := false, state := MainMenu);
    var script := if lang == Ar then Arabic else English;
    out := [Text(script, Greeting), Text(script, FirstOrderInvite)];
    var menu := SendMainMenu(store, phone);
    assert session.Data() == MainMenuStep(d1).0;
    out := out + menu;
  }

  /** The MAIN_MENU arm of `handleButtonReply`. */
  method HandleMainMenuButton(store: SessionStore, session: Session, phone: Phone, id: string)
    returns (out: seq<Intent>)
    modifies session
    ensures session.Data() == MainMenuButton(old(session.Data()), id, OrderOf(store.orders, phone)).session
    ensures out == MainMenuButton(old(session.Data()), id, OrderOf(store.orders, phone)).out
  {
    if id == "ORDER" {
      session.state := SelectGender;
      out := [GenderMenu(session.language)];
    } else if id == "STATUS" {
      session.state := State.CheckOrderStatus;
      out := CheckOrderStatus(store, session, phone);
    } else if id == "SUPPORT" {
      session.state := SupportMenu;
      out := [SupportMainMenu(session.language)];
    } else {
      out := [Text(English, UnknownMainButton)];
    }
  }

  /** The SUPPORT_MENU arm of `handleButtonReply`. */
  method HandleSupportButton(store: SessionStore, session: Session, phone: Phone, id: string)
    returns (out: seq<Intent>)
    requires store.Valid() && phone in store.sessions && store.sessions[phone] == session
    modifies store, session
    ensures store.Valid() && store.sessions == old(store.sessions) && store.orders == old(store.orders)
    ensures session.Data() == SupportButton(old(session.Data()), id).session
    ensures out == SupportButton(old(session.Data()), id).out
  {
    if id == "FAQS" {
      session.state := FaqList;
      out := [FaqListMenu(session.language)];
    } else if id == "SUBMIT_TICKET" {
      session.state := TicketName;
      out := [Text(ReplyScript(session.language), AskFullName)];
    } else if id == "LIVE_AGENT" {
      out := [Text(ReplyScript(session.language), LiveAgentSoon)];
      session.state := MainMenu;
      var menu := SendMainMenu(store, phone);
      out := out + menu;
    } else {
      out := [Text(English, UnknownSupportOption)];
    }
  }

  /** The SELECT_GENDER arm of `handleButtonReply`. */
  method HandleGenderButton(session: Session, id: string) returns (out: seq<Intent>)
    modifies session
    ensures session.Data() == GenderButton(old(session.Data()), id).session
    ensures out == GenderButton(old(session.Data()), id).out
  {
    if id == "MEN" || id == "WOMEN" {
      session.gender := Some(if id == "MEN" then Men else Women);
      session.state := SelectCategory;
      out := [CategoryMenu(session.Data())];
    } else {
      out := [Text(English, PickGender)];
    }
  }

  /** The CART_DECISION arm of `handleButtonReply`. */
  method HandleCartButton(session: Session, id: string) returns (out: seq<Intent>)
    modifies session
    ensures session.Data() == CartButton(old(session.Data()), id).session
    ensures out == CartButton(old(session.Data()), id).out
  {
    if id == "CONTINUE" {
      session.state := SelectCategory;
      out := [CategoryMenu(session.Data())];
    } else if id == "CHECKOUT" {
      session.state := CheckoutName;
      out := [Text(English, AskName)];
    } else {
      out := [Text(English, PickContinueOrCheckout)];
    }
  }

  /** The CHECKOUT_CONFIRM arm of `handleButtonReply`. */
  method HandleConfirmButton(store: SessionStore, session: Session, phone: Phone, id: string, orderId: string)
    returns (out: seq<Intent>)
    requires store.Valid() && phone in store.sessions && store.sessions[phone] == session
    modifies store
    ensures store.Valid() && phone in store.sessions
    ensures var r := ConfirmButton(session.Data(), id, orderId);
      out == r.out &&
      (r.effect.Keep? ==> store.sessions == old(store.sessions) && store.orders == old(store.orders)) &&
      (!r.effect.Keep? ==> fresh(store.sessions[phone])
                           && store.sessions == old(store.sessions)[phone := store.sessions[phone]]
                           && store.Snapshot() == Apply(old(store.Snapshot()), phone, r))
  {
    if id == "CONFIRM" {
      out := FinalizeOrder(store, session, phone, orderId);
    } else if id == "CANCEL" {
      store.ResetSession(phone);
      out := [Text(English, OrderCanceled)];
    } else {
      out := [Text(English, ConfirmOrCancel)];
    }
  }

  /** `handleListReply(session, userPhone, listId)`. */
  method HandleListReply(store: SessionStore, session: Session, phone: Phone, id: string, ghost d: SessionData)
    returns (out: seq<Intent>)
    requires store.Valid() && phone in store.sessions && store.sessions[phone] == session
    requires d == session.Data()
    modifies store, session
    ensures store.Valid() && store.sessions == old(store.sessions) && store.orders == old(store.orders)
    ensures session.Data() == OnList(d, id).session
    ensures out == OnList(d, id).out
  {
    if session.state == FaqList {
      out := HandleFaqChoice(store, session, phone, id, d);
    } else if session.state == TicketTopic {
      session.ticketTopic := Some(id);
      session.state := TicketDesc;
      out := [Text(ReplyScript(session.language), AskDescription)];
    } else {
      out := [Text(English, UnknownListChoice)];
    }
  }

  /** The FAQ_LIST arm of `handleListReply`: the answer, then the main menu. */
  method HandleFaqChoice(store: SessionStore, session: Session, phone: Phone, id: string, ghost d: SessionData)
    returns (out: seq<Intent>)
    requires store.Valid() && phone in store.sessions && store.sessions[phone] == session
    requires d == session.Data() && d.state == FaqList
    modifies store, session
    ensures store.Valid() && store.sessions == old(store.sessions) && store.orders == old(store.orders)
    ensures session.Data() == OnList(d, id).session
    ensures out == OnList(d, id).out
  {
    var text := Faq.GetFaqContent(id, session.language);
    out := [Text(ReplyScript(session.language), FaqAnswer(text))];
    session.state := MainMenu;
    var menu := SendMainMenu(store, phone);
    out := out + menu;
  }

  /** `handleIncomingMessage(msg)`: the whole store afterwards is what Deliver computes. */
  method HandleIncomingMessage(store: SessionStore, msg: Inbound, orderId: string) returns (out: seq<Intent>)
    requires store.Valid()
    requires msg.from in store.sessions ==> Ready(store.sessions[msg.from].Data())
    modifies store, if msg.from in store.sessions then {store.sessions[msg.from]} else {}
    ensures store.Valid()
    ensures store.Snapshot() == Deliver(old(store.Snapshot()), msg, orderId).0
    ensures out == Deliver(old(store.Snapshot()), msg, orderId).1
  {
    var session := store.GetSession(msg.from);
    out := Dispatch(store, session, msg.from, msg.body, orderId);
  }

  /** The type switch of `handleIncomingMessage`, on the session `getSession` returned. */
  method Dispatch(store: SessionStore, session: Session, phone: Phone, body: Body, orderId: string)
    returns (out: seq<Intent>)
    requires store.Valid() && phone in store.sessions && store.sessions[phone] == session
    requires Ready(session.Data())
    modifies store, session
    ensures store.Valid()
    ensures store.Snapshot() == Step(old(store.Snapshot()), phone, body, orderId).0
    ensures out == Step(old(store.Snapshot()), phone, body, orderId).1
  {
    match body
    case TextBody(text) =>
      out := DispatchText(store, session, phone, text);
    case ButtonReply(id) =>
      out := DispatchButton(store, session, phone, id, orderId);
    case ListReply(id) =>
      out := DispatchList(store, session, phone, id);
    case OtherInteractive =>
      out := [];
    case Unsupported =>
      out := [];
  }

  /** The text arm of the dispatch, on the whole store. */
  method DispatchText(store: SessionStore, session: Session, phone: Phone, text: string)
    returns (out: seq<Intent>)
    requires store.Valid() && phone in store.sessions && store.sessions[phone] == session
    requires Ready(session.Data())
    modifies store, session
    ensures store.Valid()
    ensures store.Snapshot() == Apply(old(store.Snapshot()), phone, OnText(old(session.Data()), text))
    ensures out == OnText(old(session.Data()), text).out
  {
    ghost var before := store.Snapshot();
    out := HandleTextMessage(store, session, phone, text, session.Data());
    SnapshotAfterUpdate(store, phone, before);
  }

  /** The button arm of the dispatch, on the whole store. */
  method DispatchButton(store: SessionStore, session: Session, phone: Phone, id: string, orderId: string)
    returns (out: seq<Intent>)
    requires store.Valid() && phone in store.sessions && store.sessions[phone] == session
    modifies store, session
    ensures store.Valid()
    ensures var r := OnButton(old(session.Data()), id, OrderOf(old(store.orders), phone), orderId);
      store.Snapshot() == Apply(old(store.Snapshot()), phone, r) && out == r.out
  {
    ghost var before := store.Snapshot();
    ghost var r := OnButton(session.Data(), id, OrderOf(store.orders, phone), orderId);
    out := HandleButtonReply(store, session, phone, id, orderId, session.Data());
    if r.effect.Keep? {
      SnapshotAfterUpdate(store, phone, before);
    }
  }

  /** The list arm of the dispatch, on the whole store. */
  method DispatchList(store: SessionStore, session: Session, phone: Phone, id: string)
    returns (out: seq<Intent>)
    requires store.Valid() && phone in store.sessions && store.sessions[phone] == session
    modifies store, session
    ensures store.Valid()
    ensures store.Snapshot() == Apply(old(store.Snapshot()), phone, OnList(old(session.Data()), id))
    ensures out == OnList(old(session.Data()), id).out
  {
    ghost var before := store.Snapshot();
    out := HandleListReply(store, session, phone, id, session.Data());
    SnapshotAfterUpdate(store, phone, before);
  }
}
