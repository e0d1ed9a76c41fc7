/**
 * What the newer conversation machine (src/services/chatbotService.js)
 * guarantees: the global text commands, the per-state rules, two end-to-end
 * scenarios, and an invariant that every session keeps over any run.
 */
module ChatbotProperties {
  import opened Wrappers
  import opened JsBuiltins
  import opened Catalog
  import opened Conversation
  import opened SessionService
  import opened MenuService
  import opened SupportService
  import opened ChatbotMachine
  import Faq

  // ---------------------------------------------------------------------
  // Global text commands
  // ---------------------------------------------------------------------

  /** The command comparison ignores surrounding white space and the case of ASCII letters. */
  lemma CommandOfPadded(ws1: string, word: string, ws2: string)
    requires AllSpaces(ws1) && AllSpaces(ws2)
    requires word != [] && !IsSpace(word[0]) && !IsSpace(word[|word| - 1])
    ensures CommandText(ws1 + word + ws2) == ToLowerCase(word)
  {
    TrimPadded(ws1, word, ws2);
  }

  /** Text that neither of the global commands intercepts. */
  predicate NotACommand(text: string) {
    CommandOf(text) == NoneWord || CommandOf(text) == OtherText
  }

  /** CommandOf tells the words apart exactly as the handler's comparisons do. */
  lemma CommandMeaning(text: string)
    ensures CommandOf(text) == LanguageWord <==> IsLanguageCommand(CommandText(text))
    ensures CommandOf(text) == MenuWord <==> CommandText(text) in MenuWords
    ensures CommandOf(text) == NoneWord <==> CommandText(text) == "none"
  {
    assert !IsLanguageCommand("none") && "none" !in MenuWords;
    assert forall w :: w in MenuWords ==> !IsLanguageCommand(w);
  }

  /** A word with no surrounding white space and no upper-case letter is its own command text. */
  lemma CommandOfPlainWord(word: string)
    requires word != [] && !IsSpace(word[0]) && !IsSpace(word[|word| - 1])
    requires forall i :: 0 <= i < |word| ==> !('A' <= word[i] <= 'Z')
    ensures CommandText(word) == word
  {
    assert "" + word + "" == word;
    TrimPadded("", word, "");
  }

  lemma TextZero()
    ensures CommandText("0") == "0"
  {
    CommandOfPlainWord("0");
  }

  lemma CommandZero()
    ensures CommandOf("0") == OtherText
  {
    TextZero();
  }

  lemma TextMinusFive()
    ensures CommandText("-5") == "-5"
  {
    CommandOfPlainWord("-5");
  }

  lemma CommandMinusFive()
    ensures CommandOf("-5") == OtherText
  {
    TextMinusFive();
  }

  lemma TextAbc()
    ensures CommandText("abc") == "abc"
  {
    CommandOfPlainWord("abc");
  }

  lemma CommandAbc()
    ensures CommandOf("abc") == OtherText
  {
    TextAbc();
  }

  lemma TextThree()
    ensures CommandText("3") == "3"
  {
    CommandOfPlainWord("3");
  }

  lemma CommandThree()
    ensures CommandOf("3") == OtherText
  {
    TextThree();
  }

  /** Surrounding white space and capitals do not hide a command. */
  lemma TrimPaddedLanguage()
    ensures Trim(" Language\n") == "Language"
  {
    assert " Language\n" == " " + "Language" + "\n";
    TrimPadded(" ", "Language", "\n");
  }

  lemma LowerLanguage()
    ensures ToLowerCase("Language") == "language"
  {
  }

  lemma TextPaddedLanguage()
    ensures CommandText(" Language\n") == "language"
  {
    TrimPaddedLanguage();
    LowerLanguage();
  }

  lemma CommandPaddedLanguage()
    ensures CommandOf(" Language\n") == LanguageWord
  {
    TextPaddedLanguage();
  }

  lemma TrimPaddedNone()
    ensures Trim(" NONE ") == "NONE"
  {
    assert " NONE " == " " + "NONE" + " ";
    TrimPadded(" ", "NONE", " ");
  }

  lemma LowerNone()
    ensures ToLowerCase("NONE") == "none"
  {
  }

  lemma TextPaddedNone()
    ensures CommandText(" NONE ") == "none"
  {
    TrimPaddedNone();
    LowerNone();
  }

  lemma CommandPaddedNone()
    ensures CommandOf(" NONE ") == NoneWord
  {
    TextPaddedNone();
  }

  /** "language" or "لغة" restarts the language choice, from any state. */
  lemma LanguageCommandResets(s: SessionData, text: string)
    requires Ready(s) && CommandOf(text) == LanguageWord
    ensures OnText(s, text) == Outcome(s.(isFirstTime := true, language := None, state := Welcome),
                                       [LanguageMenu()], Keep)
  {
  }

  /** " Language\n" is the language command. */
  lemma LanguageCommandPadded(s: SessionData)
    requires Ready(s)
    ensures OnText(s, " Language\n").session == s.(isFirstTime := true, language := None, state := Welcome)
  {
    CommandPaddedLanguage();
    LanguageCommandResets(s, " Language\n");
  }

  /** In WELCOME every other text, "menu" included, only re-sends the language menu. */
  lemma WelcomeIgnoresText(s: SessionData, text: string)
    requires s.state == Welcome && CommandOf(text) != LanguageWord
    ensures OnText(s, text) == Outcome(s, [LanguageMenu()], Keep)
  {
  }

  /** A menu word outside WELCOME goes to WELCOME before a language is chosen, otherwise to MAIN_MENU. */
  lemma MenuWordRoutes(s: SessionData, text: string)
    requires Ready(s) && s.state != Welcome && CommandOf(text) == MenuWord
    ensures var r := OnText(s, text);
      var target := if s.isFirstTime && s.language.None? then Welcome else MainMenu;
      && r.session == s.(state := target)
      && (target == Welcome ==> r.out == [LanguageMenu()])
      && (target == MainMenu ==>
            r.out == [Text(ReplyScript(s.language), WelcomeBack), MainMenuButtons(s.language)])
  {
  }

  /** Sending a menu word twice in a row lands where sending it once did. */
  lemma MenuTwice(s: SessionData, t1: string, t2: string)
    requires Ready(s) && CommandOf(t1) == MenuWord && CommandOf(t2) == MenuWord
    ensures var s1 := OnText(s, t1).session;
      (s1.state == Welcome || s1.state == MainMenu) && OnText(s1, t2).session == s1
  {
    var s1 := OnText(s, t1).session;
    if s.state == Welcome {
      WelcomeIgnoresText(s, t1);
      WelcomeIgnoresText(s1, t2);
    } else {
      MenuWordRoutes(s, t1);
      if s1.state == Welcome {
        WelcomeIgnoresText(s1, t2);
      } else {
        MenuWordRoutes(s1, t2);
      }
    }
  }

  // ---------------------------------------------------------------------
  // Per-state rules
  // ---------------------------------------------------------------------

  /** In WELCOME only LANG_EN and LANG_AR do anything: they set the language and go to MAIN_MENU. */
  lemma WelcomeButtons(s: SessionData, id: string, existing: Option<Order>, orderId: string)
    requires s.state == Welcome
    ensures var r := OnButton(s, id, existing, orderId);
      && r.effect == Keep
      && (id == "LANG_EN" || id == "LANG_AR" ==>
            var lang := if id == "LANG_EN" then En else Ar;
            var script := if id == "LANG_EN" then English else Arabic;
            && r.session == s.(language := Some(lang), isFirstTime := false, state := MainMenu)
            && r.out == [Text(script, Greeting), Text(script, FirstOrderInvite), MainMenuButtons(Some(lang))])
      && (id != "LANG_EN" && id != "LANG_AR" ==> r.session == s && r.out == [Text(English, SelectLanguage)])
  {
  }

  /** At TICKET_ORDERNUM, "none" keeps whatever `ticketOrderNum` held; other text is stored as typed. */
  lemma TicketOrderNumberStep(s: SessionData, text: string)
    requires s.state == TicketOrderNum
    requires NotACommand(text)
    ensures var r := OnText(s, text);
      && r.session == s.(ticketOrderNum := if CommandOf(text) == NoneWord then s.ticketOrderNum else Some(text),
                         state := TicketTopic)
      && r.out == [TicketTopicsList(s.language)]
  {
  }

  /** " NONE " counts as "none". */
  lemma NoneAnyCase(s: SessionData)
    requires s.state == TicketOrderNum
    ensures OnText(s, " NONE ").session == s.(state := TicketTopic)
  {
    CommandPaddedNone();
    TicketOrderNumberStep(s, " NONE ");
  }

  /** At TICKET_NAME any text that is not a global command is stored as the name, and the order number is asked for. */
  lemma TicketNameStep(s: SessionData, text: string)
    requires s.state == TicketName
    requires NotACommand(text)
    ensures var r := OnText(s, text);
      && r.session == s.(ticketName := Some(text), state := TicketOrderNum)
      && r.out == [Text(ReplyScript(s.language), AskOrderNumber)]
      && r.effect == Keep
  {
    OnTextFlow(s, text);
  }

  /** CHECKOUT_NAME stores the text as the name; CHECKOUT_ADDRESS stores it as the address and shows the summary. */
  lemma CheckoutTextRule(s: SessionData, text: string)
    requires s.state == CheckoutName || s.state == CheckoutAddress
    requires NotACommand(text)
    ensures var r := OnText(s, text);
      && r.effect == Keep
      && (s.state == CheckoutName ==>
            r.session == s.(name := Some(text), state := CheckoutAddress)
            && r.out == [Text(English, AskAddress(text))])
      && (s.state == CheckoutAddress ==>
            r.session == s.(address := Some(text), state := CheckoutConfirm)
            && r.out == [Buttons(English, OrderSummary(s.cart, text), ConfirmIds)])
  {
    OnTextFlow(s, text);
  }

  /**
   * In MAIN_MENU, ORDER asks for the gender, STATUS reports and comes back to
   * MAIN_MENU, SUPPORT opens the support menu; any id outside the main menu's
   * buttons leaves the session as it was.
   */
  lemma MainMenuButtonRule(s: SessionData, id: string, existing: Option<Order>, orderId: string)
    requires s.state == MainMenu
    ensures var r := OnButton(s, id, existing, orderId);
      && r.effect == Keep
      && (id == "ORDER" ==> r.session == s.(state := SelectGender) && r.out == [GenderMenu(s.language)])
      && (id == "STATUS" ==> r.session == s)
      && (id == "SUPPORT" ==> r.session == s.(state := SupportMenu) && r.out == [SupportMainMenu(s.language)])
      && (id !in MainMenuIds ==> r.session == s && r.out == [Text(English, UnknownMainButton)])
  {
  }

  /**
   * The support menu's buttons are exactly the ids the SUPPORT_MENU arm acts
   * on: FAQS lists the FAQ rows, SUBMIT_TICKET starts a ticket, LIVE_AGENT
   * goes through `sendMainMenu`; every other id changes nothing.
   */
  lemma SupportButtonRule(s: SessionData, id: string, existing: Option<Order>, orderId: string)
    requires s.state == SupportMenu
    ensures var r := OnButton(s, id, existing, orderId);
      && r.effect == Keep
      && (id in SupportIds <==> r.session.state != SupportMenu)
      && (id == "FAQS" ==> r.session == s.(state := FaqList) && r.out == [FaqListMenu(s.language)])
      && (id == "SUBMIT_TICKET" ==>
            r.session == s.(state := TicketName) && r.out == [Text(ReplyScript(s.language), AskFullName)])
      && (id == "LIVE_AGENT" ==>
            r.session == MainMenuStep(s.(state := MainMenu)).0
            && r.out == [Text(ReplyScript(s.language), LiveAgentSoon)] + MainMenuStep(s.(state := MainMenu)).1)
      && (id !in SupportIds ==> r.session == s && r.out == [Text(English, UnknownSupportOption)])
  {
  }

  /** MEN or WOMEN at SELECT_GENDER stores that gender and offers the categories; other ids change nothing. */
  lemma GenderButtonRule(s: SessionData, id: string, existing: Option<Order>, orderId: string)
    requires s.state == SelectGender
    ensures var r := OnButton(s, id, existing, orderId);
      && r.effect == Keep
      && (id == "MEN" ==> r.session == s.(gender := Some(Men), state := SelectCategory))
      && (id == "WOMEN" ==> r.session == s.(gender := Some(Women), state := SelectCategory))
      && (id == "MEN" || id == "WOMEN" ==> r.out == [CategoryMenu(r.session)])
      && (id != "MEN" && id != "WOMEN" ==> r.session == s && r.out == [Text(English, PickGender)])
  {
  }

  /** CONTINUE goes back to the categories with cart and gender kept; CHECKOUT asks for the name; other ids change nothing. */
  lemma CartButtonRule(s: SessionData, id: string, existing: Option<Order>, orderId: string)
    requires s.state == CartDecision
    ensures var r := OnButton(s, id, existing, orderId);
      && r.effect == Keep
      && (id == "CONTINUE" ==> r.session == s.(state := SelectCategory) && r.out == [CategoryMenu(r.session)])
      && (id == "CHECKOUT" ==> r.session == s.(state := CheckoutName) && r.out == [Text(English, AskName)])
      && (id !in CartDecisionIds ==> r.session == s && r.out == [Text(English, PickContinueOrCheckout)])
  {
  }

  /**
   * A list reply at TICKET_TOPIC stores the id as it came and asks for the
   * description; at FAQ_LIST it answers and returns to MAIN_MENU, except for
   * a first-time session without a language, which `sendMainMenu` sends back
   * to WELCOME; elsewhere the session is untouched.
   */
  lemma ListReplies(s: SessionData, id: string)
    ensures var r := OnList(s, id);
      && r.effect == Keep
      && (s.state == TicketTopic ==> r.session == s.(ticketTopic := Some(id), state := TicketDesc))
      && (s.state == FaqList && !(s.isFirstTime && s.language.None?) ==>
            && r.session == s.(state := MainMenu)
            && r.out == [Text(ReplyScript(s.language), FaqAnswer(Faq.GetFaqContent(id, s.language))),
                         MainMenuButtons(s.language)])
      && (s.state == FaqList && s.isFirstTime && s.language.None? ==>
            && r.session == s.(state := Welcome)
            && r.out == [Text(English, FaqAnswer(Faq.GetFaqContent(id, None))), LanguageMenu()])
      && (s.state != TicketTopic && s.state != FaqList ==>
            r.session == s && r.out == [Text(English, UnknownListChoice)])
  {
  }

  /** At ASK_QUANTITY a valid quantity adds exactly one line from `currentProduct`; anything else changes nothing. */
  lemma QuantityStepRule(s: SessionData, text: string)
    requires s.state == AskQuantity && s.currentProduct.Some?
    requires NotACommand(text)
    ensures var r := OnText(s, text);
      var p := s.currentProduct.value;
      && (ParseInt(text).None? || ParseInt(text).value <= 0 ==>
            r.session == s && r.out == [Text(English, InvalidQuantity)])
      && (ParseInt(text).Some? && ParseInt(text).value > 0 ==>
            r.session == s.(cart := s.cart + [CartLine(p.id, p.name, p.price, ParseInt(text).value as nat)],
                            currentProduct := None, state := CartDecision))
  {
    OnTextFlow(s, text);
    assert FlowText(s, text, CommandOf(text)) == QuantityStep(s, text);
  }

  /** "0" at ASK_QUANTITY is refused. */
  lemma QuantityZeroRefused(s: SessionData)
    requires s.state == AskQuantity && s.currentProduct.Some?
    ensures OnText(s, "0").session == s
  {
    CommandZero();
    QuantityZero();
    QuantityStepRule(s, "0");
  }

  /** "-5" at ASK_QUANTITY is refused. */
  lemma QuantityNegativeRefused(s: SessionData)
    requires s.state == AskQuantity && s.currentProduct.Some?
    ensures OnText(s, "-5").session == s
  {
    CommandMinusFive();
    QuantityNegative();
    QuantityStepRule(s, "-5");
  }

  /** "abc" at ASK_QUANTITY is refused. */
  lemma QuantityWordRefused(s: SessionData)
    requires s.state == AskQuantity && s.currentProduct.Some?
    ensures OnText(s, "abc").session == s
  {
    CommandAbc();
    QuantityNotANumber();
    QuantityStepRule(s, "abc");
  }

  /** "3" at ASK_QUANTITY appends one line of quantity 3 and moves to CART_DECISION. */
  lemma QuantityThreeAccepted(s: SessionData)
    requires s.state == AskQuantity && s.currentProduct.Some?
    ensures var s' := OnText(s, "3").session;
      s'.cart == s.cart + [LineFor(s.currentProduct.value, 3)] && s'.state == CartDecision
      && s'.currentProduct.None?
  {
    CommandThree();
    QuantityThree();
    QuantityStepRule(s, "3");
  }

  /**
   * CONFIRM at CHECKOUT_CONFIRM records a "Placed" order for the phone,
   * replacing any earlier one, and resets the session; CANCEL resets without
   * recording; any other button leaves the store as it was.
   */
  lemma ConfirmEffects(w: World, phone: Phone, id: string, orderId: string)
    requires phone in w.sessions && w.sessions[phone].state == CheckoutConfirm
    ensures var s := w.sessions[phone];
      var w' := Step(w, phone, ButtonReply(id), orderId).0;
      && (id == "CONFIRM" ==>
            && w'.orders == w.orders[phone := Order(orderId, Placed, s.cart, s.name, s.address)]
            && w'.sessions == w.sessions[phone := CreateNewSession(false)])
      && (id == "CANCEL" ==>
            w'.orders == w.orders && w'.sessions == w.sessions[phone := CreateNewSession(false)])
      && (id != "CONFIRM" && id != "CANCEL" ==> w' == w)
  {
  }

  // ---------------------------------------------------------------------
  // Scenarios
  // ---------------------------------------------------------------------

  /**
   * A new user's first text, whatever it says other than the language
   * command, creates the session in WELCOME and gets the language menu.
   */
  lemma FirstText(phone: Phone, text: string, orderId: string)
    requires CommandOf(text) != LanguageWord
    ensures Deliver(World(map[], map[]), Inbound(phone, TextBody(text)), orderId) ==
      (World(map[phone := CreateNewSession(true)], map[]), [LanguageMenu()])
  {
    var s0 := CreateNewSession(true);
    var w1 := World(map[phone := s0], map[]);
    WelcomeIgnoresText(s0, text);
    assert GetSessionSpec(World(map[], map[]), phone) == w1;
    assert w1.sessions[phone := s0] == w1.sessions;
  }

  /** LANG_EN on the new session sets English and shows the greeting and the main menu. */
  lemma FirstLanguage(phone: Phone, orderId: string)
    ensures var (w2, out2) := Deliver(World(map[phone := CreateNewSession(true)], map[]), Inbound(phone, ButtonReply("LANG_EN")), orderId);
      && out2 == [Text(English, Greeting), Text(English, FirstOrderInvite), MainMenuButtons(Some(En))]
      && w2.sessions[phone].state == MainMenu && w2.sessions[phone].language == Some(En)
  {
    var s0 := CreateNewSession(true);
    var w1 := World(map[phone := s0], map[]);
    assert GetSessionSpec(w1, phone) == w1;
    assert OrderOf(w1.orders, phone) == None;
    WelcomeButtons(s0, "LANG_EN", None, orderId);
  }

  /** STATUS without an order reports that none was found and leaves the user in MAIN_MENU. */
  lemma StatusWithoutOrder(w: World, phone: Phone, orderId: string)
    requires phone in w.sessions && w.sessions[phone].state == MainMenu && phone !in w.orders
    ensures var (w', out) := Step(w, phone, ButtonReply("STATUS"), orderId);
      w' == w && out == [Text(ReplyScript(w.sessions[phone].language), NoOrderFound)]
  {
  }

  /**
   * A ticket abandoned with a menu word after its order number was given
   * leaves that number behind: a later ticket answered with "none" carries
   * it to TICKET_TOPIC again, and FinishTicket then logs it.
   */
  lemma StaleTicketOrderNumber(s: SessionData, menu: string, name: string, none: string)
    requires Inv(s) && s.state == TicketTopic
    requires CommandOf(menu) == MenuWord && CommandOf(none) == NoneWord
    requires NotACommand(name)
    ensures var s1 := OnText(s, menu).session;
      var s3 := OnButton(OnButton(s1, "SUPPORT", None, "").session, "SUBMIT_TICKET", None, "").session;
      s3.state == TicketName &&
      var s4 := OnText(s3, name).session;
      s4.state == TicketOrderNum &&
      OnText(s4, none).session == s.(ticketName := Some(name))
  {
    MenuWordRoutes(s, menu);
    var s1 := OnText(s, menu).session;
    var s3 := ReopenTicket(s1);
    OnTextFlow(s3, name);
    var s4 := OnText(s3, name).session;
    assert s4 == s3.(ticketName := Some(name), state := TicketOrderNum);
    TicketOrderNumberStep(s4, none);
  }

  /** SUPPORT then SUBMIT_TICKET from MAIN_MENU starts a ticket without clearing the ticket fields. */
  lemma ReopenTicket(s1: SessionData) returns (s3: SessionData)
    requires s1.state == MainMenu
    ensures s3 == OnButton(OnButton(s1, "SUPPORT", None, "").session, "SUBMIT_TICKET", None, "").session
    ensures s3 == s1.(state := TicketName)
  {
    var s2 := OnButton(s1, "SUPPORT", None, "").session;
    assert s2 == s1.(state := SupportMenu);
    s3 := OnButton(s2, "SUBMIT_TICKET", None, "").session;
  }

  /** From TICKET_TOPIC, a topic and a description log the ticket from the fields as they stand. */
  lemma FinishTicket(s: SessionData, topic: string, desc: string)
    requires s.state == TicketTopic
    requires NotACommand(desc)
    ensures var s6 := OnList(s, topic).session;
      s6.state == TicketDesc &&
      var r := OnText(s6, desc);
      && r.out == [TicketLogged(Ticket(s.ticketName, s.ticketOrderNum, Some(topic), Some(desc))),
                   Text(ReplyScript(s.language), TicketSubmitted)]
      && r.session == s.(ticketName := None, ticketOrderNum := None, ticketTopic := None, ticketDesc := None,
                         state := MainMenu)
  {
    ListReplies(s, topic);
    var s6 := OnList(s, topic).session;
    OnTextFlow(s6, desc);
  }

  // ---------------------------------------------------------------------
  // Reachability
  // ---------------------------------------------------------------------

  /** The states the ordering placeholder and the missing SELECT_CATEGORY arm leave out of reach. */
  const OrderingStates: set<State> :=
    {ShowProducts, AskQuantity, CartDecision, CheckoutName, CheckoutAddress, CheckoutConfirm, CheckOrderStatus}

  /** Past WELCOME a language is chosen; no ordering state is ever entered. */
  predicate Inv(s: SessionData) {
    && (s.state != Welcome ==> s.language.Some? && !s.isFirstTime)
    && s.state !in OrderingStates
  }

  ghost predicate WorldInv(w: World) {
    forall p :: p in w.sessions ==> Inv(w.sessions[p])
  }

  lemma TextKeepsInv(s: SessionData, text: string)
    requires Inv(s)
    ensures Inv(OnText(s, text).session)
  {
    var command := CommandOf(text);
    if command == LanguageWord {
      LanguageCommandResets(s, text);
    } else if s.state == Welcome {
      WelcomeIgnoresText(s, text);
    } else if command == MenuWord {
      MenuWordRoutes(s, text);
    } else {
      OnTextFlow(s, text);
      FlowTextKeepsInv(s, text, command);
    }
  }

  /** Text that is not a global command reaches the per-state arms. */
  lemma OnTextFlow(s: SessionData, text: string)
    requires Ready(s) && s.state != Welcome && NotACommand(text)
    ensures OnText(s, text) == FlowText(s, text, CommandOf(text))
  {
  }

  lemma FlowTextKeepsInv(s: SessionData, text: string, command: Command)
    requires Inv(s) && s.state != Welcome
    ensures Inv(FlowText(s, text, command).session)
  {
    if s.state in {TicketName, TicketOrderNum, TicketDesc} {
      TicketTextKeepsInv(s, text, command);
    } else {
      OrderTextKeepsInv(s, text);
    }
  }

  lemma TicketTextKeepsInv(s: SessionData, text: string, command: Command)
    requires Inv(s) && s.state in {TicketName, TicketOrderNum, TicketDesc}
    ensures Inv(TicketText(s, text, command).session)
  {
  }

  /** In a reachable session the order arms only ever take the fallback. */
  lemma OrderTextKeepsInv(s: SessionData, text: string)
    requires Inv(s)
    ensures OrderText(s, text) == Outcome(s, [Text(English, UseButtons)], Keep)
  {
  }

  /** No button press in a reachable session places an order, and the session stays reachable. */
  lemma ButtonKeepsInv(s: SessionData, id: string, existing: Option<Order>, orderId: string)
    requires Inv(s)
    ensures var r := OnButton(s, id, existing, orderId);
      !r.effect.Place? && (r.effect.Keep? ==> Inv(r.session))
  {
  }

  lemma ListKeepsInv(s: SessionData, id: string)
    requires Inv(s)
    ensures Inv(OnList(s, id).session)
  {
  }

  lemma OutcomeKeepsInv(s: SessionData, body: Body, existing: Option<Order>, orderId: string)
    requires Inv(s)
    ensures var r := OutcomeOf(s, body, existing, orderId);
      r.Some? ==> !r.value.effect.Place? && (r.value.effect.Keep? ==> Inv(r.value.session))
  {
    match body
    case TextBody(text) => TextKeepsInv(s, text);
    case ButtonReply(id) => ButtonKeepsInv(s, id, existing, orderId);
    case ListReply(id) => ListKeepsInv(s, id);
    case OtherInteractive =>
    case Unsupported =>
  }

  /** Writing back a reachable session, or a reset, keeps the store reachable and its orders as they were. */
  lemma ApplyKeepsInv(w: World, phone: Phone, o: Outcome)
    requires WorldInv(w) && !o.effect.Place? && (o.effect.Keep? ==> Inv(o.session))
    ensures WorldInv(Apply(w, phone, o)) && Apply(w, phone, o).orders == w.orders
  {
  }

  /** One inbound message keeps every session reachable and never records an order. */
  lemma DeliverKeepsInv(w: World, msg: Inbound, orderId: string)
    requires WorldInv(w)
    ensures WorldInv(Deliver(w, msg, orderId).0) && Deliver(w, msg, orderId).0.orders == w.orders
  {
    var w0 := GetSessionSpec(w, msg.from);
    assert WorldInv(w0);
    var s := w0.sessions[msg.from];
    var existing := OrderOf(w0.orders, msg.from);
    OutcomeKeepsInv(s, msg.body, existing, orderId);
    match OutcomeOf(s, msg.body, existing, orderId)
    case None =>
    case Some(o) => ApplyKeepsInv(w0, msg.from, o);
  }

  /**
   * Messages handled one after another, each with the id `generateOrderId`
   * would return. From a reachable store every session stays reachable, so
   * no ordering state is ever entered and no order is ever recorded.
   */
  function Run(w: World, msgs: seq<(Inbound, string)>): (r: (World, seq<Intent>))
    requires WorldInv(w)
    ensures WorldInv(r.0) && r.0.orders == w.orders
    ensures forall p :: p in r.0.sessions ==> r.0.sessions[p].state !in OrderingStates
    decreases |msgs|
  {
    if msgs == [] then (w, [])
    else
      var w1 := Deliver(w, msgs[0].0, msgs[0].1);
      DeliverKeepsInv(w, msgs[0].0, msgs[0].1);
      var w2 := Run(w1.0, msgs[1..]);
      (w2.0, w1.1 + w2.1)
  }

  /** The empty store, where every run starts. */
  lemma EmptyStoreReachable()
    ensures WorldInv(World(map[], map[]))
  {
  }
}
