/**
 * The support-ticket pieces of src/services/supportService.js: the topic list
 * and `finalizeTicket`, which logs the ticket, thanks the user, clears the
 * ticket fields and returns the session to MAIN_MENU.
 */
module SupportService {
  import opened Wrappers
  import opened Conversation
  import opened SessionService

  const TopicIds: seq<string> := ["0_Orders_and_payments", "1_Delivery", "2_Returns", "3_Other"]

  /** `sendTicketTopicsList(userPhone, lang)`: a list with one row per topic. */
  function TicketTopicsList(language: Option<Lang>): (i: Intent)
    ensures i.List? && i.ids == TopicIds
    ensures i.script == Arabic <==> language == Some(Ar)
  {
    List(ReplyScript(language), TopicPrompt, TopicIds)
  }

  /** The ticket record read from the session. */
  function TicketOf(s: SessionData): (t: Ticket)
    ensures t.name == s.ticketName && t.orderNumber == s.ticketOrderNum
    ensures t.topic == s.ticketTopic && t.description == s.ticketDesc
  {
    Ticket(s.ticketName, s.ticketOrderNum, s.ticketTopic, s.ticketDesc)
  }

  /**
   * What `finalizeTicket` does: the ticket is captured from the four fields
   * before they are cleared, the reply is in Arabic exactly when the session's
   * language is "ar", and only the ticket fields and the state change.
   */
  function FinalizeTicketStep(s: SessionData): (r: (SessionData, seq<Intent>))
    ensures NoTicket(r.0) && r.0.state == MainMenu
    ensures r.0 == s.(ticketName := None, ticketOrderNum := None, ticketTopic := None, ticketDesc := None,
                      state := MainMenu)
    ensures r.1 == [TicketLogged(TicketOf(s)), Text(ReplyScript(s.language), TicketSubmitted)]
  {
    var ticket := TicketOf(s);
    var reply := Text(ReplyScript(s.language), TicketSubmitted);
    (s.(ticketName := None, ticketOrderNum := None, ticketTopic := None, ticketDesc := None, state := MainMenu),
     [TicketLogged(ticket), reply])
  }

  /** finalizeTicket keeps the cart, the language, the order fields and the checkout fields. */
  lemma FinalizeTicketKeepsTheRest(s: SessionData)
    ensures var s' := FinalizeTicketStep(s).0;
      && s'.cart == s.cart && s'.language == s.language && s'.isFirstTime == s.isFirstTime
      && s'.gender == s.gender && s'.category == s.category && s'.currentProduct == s.currentProduct
      && s'.name == s.name && s'.address == s.address && s'.deliveryAddress == s.deliveryAddress
      && s'.deliveryLocation == s.deliveryLocation && s'.billingAddress == s.billingAddress
  {
  }

  /** `finalizeTicket(userPhone, session)`. */
  method FinalizeTicket(session: Session) returns (out: seq<Intent>)
    modifies session
    ensures session.Data() == FinalizeTicketStep(old(session.Data())).0
    ensures out == FinalizeTicketStep(old(session.Data())).1
  {
    var ticketData := Ticket(session.ticketName, session.ticketOrderNum, session.ticketTopic, session.ticketDesc);
    out := [TicketLogged(ticketData)];
    if session.language == Some(Ar) {
      out := out + [Text(Arabic, TicketSubmitted)];
    } else {
      out := out + [Text(English, TicketSubmitted)];
    }
    session.ticketName := None;
    session.ticketOrderNum := None;
    session.ticketTopic := None;
    session.ticketDesc := None;
    session.state := MainMenu;
    assert session.Data() == old(session.Data()).(ticketName := None, ticketOrderNum := None, ticketTopic := None,
                                                 ticketDesc := None, state := MainMenu);
  }
}
