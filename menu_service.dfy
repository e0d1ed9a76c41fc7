/**
 * The menu senders of src/services/menuService.js: constant button and row
 * tables, and `sendMainMenu`/`sendReturningWelcome`, which also write
 * `session.state`.
 */
module MenuService {
  import opened Wrappers
  import opened Catalog
  import opened Conversation
  import opened SessionService
  import Faq

  const LanguageIds: seq<string> := ["LANG_EN", "LANG_AR"]
  const MainMenuIds: seq<string> := ["ORDER", "STATUS", "SUPPORT"]
  const Categories: seq<Category> := [Perfumes, Deodorants, BodySprays]
  const SupportIds: seq<string> := ["FAQS", "SUBMIT_TICKET", "LIVE_AGENT"]
  const FaqIds: seq<string> := ["faq_general", "faq_payments", "faq_shipping", "faq_orders", "faq_products"]

  /** `sendFirstTimeLanguageMenu`: the two-language greeting with the language buttons. */
  function LanguageMenu(): Intent {
    Buttons(Bilingual, LanguagePrompt, LanguageIds)
  }

  /** The main menu buttons, in the session's reply language. */
  function MainMenuButtons(language: Option<Lang>): Intent {
    Buttons(ReplyScript(language), MainMenuPrompt, MainMenuIds)
  }

  /**
   * `sendCategoryMenu(userPhone, session)`: one button per category, its id the
   * category's key. It reads the session and changes none of its fields.
   */
  function CategoryMenu(s: SessionData): (i: Intent)
    ensures i.Buttons? && i.ids == ["perfumes", "deodorants", "body sprays"]
    ensures forall id :: id in i.ids <==> CategoryOf(id).Some?
  {
    var ids := seq(|Categories|, k requires 0 <= k < |Categories| => CategoryKey(Categories[k]));
    assert ids == ["perfumes", "deodorants", "body sprays"];
    assert forall id :: CategoryOf(id).Some? ==> id == CategoryKey(CategoryOf(id).value);
    Buttons(ReplyScript(s.language), CategoryPrompt(s.gender), ids)
  }

  /** `sendSupportMainMenu(userPhone, lang)`. */
  function SupportMainMenu(language: Option<Lang>): Intent {
    Buttons(ReplyScript(language), SupportPrompt, SupportIds)
  }

  /** `sendFAQList(userPhone, lang)`: one row per FAQ category. */
  function FaqListMenu(language: Option<Lang>): (i: Intent)
    ensures i.List? && |i.ids| == 5
    ensures forall id :: id in i.ids <==> id in Faq.FaqsEn
  {
    Faq.FaqTablesAgree();
    List(ReplyScript(language), FaqPrompt, FaqIds)
  }

  /**
   * What `sendMainMenu` does to the session it looks up: a first-time user
   * without a language is sent back to WELCOME and shown the language menu;
   * anyone else is shown ORDER/STATUS/SUPPORT and put in MAIN_MENU.
   */
  function MainMenuStep(s: SessionData): (r: (SessionData, seq<Intent>))
    ensures r.0 == s.(state := r.0.state)
    ensures r.0.state == Welcome <==> s.isFirstTime && s.language.None?
    ensures r.0.state != Welcome ==> r.0.state == MainMenu && r.1 == [MainMenuButtons(s.language)]
    ensures r.0.state == Welcome ==> r.1 == [LanguageMenu()]
  {
    if s.isFirstTime && s.language.None? then (s.(state := Welcome), [LanguageMenu()])
    else (s.(state := MainMenu), [MainMenuButtons(s.language)])
  }

  /** What `sendReturningWelcome` does: a welcome-back text, then always `sendMainMenu`. */
  function ReturningWelcomeStep(s: SessionData): (r: (SessionData, seq<Intent>))
    ensures r.0 == MainMenuStep(s).0
    ensures r.1 == [Text(ReplyScript(s.language), WelcomeBack)] + MainMenuStep(s).1
  {
    var (s', out) := MainMenuStep(s);
    (s', [Text(ReplyScript(s.language), WelcomeBack)] + out)
  }

  /** `sendMainMenu(userPhone)`: looks the session up (creating it if absent) and writes its state. */
  method SendMainMenu(store: SessionStore, phone: Phone) returns (out: seq<Intent>)
    requires store.Valid()
    modifies store, if phone in store.sessions then {store.sessions[phone]} else {}
    ensures store.Valid() && phone in store.sessions && store.orders == old(store.orders)
    ensures phone in old(store.sessions) ==> store.sessions == old(store.sessions)
    ensures phone !in old(store.sessions) ==>
      fresh(store.sessions[phone]) && store.sessions == old(store.sessions)[phone := store.sessions[phone]]
    ensures var r := MainMenuStep(GetSessionSpec(old(store.Snapshot()), phone).sessions[phone]);
      store.sessions[phone].Data() == r.0 && out == r.1
    ensures phone in old(store.sessions) ==>
      var r := MainMenuStep(old(store.sessions[phone].Data()));
      store.sessions[phone].Data() == r.0 && out == r.1
  {
    var session := store.GetSession(phone);
    if session.isFirstTime && session.language.None? {
      session.state := Welcome;
      out := [LanguageMenu()];
      return;
    }
    out := [MainMenuButtons(session.language)];
    session.state := MainMenu;
  }

  /** `sendReturningWelcome(userPhone)`. */
  method SendReturningWelcome(store: SessionStore, phone: Phone) returns (out: seq<Intent>)
    requires store.Valid()
    modifies store, if phone in store.sessions then {store.sessions[phone]} else {}
    ensures store.Valid() && phone in store.sessions && store.orders == old(store.orders)
    ensures phone in old(store.sessions) ==> store.sessions == old(store.sessions)
    ensures phone !in old(store.sessions) ==>
      fresh(store.sessions[phone]) && store.sessions == old(store.sessions)[phone := store.sessions[phone]]
    ensures var r := ReturningWelcomeStep(GetSessionSpec(old(store.Snapshot()), phone).sessions[phone]);
      store.sessions[phone].Data() == r.0 && out == r.1
    ensures phone in old(store.sessions) ==>
      var r := ReturningWelcomeStep(old(store.sessions[phone].Data()));
      store.sessions[phone].Data() == r.0 && out == r.1
  {
    var session := store.GetSession(phone);
    out := [Text(ReplyScript(session.language), WelcomeBack)];
    var menu := SendMainMenu(store, phone);
    out := out + menu;
  }
}
