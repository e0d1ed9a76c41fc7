/**
 * The session store of src/services/sessionService.js: one mutable session
 * record per phone, created on first contact and replaced by a fresh record
 * on reset. The `orders` map lives here as well (see README).
 */
module SessionService {
  import opened Wrappers
  import opened Catalog
  import opened Conversation

  /** The value of a session record: every field `createNewSession` lists, plus
      `currentProduct` and `address`, which the handlers add later. */
  datatype SessionData = SessionData(
    isFirstTime: bool,
    language: Option<Lang>,
    state: State,
    gender: Option<Gender>,
    category: Option<Category>,
    cart: seq<CartLine>,
    currentProduct: Option<Product>,
    name: Option<string>,
    address: Option<string>,
    deliveryAddress: Option<string>,
    deliveryLocation: Option<string>,
    billingAddress: Option<string>,
    ticketName: Option<string>,
    ticketOrderNum: Option<string>,
    ticketTopic: Option<string>,
    ticketDesc: Option<string>)

  predicate NoTicket(s: SessionData) {
    s.ticketName.None? && s.ticketOrderNum.None? && s.ticketTopic.None? && s.ticketDesc.None?
  }

  predicate NoCheckout(s: SessionData) {
    && s.name.None? && s.address.None?
    && s.deliveryAddress.None? && s.deliveryLocation.None? && s.billingAddress.None?
  }

  /** `createNewSession(isFirstTime)`. */
  function CreateNewSession(isFirstTime: bool): (s: SessionData)
    ensures s.isFirstTime == isFirstTime && s.language.None? && s.state == Welcome && s.cart == []
    ensures s.gender.None? && s.category.None? && s.currentProduct.None?
    ensures NoCheckout(s) && NoTicket(s)
  {
    SessionData(isFirstTime, None, Welcome, None, None, [], None, None, None, None, None, None,
                None, None, None, None)
  }

  /** Everything the store holds: the session records and the placed orders. */
  datatype World = World(sessions: map<Phone, SessionData>, orders: map<Phone, Order>)

  /** What `getSession(phone)` does to the store. */
  function GetSessionSpec(w: World, phone: Phone): (r: World)
    ensures phone in r.sessions && r.orders == w.orders
    ensures phone in w.sessions ==> r == w
    ensures phone !in w.sessions ==> r.sessions == w.sessions[phone := CreateNewSession(true)]
  {
    if phone in w.sessions then w
    else w.(sessions := w.sessions[phone := CreateNewSession(true)])
  }

  /** What `resetSession(phone)` does to the store. */
  function ResetSpec(w: World, phone: Phone): (r: World)
    ensures r.sessions == w.sessions[phone := CreateNewSession(false)] && r.orders == w.orders
  {
    w.(sessions := w.sessions[phone := CreateNewSession(false)])
  }

  /** Two entries of the store that agree everywhere except at `phone`. */
  ghost predicate SameElsewhere<V>(m: map<Phone, V>, m': map<Phone, V>, phone: Phone) {
    && (forall q :: q in m && q != phone ==> q in m' && m'[q] == m[q])
    && (forall q :: q in m' && q != phone ==> q in m)
  }

  /** getSession creates an entry only when there is none, and a second call changes nothing. */
  lemma GetSessionOnce(w: World, phone: Phone)
    ensures GetSessionSpec(GetSessionSpec(w, phone), phone) == GetSessionSpec(w, phone)
    ensures SameElsewhere(w.sessions, GetSessionSpec(w, phone).sessions, phone)
    ensures phone in w.sessions ==> GetSessionSpec(w, phone).sessions[phone] == w.sessions[phone]
  {
  }

  /** resetSession touches only the given phone's entry, and two resets are one. */
  lemma ResetOnce(w: World, phone: Phone)
    ensures ResetSpec(ResetSpec(w, phone), phone) == ResetSpec(w, phone)
    ensures SameElsewhere(w.sessions, ResetSpec(w, phone).sessions, phone)
    ensures ResetSpec(w, phone).sessions[phone].isFirstTime == false
  {
  }

  /** A session record, updated in place by the handlers. */
  class Session {
    var isFirstTime: bool
    var language: Option<Lang>
    var state: State
    var gender: Option<Gender>
    var category: Option<Category>
    var cart: seq<CartLine>
    var currentProduct: Option<Product>
    var name: Option<string>
    var address: Option<string>
    var deliveryAddress: Option<string>
    var deliveryLocation: Option<string>
    var billingAddress: Option<string>
    var ticketName: Option<string>
    var ticketOrderNum: Option<string>
    var ticketTopic: Option<string>
    var ticketDesc: Option<string>

    /** The record's current field values. */
    function Data(): SessionData
      reads this
    {
      SessionData(isFirstTime, language, state, gender, category, cart, currentProduct, name, address,
                  deliveryAddress, deliveryLocation, billingAddress,
                  ticketName, ticketOrderNum, ticketTopic, ticketDesc)
    }

    /** The object literal built by `createNewSession(isFirstTime)`. */
    constructor (isFirstTime: bool)
      ensures Data() == CreateNewSession(isFirstTime)
    {
      this.isFirstTime := isFirstTime;
      language := None;
      state := Welcome;
      gender := None;
      category := None;
      cart := [];
      currentProduct := None;
      name := None;
      address := None;
      deliveryAddress := None;
      deliveryLocation := None;
      billingAddress := None;
      ticketName := None;
      ticketOrderNum := None;
      ticketTopic := None;
      ticketDesc := None;
    }
  }

  /** The module-level `sessions` map, with `orders` beside it. */
  class SessionStore {
    var sessions: map<Phone, Session>
    var orders: map<Phone, Order>

    /** Each phone has its own record object. */
    ghost predicate Valid()
      reads this
    {
      forall p, q :: p in sessions && q in sessions && p != q ==> sessions[p] != sessions[q]
    }

    /** The store's content as a value. */
    function Snapshot(): World
      reads this, sessions.Values
    {
      World(map p | p in sessions :: sessions[p].Data(), orders)
    }

    constructor ()
      ensures Valid() && sessions == map[] && orders == map[]
      ensures Snapshot() == World(map[], map[])
    {
      sessions := map[];
      orders := map[];
    }

    /** `getSession(phone)`: the existing record, or a new first-time one stored under `phone`. */
    method GetSession(phone: Phone) returns (s: Session)
      requires Valid()
      modifies this
      ensures Valid() && phone in sessions && sessions[phone] == s
      ensures phone in old(sessions) ==> sessions == old(sessions)
      ensures phone !in old(sessions) ==> fresh(s) && sessions == old(sessions)[phone := s]
      ensures orders == old(orders)
      ensures Snapshot() == GetSessionSpec(old(Snapshot()), phone)
    {
      if phone !in sessions {
        ghost var before := Snapshot();
        s := new Session(true);
        assert Snapshot() == before;
        sessions := sessions[phone := s];
        assert Snapshot().sessions == before.sessions[phone := CreateNewSession(true)];
      }
      s := sessions[phone];
    }

    /** `resetSession(phone)`: the entry is replaced by a new record with `isFirstTime` false. */
    method ResetSession(phone: Phone)
      requires Valid()
      modifies this
      ensures Valid() && phone in sessions && fresh(sessions[phone])
      ensures sessions == old(sessions)[phone := sessions[phone]]
      ensures orders == old(orders)
      ensures Snapshot() == ResetSpec(old(Snapshot()), phone)
    {
      ghost var before := Snapshot();
      var s := new Session(false);
      assert Snapshot() == before;
      sessions := sessions[phone := s];
      assert Snapshot().sessions == before.sessions[phone := CreateNewSession(false)];
    }
  }

  /** When only `phone`'s record has changed, the snapshot differs from `before` in that entry alone. */
  lemma SnapshotAfterUpdate(store: SessionStore, phone: Phone, before: World)
    requires phone in store.sessions && store.orders == before.orders
    requires store.sessions.Keys == before.sessions.Keys
    requires forall p :: p in store.sessions && p != phone ==> store.sessions[p].Data() == before.sessions[p]
    ensures store.Snapshot() == before.(sessions := before.sessions[phone := store.sessions[phone].Data()])
  {
  }
}
