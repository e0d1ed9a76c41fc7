/**
 * The session and order maps of the older copy of the bot (server.js): one
 * mutable record per phone with seven fields, created on first contact in
 * MAIN_MENU and replaced by a fresh MAIN_MENU record on reset.
 */
module LegacySessions {
  import opened Wrappers
  import opened Catalog
  import opened Conversation

  /** The value of a server.js session record. */
  datatype Record = Record(
    state: State,
    gender: Option<Gender>,
    category: Option<Category>,
    cart: seq<CartLine>,
    name: Option<string>,
    address: Option<string>,
    currentProduct: Option<Product>)

  /** The object literal both `getSession` and `resetSession` store. */
  function DefaultRecord(): (r: Record)
    ensures r.state == MainMenu && r.cart == []
    ensures r.gender.None? && r.category.None? && r.name.None? && r.address.None? && r.currentProduct.None?
  {
    Record(MainMenu, None, None, [], None, None, None)
  }

  /** The module-level `sessions` and `orders` maps as a value. */
  datatype World = World(sessions: map<Phone, Record>, orders: map<Phone, Order>)

  /** What `getSession(phone)` does to the maps. */
  function GetSessionSpec(w: World, phone: Phone): (r: World)
    ensures phone in r.sessions && r.orders == w.orders
    ensures phone in w.sessions ==> r == w
    ensures phone !in w.sessions ==> r.sessions == w.sessions[phone := DefaultRecord()]
  {
    if phone in w.sessions then w
    else w.(sessions := w.sessions[phone := DefaultRecord()])
  }

  /** What `resetSession(phone)` does to the maps. */
  function ResetSpec(w: World, phone: Phone): (r: World)
    ensures r.sessions == w.sessions[phone := DefaultRecord()] && r.orders == w.orders
  {
    w.(sessions := w.sessions[phone := DefaultRecord()])
  }

  /** A server.js session record, updated in place by the handlers. */
  class Session {
    var state: State
    var gender: Option<Gender>
    var category: Option<Category>
    var cart: seq<CartLine>
    var name: Option<string>
    var address: Option<string>
    var currentProduct: Option<Product>

    function Data(): Record
      reads this
    {
      Record(state, gender, category, cart, name, address, currentProduct)
    }

    /** The literal of `getSession`/`resetSession`. */
    constructor ()
      ensures Data() == DefaultRecord()
    {
      state := MainMenu;
      gender := None;
      category := None;
      cart := [];
      name := None;
      address := None;
      currentProduct := None;
    }
  }

  /** The `sessions` and `orders` objects of server.js. */
  class SessionStore {
    var sessions: map<Phone, Session>
    var orders: map<Phone, Order>

    /** Each phone has its own record object. */
    ghost predicate Valid()
      reads this
    {
      forall p, q :: p in sessions && q in sessions && p != q ==> sessions[p] != sessions[q]
    }

    function Snapshot(): World
      reads this, sessions.Values
    {
      World(map p | p in sessions :: sessions[p].Data(), orders)
    }

    constructor ()
      ensures Valid() && sessions == map[] && orders == map[]
      ensures Snapshot() == World(map[], map[])
    {
      sessions := map[];
      orders := map[];
    }

    /** `getSession(phone)`: the existing record, or a new MAIN_MENU one stored under `phone`. */
    method GetSession(phone: Phone) returns (s: Session)
      requires Valid()
      modifies this
      ensures Valid() && phone in sessions && sessions[phone] == s
      ensures phone in old(sessions) ==> sessions == old(sessions)
      ensures phone !in old(sessions) ==> fresh(s) && sessions == old(sessions)[phone := s]
      ensures orders == old(orders)
      ensures Snapshot() == GetSessionSpec(old(Snapshot()), phone)
    {
      if phone !in sessions {
        ghost var before := Snapshot();
        s := new Session();
        assert Snapshot() == before;
        sessions := sessions[phone := s];
        assert Snapshot().sessions == before.sessions[phone := DefaultRecord()];
      }
      s := sessions[phone];
    }

    /** `resetSession(phone)`: the entry is replaced by a new default record. */
    method ResetSession(phone: Phone)
      requires Valid()
      modifies this
      ensures Valid() && phone in sessions && fresh(sessions[phone])
      ensures sessions == old(sessions)[phone := sessions[phone]]
      ensures orders == old(orders)
      ensures Snapshot() == ResetSpec(old(Snapshot()), phone)
    {
      ghost var before := Snapshot();
      var s := new Session();
      assert Snapshot() == before;
      sessions := sessions[phone := s];
      assert Snapshot().sessions == before.sessions[phone := DefaultRecord()];
    }
  }

  /** When only `phone`'s record has changed, the snapshot differs from `before` in that entry alone. */
  lemma SnapshotAfterUpdate(store: SessionStore, phone: Phone, before: World)
    requires phone in store.sessions && store.orders == before.orders
    requires store.sessions.Keys == before.sessions.Keys
    requires forall p :: p in store.sessions && p != phone ==> store.sessions[p].Data() == before.sessions[p]
    ensures store.Snapshot() == before.(sessions := before.sessions[phone := store.sessions[phone].Data()])
  {
  }

  /** getSession creates an entry only when there is none, and a second call changes nothing. */
  lemma GetSessionOnce(w: World, phone: Phone)
    ensures GetSessionSpec(GetSessionSpec(w, phone), phone) == GetSessionSpec(w, phone)
    ensures phone in w.sessions ==> GetSessionSpec(w, phone).sessions[phone] == w.sessions[phone]
    ensures forall q :: q in w.sessions && q != phone ==> GetSessionSpec(w, phone).sessions[q] == w.sessions[q]
  {
  }

  /** resetSession is idempotent and leaves the other phones alone. */
  lemma ResetOnce(w: World, phone: Phone)
    ensures ResetSpec(ResetSpec(w, phone), phone) == ResetSpec(w, phone)
    ensures forall q :: q in w.sessions && q != phone ==> ResetSpec(w, phone).sessions[q] == w.sessions[q]
  {
  }
}
