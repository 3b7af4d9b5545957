/** The client-side generic data store (createDataStore): an in-memory list of
    records keyed by id, loaded once from its storage key, replaced by add,
    update, remove and reset, and written back to the key after each of them.
    The record type stays generic, as in the source: idOf reads a record's id,
    build makes { ...item, id, createdAt } and merge makes { ...item, ...updates }.
    Storage is abstract: hasWindow says whether browser storage exists and
    stored is the key's current value (None when the key is missing). */
module DataStores {
  import opened Seqs
  import opened Keyed
  import opened Records

  class DataStore<T, D(!new), P> {
    const idOf: T -> int
    const build: (D, int, string) -> T
    const merge: (T, P) -> T
    const initialData: seq<T>
    const hasWindow: bool
    var items: seq<T>
    var stored: Option<seq<T>>

    /** build gives the new record exactly the id it is handed. */
    ghost predicate BuildKeepsId()
    {
      forall d, n, c :: idOf(build(d, n, c)) == n
    }

    /** loadFromStorage(storageKey, initialData) seeds the list. */
    constructor (initialData: seq<T>, hasWindow: bool, stored: Option<seq<T>>,
                 idOf: T -> int, build: (D, int, string) -> T, merge: (T, P) -> T)
      ensures this.initialData == initialData && this.hasWindow == hasWindow
      ensures this.idOf == idOf && this.build == build && this.merge == merge
      ensures this.stored == stored
      ensures items == if hasWindow && stored.Some? then stored.value else initialData
    {
      this.idOf, this.build, this.merge := idOf, build, merge;
      this.initialData, this.hasWindow := initialData, hasWindow;
      this.stored := stored;
      items := if hasWindow && stored.Some? then stored.value else initialData;
    }

    /** items.map(item => item.id === id ? { ...item, ...updates } : item). */
    function Updated(s: seq<T>, id: int, updates: P): seq<T>
    {
      UpdateWhere(s, id, idOf, x => merge(x, updates))
    }

    /** saveToStorage(storageKey, s): a no-op without storage. */
    method Save(s: seq<T>)
      modifies this`stored
      ensures stored == if hasWindow then Some(s) else old(stored)
    {
      if hasWindow {
        stored := Some(s);
      }
    }

    method Add(item: D, today: string)
      modifies this`items, this`stored
      ensures items == old(items) + [build(item, NextId(old(items), idOf), today)]
      ensures stored == if hasWindow then Some(items) else old(stored)
      ensures BuildKeepsId() && DistinctIds(old(items), idOf) ==> DistinctIds(items, idOf)
    {
      var maxId := if |items| > 0 then MaxId(items, idOf) else 0;
      var newItem := build(item, maxId + 1, today);
      var newItems := items + [newItem];
      if BuildKeepsId() {
        AppendFreshKeepsDistinctIds(items, newItem, idOf);
      }
      Save(newItems);
      items := newItems;
    }

    method Update(id: int, updates: P)
      modifies this`items, this`stored
      ensures items == Updated(old(items), id, updates)
      ensures stored == if hasWindow then Some(items) else old(stored)
      ensures (forall i :: 0 <= i < |old(items)| ==> idOf(old(items)[i]) != id) ==> items == old(items)
    {
      var newItems := Updated(items, id, updates);
      if forall i :: 0 <= i < |items| ==> idOf(items[i]) != id {
        assert forall i :: 0 <= i < |items| ==> newItems[i] == items[i];
      }
      Save(newItems);
      items := newItems;
    }

    method Remove(id: int)
      modifies this`items, this`stored
      ensures items == RemoveById(old(items), id, idOf)
      ensures stored == if hasWindow then Some(items) else old(stored)
    {
      var newItems := RemoveById(items, id, idOf);
      Save(newItems);
      items := newItems;
    }

    method Reset()
      modifies this`items, this`stored
      ensures items == initialData
      ensures stored == if hasWindow then Some(initialData) else old(stored)
    {
      items := initialData;
      Save(initialData);
    }

    /** Reads through an update callback that hands the list back unchanged. */
    method GetById(id: int) returns (found: Option<T>)
      ensures found == FindById(items, id, idOf)
    {
      found := FindById(items, id, idOf);
    }
  }

  /** The three stores the dashboard exports (usersStore, productsStore, ordersStore). */
  method CreateStores(hasWindow: bool, users: Option<seq<User>>, products: Option<seq<Product>>,
                      orders: Option<seq<Order>>)
    returns (usersStore: DataStore<User, UserDraft, UserPatch>,
             productsStore: DataStore<Product, ProductDraft, ProductPatch>,
             ordersStore: DataStore<Order, OrderDraft, OrderPatch>)
    ensures usersStore.items == if hasWindow && users.Some? then users.value else InitialUsers()
    ensures usersStore.BuildKeepsId() && productsStore.BuildKeepsId() && ordersStore.BuildKeepsId()
    ensures productsStore.items == if hasWindow && products.Some? then products.value
                                   else InitialProducts()
    ensures ordersStore.items == if hasWindow && orders.Some? then orders.value else InitialOrders()
  {
    usersStore := new DataStore(InitialUsers(), hasWindow, users, UserId, NewUser, MergeUser);
    productsStore := new DataStore(InitialProducts(), hasWindow, products, ProductId,
                                   NewProduct, MergeProduct);
    ordersStore := new DataStore(InitialOrders(), hasWindow, orders, OrderId, NewOrder, MergeOrder);
  }
}
