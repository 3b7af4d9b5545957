/** The server-side data service: create, read, update and delete over the
    users, products and orders collections. Each collection lives under its
    own storage key (dashboard_users, dashboard_products, dashboard_orders).
    Storage is abstract: hasWindow says whether browser storage exists at
    all, and each key's slot is None when the key is missing or its value
    does not parse, in which case reads fall back to the seed collection.
    Without storage every save is a no-op, so reads always see the seed. */
module ServerData {
  import opened Seqs
  import opened Keyed
  import opened Records

  /** getFromStorage: the stored collection when storage exists and holds a
      parsable value under the key, otherwise the default. */
  function FromStorage<T>(hasWindow: bool, slot: Option<seq<T>>, default: seq<T>): (r: seq<T>)
    ensures !hasWindow || slot.None? ==> r == default
    ensures hasWindow && slot.Some? ==> r == slot.value
  {
    if hasWindow && slot.Some? then slot.value else default
  }

  /** users.map(u => u.id === id ? { ...u, ...updates } : u). */
  function UpdatedUsers(s: seq<User>, id: int, updates: UserPatch): seq<User>
  {
    UpdateWhere(s, id, UserId, u => MergeUser(u, updates))
  }

  function UpdatedProducts(s: seq<Product>, id: int, updates: ProductPatch): seq<Product>
  {
    UpdateWhere(s, id, ProductId, p => MergeProduct(p, updates))
  }

  function UpdatedOrders(s: seq<Order>, id: int, updates: OrderPatch): seq<Order>
  {
    UpdateWhere(s, id, OrderId, o => MergeOrder(o, updates))
  }

  class DataService {
    const hasWindow: bool
    var usersSlot: Option<seq<User>>
    var productsSlot: Option<seq<Product>>
    var ordersSlot: Option<seq<Order>>

    constructor (hasWindow: bool, users: Option<seq<User>>, products: Option<seq<Product>>,
                 orders: Option<seq<Order>>)
      ensures this.hasWindow == hasWindow
      ensures usersSlot == users && productsSlot == products && ordersSlot == orders
    {
      this.hasWindow := hasWindow;
      usersSlot, productsSlot, ordersSlot := users, products, orders;
    }

    /** What getUsers() reads. */
    function Users(): seq<User>
      reads this
    {
      FromStorage(hasWindow, usersSlot, InitialUsers())
    }

    function Products(): seq<Product>
      reads this
    {
      FromStorage(hasWindow, productsSlot, InitialProducts())
    }

    function Orders(): seq<Order>
      reads this
    {
      FromStorage(hasWindow, ordersSlot, InitialOrders())
    }

    // ----- Users -----

    method GetUsers() returns (r: seq<User>)
      ensures r == Users()
    {
      r := FromStorage(hasWindow, usersSlot, InitialUsers());
    }

    method GetUserById(id: int) returns (r: Option<User>)
      ensures r == FindById(Users(), id, UserId)
    {
      var users := GetUsers();
      r := FindById(users, id, UserId);
    }

    method AddUser(user: UserDraft, today: string) returns (r: User)
      modifies this`usersSlot
      ensures r == NewUser(user, NextId(old(Users()), UserId), today)
      ensures hasWindow ==> usersSlot == Some(old(Users()) + [r])
      ensures !hasWindow ==> usersSlot == old(usersSlot)
      ensures DistinctIds(old(Users()), UserId) ==> DistinctIds(Users(), UserId)
    {
      var users := GetUsers();
      var maxId := if |users| > 0 then MaxId(users, UserId) else 0;
      r := NewUser(user, maxId + 1, today);
      var updated := users + [r];
      if hasWindow {
        usersSlot := Some(updated);
        AppendFreshKeepsDistinctIds(users, r, UserId);
      }
    }

    method UpdateUser(id: int, updates: UserPatch) returns (r: Option<User>)
      modifies this`usersSlot
      ensures FindIndex(old(Users()), id, UserId).None? ==> r.None? && usersSlot == old(usersSlot)
      ensures FindIndex(old(Users()), id, UserId).Some? ==>
                var k := FindIndex(old(Users()), id, UserId).value;
                r == Some(MergeUser(old(Users())[k], updates))
                && usersSlot == (if hasWindow then Some(UpdatedUsers(old(Users()), id, updates))
                                 else old(usersSlot))
    {
      var users := GetUsers();
      var index := FindIndex(users, id, UserId);
      if index.None? {
        return None;
      }
      var updated := UpdatedUsers(users, id, updates);
      if hasWindow {
        usersSlot := Some(updated);
      }
      r := Some(updated[index.value]);
    }

    method DeleteUser(id: int) returns (r: bool)
      modifies this`usersSlot
      ensures r <==> FindIndex(old(Users()), id, UserId).Some?
      ensures usersSlot == (if r && hasWindow then Some(RemoveById(old(Users()), id, UserId))
                            else old(usersSlot))
    {
      var users := GetUsers();
      var filtered := RemoveById(users, id, UserId);
      if |filtered| == |users| {
        return false;
      }
      if hasWindow {
        usersSlot := Some(filtered);
      }
      r := true;
    }

    // ----- Products -----

    method GetProducts() returns (r: seq<Product>)
      ensures r == Products()
    {
      r := FromStorage(hasWindow, productsSlot, InitialProducts());
    }

    method GetProductById(id: int) returns (r: Option<Product>)
      ensures r == FindById(Products(), id, ProductId)
    {
      var products := GetProducts();
      r := FindById(products, id, ProductId);
    }

    method AddProduct(product: ProductDraft, today: string) returns (r: Product)
      modifies this`productsSlot
      ensures r == NewProduct(product, NextId(old(Products()), ProductId), today)
      ensures hasWindow ==> productsSlot == Some(old(Products()) + [r])
      ensures !hasWindow ==> productsSlot == old(productsSlot)
      ensures DistinctIds(old(Products()), ProductId) ==> DistinctIds(Products(), ProductId)
    {
      var products := GetProducts();
      var maxId := if |products| > 0 then MaxId(products, ProductId) else 0;
      r := NewProduct(product, maxId + 1, today);
      var updated := products + [r];
      if hasWindow {
        productsSlot := Some(updated);
        AppendFreshKeepsDistinctIds(products, r, ProductId);
      }
    }

    method UpdateProduct(id: int, updates: ProductPatch) returns (r: Option<Product>)
      modifies this`productsSlot
      ensures FindIndex(old(Products()), id, ProductId).None? ==>
                r.None? && productsSlot == old(productsSlot)
      ensures FindIndex(old(Products()), id, ProductId).Some? ==>
                var k := FindIndex(old(Products()), id, ProductId).value;
                r == Some(MergeProduct(old(Products())[k], updates))
                && productsSlot == (if hasWindow then Some(UpdatedProducts(old(Products()), id, updates))
                                    else old(productsSlot))
    {
      var products := GetProducts();
      var index := FindIndex(products, id, ProductId);
      if index.None? {
        return None;
      }
      var updated := UpdatedProducts(products, id, updates);
      if hasWindow {
        productsSlot := Some(updated);
      }
      r := Some(updated[index.value]);
    }

    method DeleteProduct(id: int) returns (r: bool)
      modifies this`productsSlot
      ensures r <==> FindIndex(old(Products()), id, ProductId).Some?
      ensures productsSlot == (if r && hasWindow then Some(RemoveById(old(Products()), id, ProductId))
                               else old(productsSlot))
    {
      var products := GetProducts();
      var filtered := RemoveById(products, id, ProductId);
      if |filtered| == |products| {
        return false;
      }
      if hasWindow {
        productsSlot := Some(filtered);
      }
      r := true;
    }

    // ----- Orders -----

    method GetOrders() returns (r: seq<Order>)
      ensures r == Orders()
    {
      r := FromStorage(hasWindow, ordersSlot, InitialOrders());
    }

    method GetOrderById(id: int) returns (r: Option<Order>)
      ensures r == FindById(Orders(), id, OrderId)
    {
      var orders := GetOrders();
      r := FindById(orders, id, OrderId);
    }

    method AddOrder(order: OrderDraft, today: string) returns (r: Order)
      modifies this`ordersSlot
      ensures r == NewOrder(order, NextId(old(Orders()), OrderId), today)
      ensures hasWindow ==> ordersSlot == Some(old(Orders()) + [r])
      ensures !hasWindow ==> ordersSlot == old(ordersSlot)
      ensures DistinctIds(old(Orders()), OrderId) ==> DistinctIds(Orders(), OrderId)
    {
      var orders := GetOrders();
      var maxId := if |orders| > 0 then MaxId(orders, OrderId) else 0;
      r := NewOrder(order, maxId + 1, today);
      var updated := orders + [r];
      if hasWindow {
        ordersSlot := Some(updated);
        AppendFreshKeepsDistinctIds(orders, r, OrderId);
      }
    }

    method UpdateOrder(id: int, updates: OrderPatch) returns (r: Option<Order>)
      modifies this`ordersSlot
      ensures FindIndex(old(Orders()), id, OrderId).None? ==> r.None? && ordersSlot == old(ordersSlot)
      ensures FindIndex(old(Orders()), id, OrderId).Some? ==>
                var k := FindIndex(old(Orders()), id, OrderId).value;
                r == Some(MergeOrder(old(Orders())[k], updates))
                && ordersSlot == (if hasWindow then Some(UpdatedOrders(old(Orders()), id, updates))
                                  else old(ordersSlot))
    {
      var orders := GetOrders();
      var index := FindIndex(orders, id, OrderId);
      if index.None? {
        return None;
      }
      var updated := UpdatedOrders(orders, id, updates);
      if hasWindow {
        ordersSlot := Some(updated);
      }
      r := Some(updated[index.value]);
    }

    method DeleteOrder(id: int) returns (r: bool)
      modifies this`ordersSlot
      ensures r <==> FindIndex(old(Orders()), id, OrderId).Some?
      ensures ordersSlot == (if r && hasWindow then Some(RemoveById(old(Orders()), id, OrderId))
                             else old(ordersSlot))
    {
      var orders := GetOrders();
      var filtered := RemoveById(orders, id, OrderId);
      if |filtered| == |orders| {
        return false;
      }
      if hasWindow {
        ordersSlot := Some(filtered);
      }
      r := true;
    }
  }

  /** update(id, {}) leaves every record as it was. */
  lemma {:induction false} EmptyPatchIsIdentity(s: seq<User>, id: int)
    ensures UpdatedUsers(s, id, EmptyUserPatch) == s
  {
    var r := UpdatedUsers(s, id, EmptyUserPatch);
    assert forall i :: 0 <= i < |s| ==> r[i] == s[i];
  }

  /** An update whose patch leaves id alone keeps the ids pairwise distinct. */
  lemma UpdateKeepsDistinctIds(s: seq<User>, id: int, updates: UserPatch)
    requires DistinctIds(s, UserId) && updates.id.None?
    ensures DistinctIds(UpdatedUsers(s, id, updates), UserId)
  {
    var r := UpdatedUsers(s, id, updates);
    assert forall i :: 0 <= i < |s| ==> r[i].id == s[i].id;
  }

  /** Deleting keeps the ids distinct, and afterwards the id is absent. */
  lemma DeleteKeepsDistinctIds(s: seq<User>, id: int)
    requires DistinctIds(s, UserId)
    ensures DistinctIds(RemoveById(s, id, UserId), UserId)
    ensures FindById(RemoveById(s, id, UserId), id, UserId).None?
  {
    SubsequenceKeepsDistinctIds(RemoveById(s, id, UserId), s, UserId);
  }
}
