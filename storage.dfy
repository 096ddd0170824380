/**
 * The in-memory storage gateway (`MemStorage`): five insertion-ordered tables,
 * a fresh-id oracle for primary keys and a logical clock for timestamps.
 */
module Storage {
  import opened Wrappers
  import opened Schema
  import OrderedMap
  import Seqs

  // ---------------------------------------------------------------------
  // Orderings and list helpers

  /** Creation times increase along the sequence (the insertion order of orders). */
  ghost predicate CreatedAscending(os: seq<Order>) {
    forall i, j :: 0 <= i < j < |os| ==> os[i].createdAt < os[j].createdAt
  }

  /** Creation times decrease along the sequence: what sorting by `createdAt` descending yields. */
  ghost predicate NewestFirst(os: seq<Order>) {
    forall i, j :: 0 <= i < j < |os| ==> os[i].createdAt > os[j].createdAt
  }

  function Reverse<T>(s: seq<T>): (r: seq<T>)
    ensures |r| == |s|
    ensures forall i :: 0 <= i < |s| ==> r[i] == s[|s| - 1 - i]
  {
    if s == [] then [] else [s[|s| - 1]] + Reverse(s[..|s| - 1])
  }

  lemma ReverseAppend<T>(s: seq<T>, x: T)
    ensures Reverse(s + [x]) == [x] + Reverse(s)
  {
    assert (s + [x])[..|s|] == s;
  }

  lemma ReverseMembers<T>(s: seq<T>)
    ensures forall x :: x in Reverse(s) <==> x in s
  {
    var r := Reverse(s);
    forall x | x in s ensures x in r {
      var i :| 0 <= i < |s| && s[i] == x;
      assert r[|s| - 1 - i] == x;
    }
  }

  lemma ReverseIsNewestFirst(os: seq<Order>)
    requires CreatedAscending(os)
    ensures NewestFirst(Reverse(os))
  {
  }

  /**
   * Sorting by creation time, newest first, has one answer when creation
   * times differ: two newest-first lists of the same orders are equal.
   */
  lemma {:induction false} NewestFirstUnique(a: seq<Order>, b: seq<Order>)
    requires NewestFirst(a) && NewestFirst(b)
    requires forall o :: o in a <==> o in b
    ensures a == b
    decreases |a|
  {
    assert a != [] ==> a[0] in a;
    assert b != [] ==> b[0] in b;
    if a != [] && b != [] {
      forall o ensures o in a[1..] <==> o in b[1..] {
        if o in a[1..] {
          var i :| 0 <= i < |a[1..]| && a[1..][i] == o;
          assert a[i + 1] == o && o.createdAt < a[0].createdAt;
          assert o in b;
          var j :| 0 <= j < |b| && b[j] == o;
          assert j != 0;
          assert b[1..][j - 1] == o;
        }
        if o in b[1..] {
          var i :| 0 <= i < |b[1..]| && b[1..][i] == o;
          assert b[i + 1] == o && o.createdAt < b[0].createdAt;
          assert o in a;
          var j :| 0 <= j < |a| && a[j] == o;
          assert j != 0;
          assert a[1..][j - 1] == o;
        }
      }
      NewestFirstUnique(a[1..], b[1..]);
      assert a == [a[0]] + a[1..] && b == [b[0]] + b[1..];
    }
  }

  /** `.filter(order => order.userId === userId)` */
  function OwnedBy(os: seq<Order>, u: Id): (r: seq<Order>)
    ensures |r| <= |os|
  {
    if os == [] then []
    else (if os[0].userId == u then [os[0]] else []) + OwnedBy(os[1..], u)
  }

  /** The filter keeps exactly the orders of `u`. */
  lemma {:induction false} OwnedByMembers(os: seq<Order>, u: Id)
    ensures forall o :: o in OwnedBy(os, u) <==> o in os && o.userId == u
  {
    if os != [] {
      OwnedByMembers(os[1..], u);
      assert os == [os[0]] + os[1..];
    }
  }

  /** Filtering keeps only elements of the input, so it keeps a lower bound on creation times. */
  lemma {:induction false} OwnedByBounded(os: seq<Order>, u: Id, t: Time)
    requires forall i :: 0 <= i < |os| ==> t < os[i].createdAt
    ensures forall i :: 0 <= i < |OwnedBy(os, u)| ==> t < OwnedBy(os, u)[i].createdAt
  {
    if os != [] {
      OwnedByBounded(os[1..], u, t);
    }
  }

  /** Filtering keeps the relative order, so it keeps creation order. */
  lemma {:induction false} OwnedByAscending(os: seq<Order>, u: Id)
    requires CreatedAscending(os)
    ensures CreatedAscending(OwnedBy(os, u))
  {
    if os != [] {
      var rest := OwnedBy(os[1..], u);
      OwnedByAscending(os[1..], u);
      OwnedByBounded(os[1..], u, os[0].createdAt);
      var r := OwnedBy(os, u);
      if os[0].userId == u {
        assert r == [os[0]] + rest;
        forall i, j | 0 <= i < j < |r| ensures r[i].createdAt < r[j].createdAt {
          if i == 0 { assert r[j] == rest[j - 1]; }
          else { assert r[i] == rest[i - 1] && r[j] == rest[j - 1]; }
        }
      } else {
        assert r == rest;
      }
    }
  }

  lemma {:induction false} OwnedByAppend(os: seq<Order>, x: Order, u: Id)
    ensures OwnedBy(os + [x], u) == OwnedBy(os, u) + (if x.userId == u then [x] else [])
  {
    if os == [] {
      assert [x][1..] == [];
    } else {
      assert (os + [x])[1..] == os[1..] + [x];
      OwnedByAppend(os[1..], x, u);
    }
  }

  /** `.filter(photo => photo.orderId === orderId)` */
  function ForOrder(ps: seq<OrderPhoto>, orderId: Id): (r: seq<OrderPhoto>)
    ensures |r| <= |ps|
  {
    if ps == [] then []
    else (if ps[0].orderId == orderId then [ps[0]] else []) + ForOrder(ps[1..], orderId)
  }

  /** The filter keeps exactly the photos of the order. */
  lemma {:induction false} ForOrderMembers(ps: seq<OrderPhoto>, orderId: Id)
    ensures forall p :: p in ForOrder(ps, orderId) <==> p in ps && p.orderId == orderId
  {
    if ps != [] {
      ForOrderMembers(ps[1..], orderId);
      assert ps == [ps[0]] + ps[1..];
    }
  }

  lemma {:induction false} ForOrderAppend(ps: seq<OrderPhoto>, x: OrderPhoto, orderId: Id)
    ensures ForOrder(ps + [x], orderId) == ForOrder(ps, orderId) + (if x.orderId == orderId then [x] else [])
  {
    if ps == [] {
      assert [x][1..] == [];
    } else {
      assert (ps + [x])[1..] == ps[1..] + [x];
      ForOrderAppend(ps[1..], x, orderId);
    }
  }

  /** No photo of the list belongs to the order, so the filter is empty. */
  lemma {:induction false} ForOrderNone(ps: seq<OrderPhoto>, orderId: Id)
    requires forall i :: 0 <= i < |ps| ==> ps[i].orderId != orderId
    ensures ForOrder(ps, orderId) == []
  {
    if ps != [] {
      ForOrderNone(ps[1..], orderId);
    }
  }

  /** Appending a photo extends its own order's list by it and leaves every other order's list alone. */
  lemma PhotosAfterInsert(ps: seq<OrderPhoto>, p: OrderPhoto)
    ensures ForOrder(ps + [p], p.orderId) == ForOrder(ps, p.orderId) + [p]
    ensures forall x :: x != p.orderId ==> ForOrder(ps + [p], x) == ForOrder(ps, x)
  {
    ForOrderAppend(ps, p, p.orderId);
    forall x | x != p.orderId ensures ForOrder(ps + [p], x) == ForOrder(ps, x) {
      ForOrderAppend(ps, p, x);
    }
  }

  /** The storage paths of a list of photos, in list order. */
  function PhotoPaths(ps: seq<OrderPhoto>): (r: seq<string>)
    ensures |r| == |ps|
    ensures forall i :: 0 <= i < |ps| ==> r[i] == ps[i].photoPath
  {
    if ps == [] then [] else [ps[0].photoPath] + PhotoPaths(ps[1..])
  }

  lemma PhotoPathsAppend(a: seq<OrderPhoto>, b: seq<OrderPhoto>)
    ensures PhotoPaths(a + b) == PhotoPaths(a) + PhotoPaths(b)
  {
  }

  // ---------------------------------------------------------------------
  // The row stored for an order insert

  /**
   * The order `createOrder` builds from an insert: the status defaults to
   * "pending", every other column is the insert's, absent photographer
   * fields stay null, and both timestamps are the same reading.
   */
  function NewOrder(id: Id, ins: InsertOrder, now: Time): (o: Order)
    ensures o.id == id && o.createdAt == now && o.updatedAt == now
    ensures ins.status.None? ==> o.status == DefaultStatus
    ensures ins.status.Some? ==> o.status == ins.status.value
    ensures o.userId == ins.userId && o.productType == ins.productType && o.totalPrice == ins.totalPrice
    ensures o.productConfig == ins.productConfig && o.photoSource == ins.photoSource
    ensures o.photographerId == ins.photographerId && o.shootingDate == ins.shootingDate
    ensures o.shootingTime == ins.shootingTime && o.shootingLocation == ins.shootingLocation
    ensures o.shootingCoordinates == ins.shootingCoordinates
  {
    Order(id, ins.userId, ins.productType, ins.status.GetOr("pending"), ins.totalPrice,
          ins.productConfig, ins.photoSource, ins.photographerId, ins.shootingDate,
          ins.shootingTime, ins.shootingLocation, ins.shootingCoordinates, now, now)
  }

  // ---------------------------------------------------------------------
  // What each table keeps: every row sits under its own id, and every id
  // was handed out by the oracle before `bound`.

  ghost predicate UsersOk(t: OrderedMap.Table<User>, bound: Id) {
    OrderedMap.Valid(t) && forall k :: k in t.rows ==> t.rows[k].id == k && k < bound
  }

  ghost predicate PhotographersOk(t: OrderedMap.Table<Photographer>, bound: Id) {
    OrderedMap.Valid(t) && forall k :: k in t.rows ==> t.rows[k].id == k && k < bound
  }

  ghost predicate ProductsOk(t: OrderedMap.Table<ProductType>, bound: Id) {
    OrderedMap.Valid(t) && forall k :: k in t.rows ==> t.rows[k].id == k && k < bound
  }

  /** Orders also keep `createdAt <= updatedAt <= clock`, and were inserted in creation order. */
  ghost predicate OrdersOk(t: OrderedMap.Table<Order>, bound: Id, clock: Time) {
    && OrderedMap.Valid(t)
    && (forall k :: k in t.rows ==> t.rows[k].id == k && k < bound)
    && (forall k :: k in t.rows ==> t.rows[k].createdAt <= t.rows[k].updatedAt <= clock)
    && CreatedAscending(OrderedMap.Values(t))
  }

  ghost predicate PhotosOk(t: OrderedMap.Table<OrderPhoto>, bound: Id) {
    OrderedMap.Valid(t) && forall k :: k in t.rows ==> t.rows[k].id == k && k < bound
  }

  /** The invariant of a whole store, over its five tables, the id oracle and the clock. */
  ghost predicate StoreOk(us: OrderedMap.Table<User>, ps: OrderedMap.Table<Photographer>,
                          pr: OrderedMap.Table<ProductType>, os: OrderedMap.Table<Order>,
                          ph: OrderedMap.Table<OrderPhoto>, nextId: Id, clock: Time)
  {
    UsersOk(us, nextId) && PhotographersOk(ps, nextId) && ProductsOk(pr, nextId)
    && OrdersOk(os, nextId, clock) && PhotosOk(ph, nextId)
  }

  /** Inserting an order stamped after every stored one keeps the invariant and appends it. */
  lemma InsertNewest(us: OrderedMap.Table<User>, ps: OrderedMap.Table<Photographer>,
                     pr: OrderedMap.Table<ProductType>, os: OrderedMap.Table<Order>,
                     ph: OrderedMap.Table<OrderPhoto>, nextId: Id, clock: Time, o: Order)
    requires StoreOk(us, ps, pr, os, ph, nextId, clock)
    requires o.id == nextId && o.createdAt == o.updatedAt == clock + 1
    ensures StoreOk(us, ps, pr, OrderedMap.Set(os, o.id, o), ph, nextId + 1, clock + 1)
    ensures OrderedMap.Values(OrderedMap.Set(os, o.id, o)) == OrderedMap.Values(os) + [o]
  {
    var before := OrderedMap.Values(os);
    OrderedMap.ValuesOfSetNew(os, o.id, o);
    forall i | 0 <= i < |before| ensures before[i].createdAt < o.createdAt {
      assert before[i] == os.rows[os.keys[i]];
    }
  }

  /** Restamping a stored order with a later `updatedAt` keeps the invariant; the order keeps its place. */
  lemma RestampOrder(us: OrderedMap.Table<User>, ps: OrderedMap.Table<Photographer>,
                     pr: OrderedMap.Table<ProductType>, os: OrderedMap.Table<Order>,
                     ph: OrderedMap.Table<OrderPhoto>, nextId: Id, clock: Time, i: nat, o: Order)
    requires StoreOk(us, ps, pr, os, ph, nextId, clock)
    requires i < |os.keys| && o.id == os.keys[i]
    requires o.createdAt == os.rows[o.id].createdAt && o.updatedAt == clock + 1
    ensures StoreOk(us, ps, pr, OrderedMap.Set(os, o.id, o), ph, nextId, clock + 1)
    ensures OrderedMap.Values(OrderedMap.Set(os, o.id, o)) == OrderedMap.Values(os)[i := o]
  {
    OrderedMap.ValuesOfSetOld(os, i, o);
    var before := OrderedMap.Values(os);
    var after := OrderedMap.Values(OrderedMap.Set(os, o.id, o));
    assert before[i] == os.rows[o.id];
    forall j | 0 <= j < |after| ensures after[j].createdAt == before[j].createdAt {
    }
  }

  /** Inserting a photo under the next id keeps the invariant and appends it. */
  lemma InsertPhoto(us: OrderedMap.Table<User>, ps: OrderedMap.Table<Photographer>,
                    pr: OrderedMap.Table<ProductType>, os: OrderedMap.Table<Order>,
                    ph: OrderedMap.Table<OrderPhoto>, nextId: Id, clock: Time, p: OrderPhoto)
    requires StoreOk(us, ps, pr, os, ph, nextId, clock)
    requires p.id == nextId
    ensures StoreOk(us, ps, pr, os, OrderedMap.Set(ph, p.id, p), nextId + 1, clock + 1)
    ensures OrderedMap.Values(OrderedMap.Set(ph, p.id, p)) == OrderedMap.Values(ph) + [p]
  {
    OrderedMap.ValuesOfSetNew(ph, p.id, p);
  }

  /** One user's orders from a list in insertion order, newest first. */
  function UserView(os: seq<Order>, u: Id): seq<Order> {
    Reverse(OwnedBy(os, u))
  }

  /**
   * Appending an order puts it at the head of the newest-first listing and of
   * its owner's view, and leaves every other user's view alone.
   */
  lemma ViewsAfterInsert(os: seq<Order>, o: Order)
    ensures Reverse(os + [o]) == [o] + Reverse(os)
    ensures forall u :: UserView(os + [o], u) == (if o.userId == u then [o] else []) + UserView(os, u)
  {
    ReverseAppend(os, o);
    forall u ensures UserView(os + [o], u) == (if o.userId == u then [o] else []) + UserView(os, u) {
      OwnedByAppend(os, o, u);
      if o.userId == u { ReverseAppend(OwnedBy(os, u), o); }
    }
  }

  class MemStorage {
    var users: OrderedMap.Table<User>
    var photographers: OrderedMap.Table<Photographer>
    var products: OrderedMap.Table<ProductType>
    var orders: OrderedMap.Table<Order>
    var orderPhotos: OrderedMap.Table<OrderPhoto>
    /** The fresh-id oracle: the next id to hand out (randomUUID in the source). */
    var nextId: Id
    /** The logical clock: the latest time handed out (`new Date()` in the source). */
    var clock: Time

    ghost predicate Valid()
      reads this
    {
      StoreOk(users, photographers, products, orders, orderPhotos, nextId, clock)
    }

    /** Every photo is attached to a stored order (the foreign key of `order_photos`). */
    ghost predicate Referential()
      reads this
    {
      forall k :: k in orderPhotos.rows ==> orderPhotos.rows[k].orderId in orders.rows
    }

    constructor ()
      ensures Valid() && Referential()
      ensures users.rows == map[] && photographers.rows == map[] && products.rows == map[]
      ensures orders.rows == map[] && orderPhotos.rows == map[]
    {
      users := OrderedMap.Empty();
      photographers := OrderedMap.Empty();
      products := OrderedMap.Empty();
      orders := OrderedMap.Empty();
      orderPhotos := OrderedMap.Empty();
      nextId := 0;
      clock := 0;
    }

    // ------------------------------------------------------------------
    // Users

    function GetUser(id: Id): (r: Option<User>)
      reads this
      requires Valid()
      ensures r.Some? <==> id in users.rows
      ensures r.Some? ==> r.value == users.rows[id] && r.value.id == id
    {
      OrderedMap.Get(users, id)
    }

    /** Some stored user with that username, the first one in insertion order; none if there is none. */
    function GetUserByUsername(name: string): (r: Option<User>)
      reads this
      requires Valid()
      ensures r.None? <==> forall k :: k in users.rows ==> users.rows[k].username != name
      ensures r.Some? ==> r.value in users.rows.Values && r.value.username == name
    {
      var vs := OrderedMap.Values(users);
      var r := Seqs.Find(vs, (u: User) => u.username == name);
      assert r.None? <==> forall k :: k in users.rows ==> users.rows[k].username != name by {
        if r.None? {
          forall k | k in users.rows ensures users.rows[k].username != name {
            var i :| 0 <= i < |users.keys| && users.keys[i] == k;
            assert vs[i] == users.rows[k];
          }
        }
      }
      r
    }

    /** A new user is never an admin, whatever the caller wanted; usernames are not checked for uniqueness here. */
    method CreateUser(ins: InsertUser) returns (u: User)
      requires Valid()
      modifies this
      ensures Valid()
      ensures u.id == old(nextId) && u.id !in old(users.rows) && nextId == old(nextId) + 1
      ensures clock == old(clock) + 1
      ensures u == User(u.id, ins.username, ins.password, DefaultIsAdmin, clock)
      ensures users == OrderedMap.Set(old(users), u.id, u)
      ensures photographers == old(photographers) && products == old(products)
      ensures orders == old(orders) && orderPhotos == old(orderPhotos)
      ensures GetUser(u.id) == Some(u)
    {
      var id := nextId;
      nextId := nextId + 1;
      clock := clock + 1;
      u := User(id, ins.username, ins.password, false, clock);
      users := OrderedMap.Set(users, id, u);
    }

    // ------------------------------------------------------------------
    // Photographers

    function AllPhotographers(): (r: seq<Photographer>)
      reads this
      requires Valid()
      ensures |r| == |photographers.keys|
      ensures forall p :: p in r <==> p in photographers.rows.Values
    {
      OrderedMap.Values(photographers)
    }

    function GetPhotographer(id: Id): (r: Option<Photographer>)
      reads this
      requires Valid()
      ensures r.Some? <==> id in photographers.rows
      ensures r.Some? ==> r.value == photographers.rows[id] && r.value.id == id
    {
      OrderedMap.Get(photographers, id)
    }

    /** The rating defaults to 5 when not given. */
    method CreatePhotographer(ins: InsertPhotographer) returns (p: Photographer)
      requires Valid()
      modifies this
      ensures Valid()
      ensures p.id == old(nextId) && p.id !in old(photographers.rows) && nextId == old(nextId) + 1
      ensures clock == old(clock) + 1 && p.createdAt == clock
      ensures p.name == ins.name && p.photo == ins.photo && p.specialization == ins.specialization
      ensures p.pricePerHour == ins.pricePerHour
      ensures p.rating == (if ins.rating.Some? then ins.rating.value else DefaultRating)
      ensures photographers == OrderedMap.Set(old(photographers), p.id, p)
      ensures users == old(users) && products == old(products)
      ensures orders == old(orders) && orderPhotos == old(orderPhotos)
      ensures GetPhotographer(p.id) == Some(p)
    {
      var id := nextId;
      nextId := nextId + 1;
      clock := clock + 1;
      p := Photographer(id, ins.name, ins.photo, ins.specialization, ins.pricePerHour,
                        ins.rating.GetOr(5), clock);
      photographers := OrderedMap.Set(photographers, id, p);
    }

    // ------------------------------------------------------------------
    // Products

    function AllProducts(): (r: seq<ProductType>)
      reads this
      requires Valid()
      ensures |r| == |products.keys|
      ensures forall p :: p in r <==> p in products.rows.Values
    {
      OrderedMap.Values(products)
    }

    function GetProductByName(name: string): (r: Option<ProductType>)
      reads this
      requires Valid()
      ensures r.None? <==> forall k :: k in products.rows ==> products.rows[k].name != name
      ensures r.Some? ==> r.value in products.rows.Values && r.value.name == name
    {
      var vs := OrderedMap.Values(products);
      var r := Seqs.Find(vs, (p: ProductType) => p.name == name);
      assert r.None? <==> forall k :: k in products.rows ==> products.rows[k].name != name by {
        if r.None? {
          forall k | k in products.rows ensures products.rows[k].name != name {
            var i :| 0 <= i < |products.keys| && products.keys[i] == k;
            assert vs[i] == products.rows[k];
          }
        }
      }
      r
    }

    /** A missing id answers none and changes nothing; otherwise the given fields override the stored ones. */
    method UpdateProduct(id: Id, updates: ProductUpdate) returns (r: Option<ProductType>)
      requires Valid()
      modifies this
      ensures Valid()
      ensures id !in old(products.rows) ==> r.None? && products == old(products)
      ensures id in old(products.rows) ==>
        && r == Some(ApplyUpdate(old(products.rows[id]), updates))
        && products == OrderedMap.Set(old(products), id, r.value)
      ensures users == old(users) && photographers == old(photographers)
      ensures orders == old(orders) && orderPhotos == old(orderPhotos)
      ensures nextId == old(nextId) && clock == old(clock)
    {
      var current := OrderedMap.Get(products, id);
      if current.None? {
        return None;
      }
      var updated := ApplyUpdate(current.value, updates);
      products := OrderedMap.Set(products, id, updated);
      r := Some(updated);
    }

    // ------------------------------------------------------------------
    // Orders

    /** Every stored order, newest first. */
    function AllOrders(): (r: seq<Order>)
      reads this
      requires Valid()
      ensures NewestFirst(r)
      ensures |r| == |orders.keys|
      ensures forall o :: o in r <==> o in orders.rows.Values
    {
      ReverseIsNewestFirst(OrderedMap.Values(orders));
      ReverseMembers(OrderedMap.Values(orders));
      Reverse(OrderedMap.Values(orders))
    }

    /** Exactly the orders of one user, newest first. */
    function OrdersByUser(userId: Id): (r: seq<Order>)
      reads this
      requires Valid()
      ensures NewestFirst(r)
      ensures forall o :: o in r <==> o in orders.rows.Values && o.userId == userId
    {
      var mine := OwnedBy(OrderedMap.Values(orders), userId);
      OwnedByAscending(OrderedMap.Values(orders), userId);
      OwnedByMembers(OrderedMap.Values(orders), userId);
      ReverseIsNewestFirst(mine);
      ReverseMembers(mine);
      UserView(OrderedMap.Values(orders), userId)
    }

    function GetOrder(id: Id): (r: Option<Order>)
      reads this
      requires Valid()
      ensures r.Some? <==> id in orders.rows
      ensures r.Some? ==> r.value == orders.rows[id] && r.value.id == id
    {
      OrderedMap.Get(orders, id)
    }

    /** A new order, as `NewOrder` builds it, under a fresh id and the next clock reading. */
    method CreateOrder(ins: InsertOrder) returns (o: Order)
      requires Valid()
      modifies this
      ensures Valid()
      ensures o.id == old(nextId) && o.id !in old(orders.rows) && nextId == old(nextId) + 1
      ensures clock == old(clock) + 1 && o == NewOrder(old(nextId), ins, clock)
      ensures orders == OrderedMap.Set(old(orders), o.id, o)
      ensures users == old(users) && photographers == old(photographers)
      ensures products == old(products) && orderPhotos == old(orderPhotos)
      ensures GetOrder(o.id) == Some(o)
      ensures OrderedMap.Values(orders) == OrderedMap.Values(old(orders)) + [o]
      ensures old(Referential()) ==> Referential()
    {
      var id := nextId;
      var now := clock + 1;
      o := NewOrder(id, ins, now);
      InsertNewest(users, photographers, products, orders, orderPhotos, nextId, clock, o);
      nextId := nextId + 1;
      clock := now;
      orders := OrderedMap.Set(orders, id, o);
    }

    /**
     * Sets the status verbatim and refreshes `updatedAt`; nothing else changes.
     * An unknown id answers none and leaves every table and the clock alone.
     */
    method UpdateOrderStatus(id: Id, status: string) returns (r: Option<Order>)
      requires Valid()
      modifies this
      ensures Valid()
      ensures id !in old(orders.rows) ==> r.None? && orders == old(orders) && clock == old(clock)
      ensures id in old(orders.rows) ==>
        && clock == old(clock) + 1
        && r == Some(old(orders.rows[id]).(status := status, updatedAt := clock))
        && orders == OrderedMap.Set(old(orders), id, r.value)
        && orders.keys == old(orders.keys)
      ensures id in old(orders.rows) && old(orders.rows[id].status) == status ==>
        r == Some(old(orders.rows[id]).(updatedAt := clock))
      ensures users == old(users) && photographers == old(photographers)
      ensures products == old(products) && orderPhotos == old(orderPhotos)
      ensures nextId == old(nextId)
      ensures old(Referential()) ==> Referential()
    {
      var found := OrderedMap.Get(orders, id);
      if found.None? {
        return None;
      }
      var updated := found.value.(status := status, updatedAt := clock + 1);
      ghost var i :| 0 <= i < |orders.keys| && orders.keys[i] == id;
      RestampOrder(users, photographers, products, orders, orderPhotos, nextId, clock, i, updated);
      clock := clock + 1;
      orders := OrderedMap.Set(orders, id, updated);
      r := Some(updated);
    }

    // ------------------------------------------------------------------
    // Order photos

    /** The photos attached to an order, in the order they were added. */
    function OrderPhotos(orderId: Id): (r: seq<OrderPhoto>)
      reads this
      requires Valid()
      ensures forall p :: p in r <==> p in orderPhotos.rows.Values && p.orderId == orderId
    {
      ForOrderMembers(OrderedMap.Values(orderPhotos), orderId);
      OrderedMap.ValuesMembers(orderPhotos);
      ForOrder(OrderedMap.Values(orderPhotos), orderId)
    }

    /** While photos only reference stored orders, an order not yet stored has no photos. */
    lemma UnknownOrderHasNoPhotos(id: Id)
      requires Valid() && Referential() && id !in orders.rows
      ensures OrderPhotos(id) == []
    {
      var ps := OrderedMap.Values(orderPhotos);
      forall i | 0 <= i < |ps| ensures ps[i].orderId != id {
        assert ps[i] == orderPhotos.rows[orderPhotos.keys[i]];
      }
      ForOrderNone(ps, id);
    }

    /**
     * Attaches one photo under a fresh id; it goes at the end of the photo table
     * (`PhotosAfterInsert` says what that does to each order's photo list).
     */
    method AddOrderPhoto(ins: InsertOrderPhoto) returns (p: OrderPhoto)
      requires Valid()
      modifies this
      ensures Valid()
      ensures p.id == old(nextId) && p.id !in old(orderPhotos.rows) && nextId == old(nextId) + 1
      ensures clock == old(clock) + 1
      ensures p == OrderPhoto(p.id, ins.orderId, ins.photoPath, clock)
      ensures orderPhotos == OrderedMap.Set(old(orderPhotos), p.id, p)
      ensures OrderedMap.Values(orderPhotos) == OrderedMap.Values(old(orderPhotos)) + [p]
      ensures users == old(users) && photographers == old(photographers)
      ensures products == old(products) && orders == old(orders)
      ensures old(Referential()) && ins.orderId in orders.rows ==> Referential()
    {
      var id := nextId;
      p := OrderPhoto(id, ins.orderId, ins.photoPath, clock + 1);
      InsertPhoto(users, photographers, products, orders, orderPhotos, nextId, clock, p);
      nextId := nextId + 1;
      clock := clock + 1;
      orderPhotos := OrderedMap.Set(orderPhotos, id, p);
    }
  }
}
