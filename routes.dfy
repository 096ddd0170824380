/**
 * The request rules of the order API, layered on the in-memory storage:
 * the authentication and admin guards, the order listing, order creation
 * with its photo-attaching loop, the owner-or-admin check on one order and
 * the admin status update with its 400/404 paths.
 */
module Routes {
  import opened Wrappers
  import opened Schema
  import OrderedMap
  import Storage

  /** The passport session of a request: nobody, or a signed-in user. */
  datatype Session = Anonymous | Authenticated(user: User)

  /** What a handler sends back: a JSON body, or an error status code. */
  datatype Response<T> = Ok(body: T) | Fail(code: nat)

  const BadRequest: nat := 400
  const Unauthorized: nat := 401
  const Forbidden: nat := 403
  const NotFound: nat := 404

  // ---------------------------------------------------------------------
  // Guards

  /** `requireAuth`: the handler runs for a signed-in user; anybody else gets 401. */
  function RequireAuth(s: Session): (r: Response<User>)
    ensures r.Ok? <==> s.Authenticated?
    ensures r.Ok? ==> r.body == s.user
    ensures r.Fail? ==> r.code == Unauthorized
  {
    match s
    case Anonymous => Fail(401)
    case Authenticated(u) => Ok(u)
  }

  /** `requireAdmin`: the handler runs for a signed-in admin; a guest or a plain user gets 403. */
  function RequireAdmin(s: Session): (r: Response<User>)
    ensures r.Ok? <==> s.Authenticated? && s.user.isAdmin
    ensures r.Ok? ==> r.body == s.user
    ensures r.Fail? ==> r.code == Forbidden
  {
    if s.Authenticated? && s.user.isAdmin then Ok(s.user) else Fail(403)
  }

  /** Every request the admin guard lets through, the authentication guard lets through too. */
  lemma AdminImpliesAuth(s: Session)
    ensures RequireAdmin(s).Ok? ==> RequireAuth(s) == RequireAdmin(s)
  {
  }

  // ---------------------------------------------------------------------
  // GET /api/orders

  /** The caller's own orders, newest first; a guest gets 401. */
  function GetMyOrders(st: Storage.MemStorage, s: Session): (r: Response<seq<Order>>)
    reads st
    requires st.Valid()
    ensures r.Fail? <==> s.Anonymous?
    ensures r.Fail? ==> r.code == Unauthorized
    ensures r.Ok? ==> Storage.NewestFirst(r.body)
    ensures r.Ok? ==> forall o :: o in r.body <==> o in st.orders.rows.Values && o.userId == s.user.id
  {
    match RequireAuth(s)
    case Fail(code) => Fail(code)
    case Ok(user) => Ok(st.OrdersByUser(user.id))
  }

  // ---------------------------------------------------------------------
  // POST /api/orders

  /** The `uploadedPhotoPaths` field of the request body. */
  datatype PhotoPathsField = Absent | NotArray | Paths(paths: seq<string>)

  /** The paths the handler attaches: the array's elements, or none when the field is absent or not an array. */
  function AttachedPaths(f: PhotoPathsField): (r: seq<string>)
    ensures f.Paths? ==> r == f.paths
    ensures !f.Paths? ==> r == []
  {
    match f
    case Paths(ps) => ps
    case _ => []
  }

  /** One more photo carrying the next path extends the attached paths by that path. */
  lemma AttachStep(start: seq<OrderPhoto>, mine: seq<OrderPhoto>, photo: OrderPhoto, paths: seq<string>, i: nat)
    requires i < |paths| && photo.photoPath == paths[i]
    requires Storage.PhotoPaths(mine) == Storage.PhotoPaths(start) + paths[..i]
    ensures Storage.PhotoPaths(mine + [photo]) == Storage.PhotoPaths(start) + paths[..i + 1]
  {
    Storage.PhotoPathsAppend(mine, [photo]);
    assert paths[..i + 1] == paths[..i] + [paths[i]];
  }

  /**
   * The handler's `for` loop: one `addOrderPhoto` per path, in order, each
   * carrying the order's id. Photos of other orders and every other table stay as they were.
   */
  method AttachPhotos(st: Storage.MemStorage, orderId: Id, paths: seq<string>)
    requires st.Valid()
    modifies st
    ensures st.Valid()
    ensures Storage.PhotoPaths(st.OrderPhotos(orderId)) == Storage.PhotoPaths(old(st.OrderPhotos(orderId))) + paths
    ensures forall x :: x != orderId ==> st.OrderPhotos(x) == old(st.OrderPhotos(x))
    ensures st.orders == old(st.orders) && st.users == old(st.users)
    ensures st.photographers == old(st.photographers) && st.products == old(st.products)
    ensures st.nextId == old(st.nextId) + |paths| && st.clock == old(st.clock) + |paths|
    ensures old(st.Referential()) && orderId in st.orders.rows ==> st.Referential()
  {
    ghost var start := st.OrderPhotos(orderId);
    var i := 0;
    while i < |paths|
      invariant 0 <= i <= |paths|
      invariant st.Valid()
      invariant st.orders == old(st.orders) && st.users == old(st.users)
      invariant st.photographers == old(st.photographers) && st.products == old(st.products)
      invariant st.nextId == old(st.nextId) + i && st.clock == old(st.clock) + i
      invariant Storage.PhotoPaths(st.OrderPhotos(orderId)) == Storage.PhotoPaths(start) + paths[..i]
      invariant forall x :: x != orderId ==> st.OrderPhotos(x) == old(st.OrderPhotos(x))
      invariant old(st.Referential()) && orderId in st.orders.rows ==> st.Referential()
    {
      ghost var mine := st.OrderPhotos(orderId);
      ghost var before := OrderedMap.Values(st.orderPhotos);
      var photo := st.AddOrderPhoto(InsertOrderPhoto(orderId, paths[i]));
      Storage.PhotosAfterInsert(before, photo);
      assert photo.photoPath == paths[i] && st.OrderPhotos(orderId) == mine + [photo];
      AttachStep(start, mine, photo, paths, i);
      i := i + 1;
    }
    assert paths[..i] == paths;
  }

  /**
   * The handler's success path: `createOrder`, then one photo per path. The
   * stored row is `NewOrder`'s under the id and clock reading handed out
   * first; the photos take the ids and readings after it.
   */
  method CreateWithPhotos(st: Storage.MemStorage, ins: InsertOrder, paths: seq<string>) returns (o: Order)
    requires st.Valid()
    modifies st
    ensures st.Valid()
    ensures o == Storage.NewOrder(old(st.nextId), ins, old(st.clock) + 1)
    ensures o.id !in old(st.orders.rows)
    ensures st.orders == OrderedMap.Set(old(st.orders), o.id, o) && st.GetOrder(o.id) == Some(o)
    ensures st.nextId == old(st.nextId) + 1 + |paths| && st.clock == old(st.clock) + 1 + |paths|
    ensures Storage.PhotoPaths(st.OrderPhotos(o.id)) == Storage.PhotoPaths(old(st.OrderPhotos(o.id))) + paths
    ensures forall x :: x != o.id ==> st.OrderPhotos(x) == old(st.OrderPhotos(x))
    ensures old(st.Referential()) ==> st.Referential() && Storage.PhotoPaths(st.OrderPhotos(o.id)) == paths
    ensures st.users == old(st.users) && st.photographers == old(st.photographers)
    ensures st.products == old(st.products)
  {
    ghost var wasReferential := st.Referential();
    ghost var created := Storage.NewOrder(st.nextId, ins, st.clock + 1);
    if wasReferential {
      st.UnknownOrderHasNoPhotos(st.nextId);
    }
    o := st.CreateOrder(ins);
    assert o == created;
    AttachPhotos(st, o.id, paths);
  }

  /**
   * Creates an order for the signed-in user and attaches one photo per
   * uploaded path, in array order. The user id always comes from the
   * session, whatever the body says. A guest gets 401 and a body the insert
   * schema rejects gets 400; neither changes the storage.
   */
  method PostOrder(st: Storage.MemStorage, s: Session, body: OrderBody, uploaded: PhotoPathsField)
    returns (r: Response<Order>)
    requires st.Valid()
    modifies st
    ensures st.Valid()
    ensures s.Anonymous? ==> r == Fail(Unauthorized) && unchanged(st)
    ensures s.Authenticated? && ParseInsertOrder(body.(userId := Some(s.user.id))).None? ==>
      r == Fail(BadRequest) && unchanged(st)
    ensures r.Ok? <==> s.Authenticated? && ParseInsertOrder(body.(userId := Some(s.user.id))).Some?
    ensures r.Ok? ==>
      && r.body.userId == s.user.id
      && r.body.id == old(st.nextId)
      && r.body.id !in old(st.orders.rows)
      && st.orders == OrderedMap.Set(old(st.orders), r.body.id, r.body)
      && st.GetOrder(r.body.id) == Some(r.body)
    ensures r.Ok? ==>
      && r.body == Storage.NewOrder(old(st.nextId), ParseInsertOrder(body.(userId := Some(s.user.id))).value,
                                    old(st.clock) + 1)
      && st.nextId == old(st.nextId) + 1 + |AttachedPaths(uploaded)|
      && st.clock == old(st.clock) + 1 + |AttachedPaths(uploaded)|
    ensures r.Ok? ==>
      Storage.PhotoPaths(st.OrderPhotos(r.body.id))
        == Storage.PhotoPaths(old(st.OrderPhotos(r.body.id))) + AttachedPaths(uploaded)
    ensures r.Ok? ==> forall x :: x != r.body.id ==> st.OrderPhotos(x) == old(st.OrderPhotos(x))
    ensures r.Ok? && old(st.Referential()) ==>
      st.Referential() && Storage.PhotoPaths(st.OrderPhotos(r.body.id)) == AttachedPaths(uploaded)
    ensures st.users == old(st.users) && st.photographers == old(st.photographers)
    ensures st.products == old(st.products)
  {
    if s.Anonymous? {
      return Fail(Unauthorized);
    }
    var parsed := ParseInsertOrder(body.(userId := Some(s.user.id)));
    if parsed.None? {
      return Fail(BadRequest);
    }
    var order := CreateWithPhotos(st, parsed.value, AttachedPaths(uploaded));
    r := Ok(order);
  }

  /**
   * Where the route as written differs from `PostOrder`: the generated schema
   * refuses every body of a signed-in user that carries a shooting date, so
   * the handler as written answers 400 to it. On a body without a date the
   * generated schema decides exactly as `PostOrder`'s, so there the route
   * as written answers what `PostOrder` answers.
   */
  lemma PostOrderAsWritten(s: Session, body: OrderBody)
    requires s.Authenticated?
    ensures body.shootingDate.Some? ==> ParseInsertOrderAsWritten(body.(userId := Some(s.user.id))).None?
    ensures body.shootingDate.None? ==>
      ParseInsertOrderAsWritten(body.(userId := Some(s.user.id))) == ParseInsertOrder(body.(userId := Some(s.user.id)))
  {
    AsWrittenDiffersOnlyOnDates(body.(userId := Some(s.user.id)));
  }

  // ---------------------------------------------------------------------
  // GET /api/orders/:id

  /** One order: 404 when it does not exist, 403 unless the caller owns it or is an admin. */
  function GetOrderById(st: Storage.MemStorage, s: Session, id: Id): (r: Response<Order>)
    reads st
    requires st.Valid()
    ensures s.Anonymous? ==> r == Fail(Unauthorized)
    ensures s.Authenticated? && id !in st.orders.rows ==> r == Fail(NotFound)
    ensures s.Authenticated? && id in st.orders.rows ==>
      (r.Ok? <==> st.orders.rows[id].userId == s.user.id || s.user.isAdmin)
    ensures s.Authenticated? && id in st.orders.rows && r.Fail? ==> r.code == Forbidden
    ensures r.Ok? ==> r.body == st.orders.rows[id] && r.body.id == id
  {
    match RequireAuth(s)
    case Fail(code) => Fail(code)
    case Ok(user) =>
      match st.GetOrder(id)
      case None => Fail(NotFound)
      case Some(order) =>
        if order.userId != user.id && !user.isAdmin then Fail(Forbidden) else Ok(order)
  }

  // ---------------------------------------------------------------------
  // PATCH /api/admin/orders/:id/status

  /** JavaScript truthiness of the `status` field: present and not the empty string. */
  predicate Truthy(status: Option<string>) {
    status.Some? && status.value != ""
  }

  /**
   * The admin status update. A non-admin gets 403, a falsy status 400 and an
   * unknown order 404, none of them changing anything. Any other status
   * string is stored as given: it is not checked against the four statuses
   * the dashboard offers.
   */
  method PatchOrderStatus(st: Storage.MemStorage, s: Session, id: Id, status: Option<string>)
    returns (r: Response<Order>)
    requires st.Valid()
    modifies st
    ensures st.Valid()
    ensures RequireAdmin(s).Fail? ==> r == Fail(Forbidden) && unchanged(st)
    ensures RequireAdmin(s).Ok? && !Truthy(status) ==> r == Fail(BadRequest) && unchanged(st)
    ensures RequireAdmin(s).Ok? && Truthy(status) && id !in old(st.orders.rows) ==>
      r == Fail(NotFound) && st.orders == old(st.orders) && st.clock == old(st.clock)
    ensures r.Ok? <==> RequireAdmin(s).Ok? && Truthy(status) && id in old(st.orders.rows)
    ensures r.Ok? ==>
      && r.body == old(st.orders.rows[id]).(status := status.value, updatedAt := st.clock)
      && st.orders == OrderedMap.Set(old(st.orders), id, r.body)
      && st.clock == old(st.clock) + 1
    ensures st.users == old(st.users) && st.photographers == old(st.photographers)
    ensures st.products == old(st.products) && st.orderPhotos == old(st.orderPhotos)
    ensures st.nextId == old(st.nextId)
    ensures old(st.Referential()) ==> st.Referential()
  {
    if RequireAdmin(s).Fail? {
      return Fail(Forbidden);
    }
    if !Truthy(status) {
      return Fail(BadRequest);
    }
    var updated := st.UpdateOrderStatus(id, status.value);
    if updated.None? {
      return Fail(NotFound);
    }
    r := Ok(updated.value);
  }
}
