/**
 * The five tables of the store (users, photographers, product types, orders,
 * order photos), their column defaults, the insert shapes accepted from
 * callers, and the product configuration variants.
 */
module Schema {
  import opened Wrappers
  import OrderedMap
  import IsoDate

  /** Primary keys. The store issues them; callers cannot choose them. */
  type Id = OrderedMap.Key

  /** A reading of the logical clock that stands for `new Date()`. */
  type Time = nat

  /** The instant picked for a photo shoot (a `timestamp` column). */
  type Date = IsoDate.Date

  /** A latitude/longitude pair, carried around but never computed with. */
  datatype Coordinates = Coordinates(lat: real, lng: real)

  // ---------------------------------------------------------------------
  // Column defaults

  const DefaultIsAdmin: bool := false
  const DefaultRating: int := 5
  const DefaultStatus: string := "pending"

  /** The statuses the pipeline is designed around, in pipeline order. */
  const OrderStatuses: seq<string> := ["pending", "processing", "ready", "delivered"]

  // ---------------------------------------------------------------------
  // Rows

  datatype User = User(id: Id, username: string, password: string, isAdmin: bool, createdAt: Time)

  datatype Photographer = Photographer(
    id: Id, name: string, photo: string, specialization: string,
    pricePerHour: int, rating: int, createdAt: Time)

  datatype ProductType = ProductType(
    id: Id, name: string, displayName: string, description: string,
    basePrice: int, image: string, createdAt: Time)

  datatype Order = Order(
    id: Id,
    userId: Id,
    productType: string,
    status: string,
    totalPrice: int,
    productConfig: ProductConfig,
    photoSource: string,
    photographerId: Option<Id>,
    shootingDate: Option<Date>,
    shootingTime: Option<string>,
    shootingLocation: Option<string>,
    shootingCoordinates: Option<Coordinates>,
    createdAt: Time,
    updatedAt: Time)

  datatype OrderPhoto = OrderPhoto(id: Id, orderId: Id, photoPath: string, uploadedAt: Time)

  // ---------------------------------------------------------------------
  // Insert shapes: the columns a caller may supply

  datatype InsertUser = InsertUser(username: string, password: string)

  datatype InsertPhotographer = InsertPhotographer(
    name: string, photo: string, specialization: string, pricePerHour: int, rating: Option<int>)

  datatype InsertOrder = InsertOrder(
    userId: Id,
    productType: string,
    status: Option<string>,
    totalPrice: int,
    productConfig: ProductConfig,
    photoSource: string,
    photographerId: Option<Id>,
    shootingDate: Option<Date>,
    shootingTime: Option<string>,
    shootingLocation: Option<string>,
    shootingCoordinates: Option<Coordinates>)

  datatype InsertOrderPhoto = InsertOrderPhoto(orderId: Id, photoPath: string)

  /** A partial update of a catalog entry: absent fields are kept. */
  datatype ProductUpdate = ProductUpdate(
    displayName: Option<string>, description: Option<string>,
    basePrice: Option<int>, image: Option<string>)

  /** `{ ...product, ...updates }` */
  function ApplyUpdate(p: ProductType, u: ProductUpdate): (r: ProductType)
    ensures r.displayName == (if u.displayName.Some? then u.displayName.value else p.displayName)
    ensures r.description == (if u.description.Some? then u.description.value else p.description)
    ensures r.basePrice == (if u.basePrice.Some? then u.basePrice.value else p.basePrice)
    ensures r.image == (if u.image.Some? then u.image.value else p.image)
    ensures r.id == p.id && r.name == p.name && r.createdAt == p.createdAt
  {
    p.(displayName := u.displayName.GetOr(p.displayName),
       description := u.description.GetOr(p.description),
       basePrice := u.basePrice.GetOr(p.basePrice),
       image := u.image.GetOr(p.image))
  }

  lemma ApplyEmptyUpdate(p: ProductType)
    ensures ApplyUpdate(p, ProductUpdate(None, None, None, None)) == p
  {
  }

  // ---------------------------------------------------------------------
  // Request bodies and the insert schemas that validate them

  /** A registration body as received: it may carry any of the user columns. */
  datatype UserBody = UserBody(username: Option<string>, password: Option<string>, isAdmin: Option<bool>)

  /** The user insert schema picks `username` and `password` and nothing else. */
  function ParseInsertUser(b: UserBody): (r: Option<InsertUser>)
    ensures r.Some? <==> b.username.Some? && b.password.Some?
    ensures r.Some? ==> r.value.username == b.username.value && r.value.password == b.password.value
  {
    if b.username.Some? && b.password.Some? then Some(InsertUser(b.username.value, b.password.value)) else None
  }

  /** Whatever `isAdmin` a registration body carries, the parsed insert is the same. */
  lemma {:induction false} IsAdminNotSettable(b: UserBody, flag: Option<bool>)
    ensures ParseInsertUser(b.(isAdmin := flag)) == ParseInsertUser(b)
  {
  }

  /**
   * An order body as received: every column may be present or absent. The
   * body arrives as JSON, so the shooting date is the text the client wrote.
   */
  datatype OrderBody = OrderBody(
    id: Option<Id>,
    userId: Option<Id>,
    productType: Option<string>,
    status: Option<string>,
    totalPrice: Option<int>,
    productConfig: Option<ProductConfig>,
    photoSource: Option<string>,
    photographerId: Option<Id>,
    shootingDate: Option<string>,
    shootingTime: Option<string>,
    shootingLocation: Option<string>,
    shootingCoordinates: Option<Coordinates>,
    createdAt: Option<Time>,
    updatedAt: Option<Time>)

  /**
   * The order insert schema as it is generated from the table: every column
   * except `id`, `createdAt` and `updatedAt`. The not-null columns without a
   * default are required; the rest may be absent. The `timestamp` column
   * `shooting_date` accepts only a date object, which a JSON body cannot
   * carry, so a body with a shooting date is refused.
   */
  function ParseInsertOrderAsWritten(b: OrderBody): (r: Option<InsertOrder>)
    ensures r.Some? <==>
      && b.userId.Some? && b.productType.Some? && b.totalPrice.Some? && b.productConfig.Some? && b.photoSource.Some?
      && b.shootingDate.None?
    ensures r.Some? ==> r.value.shootingDate.None?
  {
    if b.userId.Some? && b.productType.Some? && b.totalPrice.Some? && b.productConfig.Some? && b.photoSource.Some?
       && b.shootingDate.None? then
      Some(InsertOrder(
        b.userId.value, b.productType.value, b.status, b.totalPrice.value, b.productConfig.value,
        b.photoSource.value, b.photographerId, None, b.shootingTime, b.shootingLocation,
        b.shootingCoordinates))
    else
      None
  }

  /**
   * The order insert schema with the shooting date read from its ISO text
   * (as a coercing date field does): the same as the generated schema, except
   * that a shooting date is accepted when it is an instant in ISO format.
   */
  function ParseInsertOrder(b: OrderBody): (r: Option<InsertOrder>)
    ensures r.Some? <==>
      && b.userId.Some? && b.productType.Some? && b.totalPrice.Some? && b.productConfig.Some? && b.photoSource.Some?
      && (b.shootingDate.Some? ==> IsoDate.Parse(b.shootingDate.value).Some?)
    ensures r.Some? ==>
      && r.value.userId == b.userId.value
      && r.value.productType == b.productType.value
      && r.value.status == b.status
      && r.value.totalPrice == b.totalPrice.value
      && r.value.productConfig == b.productConfig.value
      && r.value.photoSource == b.photoSource.value
      && r.value.photographerId == b.photographerId
      && (b.shootingDate.None? ==> r.value.shootingDate.None?)
      && (b.shootingDate.Some? ==> r.value.shootingDate == IsoDate.Parse(b.shootingDate.value))
      && r.value.shootingTime == b.shootingTime
      && r.value.shootingLocation == b.shootingLocation
      && r.value.shootingCoordinates == b.shootingCoordinates
  {
    var date := if b.shootingDate.Some? then IsoDate.Parse(b.shootingDate.value) else None;
    if b.userId.Some? && b.productType.Some? && b.totalPrice.Some? && b.productConfig.Some? && b.photoSource.Some?
       && (b.shootingDate.Some? ==> date.Some?) then
      Some(InsertOrder(
        b.userId.value, b.productType.value, b.status, b.totalPrice.value, b.productConfig.value,
        b.photoSource.value, b.photographerId, date, b.shootingTime, b.shootingLocation,
        b.shootingCoordinates))
    else
      None
  }

  /** On a body without a shooting date the two schemas agree; with one, only the generated schema refuses it. */
  lemma {:induction false} AsWrittenDiffersOnlyOnDates(b: OrderBody)
    ensures b.shootingDate.None? ==> ParseInsertOrderAsWritten(b) == ParseInsertOrder(b)
    ensures b.shootingDate.Some? ==> ParseInsertOrderAsWritten(b).None?
  {
  }

  /** A caller cannot set `id`, `createdAt` or `updatedAt` through the order insert schema. */
  lemma {:induction false} OrderKeysNotSettable(b: OrderBody, id: Option<Id>, created: Option<Time>, updated: Option<Time>)
    ensures ParseInsertOrder(b.(id := id, createdAt := created, updatedAt := updated)) == ParseInsertOrder(b)
  {
  }

  // ---------------------------------------------------------------------
  // Cascade on delete

  /**
   * Deleting an order deletes the photos attached to it
   * (`order_photos.order_id` references `orders.id` with `on delete cascade`).
   */
  function DeleteOrderCascade(orders: map<Id, Order>, photos: map<Id, OrderPhoto>, orderId: Id)
    : (r: (map<Id, Order>, map<Id, OrderPhoto>))
    ensures r.0.Keys == orders.Keys - {orderId}
    ensures forall k :: k in r.0 ==> r.0[k] == orders[k]
    ensures forall k :: k in r.1 <==> k in photos && photos[k].orderId != orderId
    ensures forall k :: k in r.1 ==> r.1[k] == photos[k]
  {
    (orders - {orderId}, map k | k in photos && photos[k].orderId != orderId :: photos[k])
  }

  /**
   * The cascade keeps the foreign key: when every photo refers to a stored
   * order before the delete, every remaining photo refers to a remaining
   * order, and none of the deleted order's photos is left.
   */
  lemma CascadeKeepsReferences(orders: map<Id, Order>, photos: map<Id, OrderPhoto>, orderId: Id)
    requires forall k :: k in photos ==> photos[k].orderId in orders
    ensures forall k :: k in DeleteOrderCascade(orders, photos, orderId).1 ==>
      DeleteOrderCascade(orders, photos, orderId).1[k].orderId in DeleteOrderCascade(orders, photos, orderId).0
    ensures forall k :: k in DeleteOrderCascade(orders, photos, orderId).1 ==>
      DeleteOrderCascade(orders, photos, orderId).1[k].orderId != orderId
  {
    var r := DeleteOrderCascade(orders, photos, orderId);
    forall k | k in r.1 ensures r.1[k].orderId in r.0 && r.1[k].orderId != orderId {
      assert r.1[k] == photos[k];
    }
  }

  // ---------------------------------------------------------------------
  // Product configurations

  datatype AlbumSize = Small | Medium | Large
  datatype CoverType = Soft | Hard | Premium
  datatype PaperType = Matte | Glossy
  datatype PrintSize = Size10x15 | Size15x20 | Size20x30
  datatype CalendarType = Wall | Desk
  datatype CalendarSize = A4 | A3
  datatype Months = Six | Twelve
  datatype Binding = Spiral | Glued

  /** The number a `months` option stands for. */
  function MonthCount(m: Months): (n: nat)
    ensures n == 6 || n == 12
    ensures (n == 12) <==> m == Twelve
  {
    match m
    case Six => 6
    case Twelve => 12
  }

  datatype PhotoalbumConfig = PhotoalbumConfig(size: AlbumSize, coverType: CoverType, pages: int, paperType: PaperType)
  datatype PhotosConfig = PhotosConfig(size: PrintSize, quantity: int, paperType: PaperType, border: bool)
  datatype CalendarConfig = CalendarConfig(calendarType: CalendarType, size: CalendarSize, months: Months, binding: Binding)

  datatype ProductConfig =
    | AlbumConfig(album: PhotoalbumConfig)
    | PrintsConfig(prints: PhotosConfig)
    | CalConfig(calendar: CalendarConfig)
      /** The empty object `{}`, sent when nothing was configured. */
    | EmptyConfig
}
