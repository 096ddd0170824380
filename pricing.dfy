/**
 * The client-side price calculator of the product configuration page and the
 * page's choice of which configuration a product tag prices.
 */
module Pricing {
  import opened Schema

  // ---------------------------------------------------------------------
  // The published price tables, one entry per option

  function AlbumSizeExtra(s: AlbumSize): int {
    match s
    case Small => 0
    case Medium => 500
    case Large => 1000
  }

  function CoverExtra(c: CoverType): int {
    match c
    case Soft => 0
    case Hard => 300
    case Premium => 800
  }

  function AlbumPaperExtra(p: PaperType): int {
    match p
    case Matte => 0
    case Glossy => 200
  }

  /** The per-print price a print size sets (an absolute value, not a surcharge). */
  function PrintBaseUnit(s: PrintSize): int {
    match s
    case Size10x15 => 10
    case Size15x20 => 15
    case Size20x30 => 25
  }

  // ---------------------------------------------------------------------
  // The calculator, following the order of the source's updates

  function AlbumPrice(c: PhotoalbumConfig): (price: int)
    ensures price == 500 + AlbumSizeExtra(c.size) + CoverExtra(c.coverType) + 50 * c.pages + AlbumPaperExtra(c.paperType)
  {
    var p0 := 500;
    var p1 := if c.size == Medium then p0 + 500 else p0;
    var p2 := if c.size == Large then p1 + 1000 else p1;
    var p3 := if c.coverType == Hard then p2 + 300 else p2;
    var p4 := if c.coverType == Premium then p3 + 800 else p3;
    var p5 := p4 + c.pages * 50;
    if c.paperType == Glossy then p5 + 200 else p5
  }

  /** The price of one print: the size sets it, glossy paper and a border add to it. */
  function PrintUnit(c: PhotosConfig): (unit: int)
    ensures unit == PrintBaseUnit(c.size) + (if c.paperType == Glossy then 3 else 0) + (if c.border then 2 else 0)
    ensures 10 <= unit <= 30
  {
    var u0 := 10;
    var u1 := if c.size == Size15x20 then 15 else u0;
    var u2 := if c.size == Size20x30 then 25 else u1;
    var u3 := if c.paperType == Glossy then u2 + 3 else u2;
    if c.border then u3 + 2 else u3
  }

  function PrintsPrice(c: PhotosConfig): (price: int)
    ensures price == (PrintBaseUnit(c.size) + (if c.paperType == Glossy then 3 else 0) + (if c.border then 2 else 0)) * c.quantity
    ensures c.quantity >= 0 ==> 10 * c.quantity <= price <= 30 * c.quantity
  {
    PrintUnit(c) * c.quantity
  }

  function CalendarPrice(c: CalendarConfig): (price: int)
    ensures price == 600 + (if c.calendarType == Wall then 200 else 0) + (if c.size == A3 then 300 else 0)
                         + (if MonthCount(c.months) == 12 then 200 else 0) + (if c.binding == Spiral then 150 else 0)
    ensures 600 <= price <= 1450
  {
    var p0 := 600;
    var p1 := if c.calendarType == Wall then p0 + 200 else p0;
    var p2 := if c.size == A3 then p1 + 300 else p1;
    var p3 := if MonthCount(c.months) == 12 then p2 + 200 else p2;
    if c.binding == Spiral then p3 + 150 else p3
  }

  /** Tags priced by the prints rule. */
  predicate IsPrintsTag(tag: string) {
    tag == "photos" || tag == "prints"
  }

  /**
   * The configuration variant a tag is priced as: the calculator casts its
   * argument to the variant its tag selects, so a caller must pass that one.
   */
  predicate ConfigFits(tag: string, config: ProductConfig) {
    if tag == "photoalbum" then config.AlbumConfig?
    else if IsPrintsTag(tag) then config.PrintsConfig?
    else config.CalConfig?
  }

  /** `calculatePrice(productType, config)`: any tag that is neither an album nor prints is priced as a calendar. */
  function CalculatePrice(tag: string, config: ProductConfig): (price: int)
    requires ConfigFits(tag, config)
    ensures tag == "photoalbum" ==> price == AlbumPrice(config.album)
    ensures IsPrintsTag(tag) ==> price == PrintsPrice(config.prints)
    ensures tag != "photoalbum" && !IsPrintsTag(tag) ==> price == CalendarPrice(config.calendar)
  {
    if tag == "photoalbum" then AlbumPrice(config.album)
    else if IsPrintsTag(tag) then PrintsPrice(config.prints)
    else CalendarPrice(config.calendar)
  }

  // ---------------------------------------------------------------------
  // Properties of the calculator

  /** "photos" and "prints" are two names for one product. */
  lemma PhotosAndPrintsAgree(c: PhotosConfig)
    ensures CalculatePrice("photos", PrintsConfig(c)) == CalculatePrice("prints", PrintsConfig(c)) == PrintsPrice(c)
  {
  }

  /** The prints price is linear in the quantity. */
  lemma {:induction false} PrintsLinearInQuantity(c: PhotosConfig, q1: int, q2: int)
    ensures PrintsPrice(c.(quantity := q1 + q2)) == PrintsPrice(c.(quantity := q1)) + PrintsPrice(c.(quantity := q2))
  {
    var u := PrintUnit(c);
    assert PrintUnit(c.(quantity := q1 + q2)) == u && PrintUnit(c.(quantity := q1)) == u && PrintUnit(c.(quantity := q2)) == u;
    assert u * (q1 + q2) == u * q1 + u * q2;
  }

  /** Each album page adds exactly 50. */
  lemma AlbumPageCost(c: PhotoalbumConfig)
    ensures AlbumPrice(c.(pages := c.pages + 1)) == AlbumPrice(c) + 50
  {
  }

  /** More pages never cost less. */
  lemma AlbumPagesMonotone(c: PhotoalbumConfig, p1: int, p2: int)
    requires p1 <= p2
    ensures AlbumPrice(c.(pages := p1)) <= AlbumPrice(c.(pages := p2))
  {
  }

  /** More prints never cost less. */
  lemma {:induction false} PrintsQuantityMonotone(c: PhotosConfig, q1: int, q2: int)
    requires q1 <= q2
    ensures PrintsPrice(c.(quantity := q1)) <= PrintsPrice(c.(quantity := q2))
  {
    PrintsLinearInQuantity(c, q1, q2 - q1);
    assert q1 + (q2 - q1) == q2;
    assert PrintsPrice(c.(quantity := q2 - q1)) >= 0 by {
      assert PrintUnit(c.(quantity := q2 - q1)) >= 10;
    }
  }

  /** No configuration with a non-negative page count and quantity has a negative price. */
  lemma PriceNonNegative(tag: string, config: ProductConfig)
    requires ConfigFits(tag, config)
    requires config.AlbumConfig? ==> config.album.pages >= 0
    requires config.PrintsConfig? ==> config.prints.quantity >= 0
    ensures CalculatePrice(tag, config) >= 0
  {
  }

  /** The worked examples: an album with 30 pages, 10 large bordered glossy prints, the most expensive calendar. */
  lemma WorkedExamples()
    ensures CalculatePrice("photoalbum", AlbumConfig(PhotoalbumConfig(Medium, Hard, 30, Glossy))) == 3000
    ensures CalculatePrice("photos", PrintsConfig(PhotosConfig(Size20x30, 10, Glossy, true))) == 300
    ensures CalculatePrice("calendar", CalConfig(CalendarConfig(Wall, A3, Twelve, Spiral))) == 1450
  {
  }

  // ---------------------------------------------------------------------
  // The configuration page

  /** The three configurations the page holds, one per product. */
  datatype PageConfigs = PageConfigs(album: PhotoalbumConfig, photos: PhotosConfig, calendar: CalendarConfig)

  /** The page's initial configurations. */
  const InitialConfigs: PageConfigs := PageConfigs(
    PhotoalbumConfig(Medium, Hard, 20, Glossy),
    PhotosConfig(Size10x15, 10, Glossy, false),
    CalendarConfig(Wall, A4, Twelve, Spiral))

  /** `getCurrentConfig()`: the configuration the tag selects, always one the calculator accepts. */
  function CurrentConfig(tag: string, cfgs: PageConfigs): (c: ProductConfig)
    ensures ConfigFits(tag, c)
    ensures tag == "photoalbum" ==> c == AlbumConfig(cfgs.album)
    ensures IsPrintsTag(tag) ==> c == PrintsConfig(cfgs.photos)
    ensures tag != "photoalbum" && !IsPrintsTag(tag) ==> c == CalConfig(cfgs.calendar)
  {
    if tag == "photoalbum" then AlbumConfig(cfgs.album)
    else if IsPrintsTag(tag) then PrintsConfig(cfgs.photos)
    else CalConfig(cfgs.calendar)
  }

  /** The price the page shows for a tag. */
  function PagePrice(tag: string, cfgs: PageConfigs): int {
    CalculatePrice(tag, CurrentConfig(tag, cfgs))
  }

  /** The initial configurations price to 2500, 130 and 1150; an unknown tag is priced as a calendar. */
  lemma {:induction false} InitialPagePrices(tag: string)
    ensures tag == "photoalbum" ==> PagePrice(tag, InitialConfigs) == 2500
    ensures IsPrintsTag(tag) ==> PagePrice(tag, InitialConfigs) == 130
    ensures tag != "photoalbum" && !IsPrintsTag(tag) ==> PagePrice(tag, InitialConfigs) == 1150
  {
    assert MonthCount(Twelve) == 12;
  }

  /** What the configuration page renders: "product not found", or the configurator with a price. */
  datatype Page = NotFound | Priced(price: int)

  /**
   * The page for a tag: only the four product names get a configurator, and
   * it shows the calculator's price for the configuration the tag selects.
   */
  function ProductPage(tag: string, cfgs: PageConfigs): (r: Page)
    ensures r.Priced? <==> tag == "photoalbum" || tag == "photos" || tag == "prints" || tag == "calendar"
    ensures r.Priced? ==> r.price == CalculatePrice(tag, CurrentConfig(tag, cfgs))
  {
    if tag in ["photoalbum", "photos", "prints", "calendar"] then Priced(PagePrice(tag, cfgs)) else NotFound
  }

  /**
   * With the initial configurations an album shows 2500, prints 130 and a
   * calendar 1150; the calendar price an unknown tag would get is never shown.
   */
  lemma {:induction false} InitialProductPages(tag: string)
    ensures ProductPage(tag, InitialConfigs) ==
      if tag == "photoalbum" then Priced(2500)
      else if IsPrintsTag(tag) then Priced(130)
      else if tag == "calendar" then Priced(1150)
      else NotFound
  {
    InitialPagePrices(tag);
  }
}
