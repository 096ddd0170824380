/**
 * The photographer-booking page: the offered time slots, the combined
 * price, the submit guard, the predefined shooting locations and the
 * order body the page sends.
 */
module PhotographerBooking {
  import opened Wrappers
  import opened Schema
  import Seqs
  import Decimal
  import IsoDate

  // ---------------------------------------------------------------------
  // Time slots

  /** The hourly slots a shooting can start at. */
  const TimeSlots: seq<string> := [
    "09:00", "10:00", "11:00", "12:00", "13:00", "14:00",
    "15:00", "16:00", "17:00", "18:00", "19:00", "20:00"
  ]

  /** The label of a whole hour in the day, such as "09:00": the hour in two digits, then ":00". */
  function HourLabel(h: nat): (r: string)
    requires h < 24
    ensures |r| == 5 && r[2..] == ":00"
    ensures Decimal.AllDigits(r[..2]) && Decimal.Value(r[..2]) == h
    ensures r[0] == Decimal.Digit(h / 10) && r[1] == Decimal.Digit(h % 10)
  {
    var hh := Decimal.Digits(h, 2);
    Decimal.ValueOfDigits(h, 2);
    assert h / 10 < 10 && (h / 10) / 10 == 0 && (h / 10) % 10 == h / 10;
    assert Decimal.Digits(h / 10, 1) == [Decimal.Digit(h / 10)];
    assert hh == [Decimal.Digit(h / 10), Decimal.Digit(h % 10)];
    assert (hh + ":00")[..2] == hh;
    hh + ":00"
  }

  /** The twelve slots are the whole hours from 09:00 to 20:00, in order. */
  lemma TimeSlotsAreHours()
    ensures |TimeSlots| == 12
    ensures forall i :: 0 <= i < 12 ==> TimeSlots[i] == HourLabel(9 + i)
  {
  }

  // ---------------------------------------------------------------------
  // Price

  /** The photographer with the given id. */
  function HasId(id: Id): Photographer -> bool {
    (p: Photographer) => p.id == id
  }

  /** `photographers?.find(p => p.id === selectedPhotographer)` */
  function FindPhotographer(ps: seq<Photographer>, id: Id): Option<Photographer> {
    Seqs.Find(ps, HasId(id))
  }

  /** The photographer chosen on the page, if the list is loaded and holds the chosen id. */
  function SelectedPhotographer(photographers: Option<seq<Photographer>>, selected: Option<Id>): Option<Photographer>
  {
    if photographers.Some? && selected.Some? then FindPhotographer(photographers.value, selected.value) else None
  }

  /** The product price plus the chosen photographer's hourly rate; the product price alone when there is none. */
  function TotalPrice(productPrice: int, photographers: Option<seq<Photographer>>, selected: Option<Id>): (r: int)
    ensures SelectedPhotographer(photographers, selected).None? ==> r == productPrice
    ensures SelectedPhotographer(photographers, selected).Some? ==>
      r == productPrice + SelectedPhotographer(photographers, selected).value.pricePerHour
  {
    var chosen := SelectedPhotographer(photographers, selected);
    productPrice + (if chosen.Some? then chosen.value.pricePerHour else 0)
  }

  /** A loaded list that holds the chosen id adds that photographer's rate; nothing else can. */
  lemma TotalPriceCases(productPrice: int, ps: seq<Photographer>, id: Id)
    ensures (forall i :: 0 <= i < |ps| ==> ps[i].id != id) ==> TotalPrice(productPrice, Some(ps), Some(id)) == productPrice
    ensures forall i :: 0 <= i < |ps| && ps[i].id == id && (forall j :: 0 <= j < i ==> ps[j].id != id) ==>
      TotalPrice(productPrice, Some(ps), Some(id)) == productPrice + ps[i].pricePerHour
    ensures TotalPrice(productPrice, None, Some(id)) == productPrice
    ensures TotalPrice(productPrice, Some(ps), None) == productPrice
  {
    forall i | 0 <= i < |ps| && ps[i].id == id && (forall j :: 0 <= j < i ==> ps[j].id != id)
      ensures TotalPrice(productPrice, Some(ps), Some(id)) == productPrice + ps[i].pricePerHour
    {
      Seqs.FindAt(ps, HasId(id), i);
    }
  }

  // ---------------------------------------------------------------------
  // Locations

  datatype Location = Location(name: string, coords: Coordinates)

  /** The centre of Moscow, where the map starts. */
  const DefaultCoordinates: Coordinates := Coordinates(55.7558, 37.6173)

  /** The popular shooting places offered, the photographer's choice first. */
  const PopularLocations: seq<Location> := [
    Location("На усмотрение фотографа", Coordinates(55.7558, 37.6173)),
    Location("Красная площадь", Coordinates(55.7539, 37.6208)),
    Location("Парк Горького", Coordinates(55.7304, 37.6013)),
    Location("ВДНХ", Coordinates(55.8304, 37.6286)),
    Location("Парк Зарядье", Coordinates(55.7513, 37.6285)),
    Location("Воробьёвы горы", Coordinates(55.7105, 37.5424)),
    Location("Патриаршие пруды", Coordinates(55.7649, 37.5949)),
    Location("Коломенское", Coordinates(55.6672, 37.6719)),
    Location("Московский Кремль", Coordinates(55.7520, 37.6175))
  ]

  /** The place with the given name. */
  function Named(name: string): Location -> bool {
    (loc: Location) => loc.name == name
  }

  /** `popularLocations.find(loc => loc.name === value)` */
  function FindLocation(ls: seq<Location>, name: string): Option<Location> {
    Seqs.Find(ls, Named(name))
  }

  /** No two predefined places share a name (their names even differ in length). */
  lemma LocationNamesDistinct()
    ensures forall i, j :: 0 <= i < j < |PopularLocations| ==> PopularLocations[i].name != PopularLocations[j].name
  {
  }

  /** Every predefined place is found under its own name, and leaving it to the photographer means the city centre. */
  lemma PredefinedLocations(i: nat)
    requires i < |PopularLocations|
    ensures FindLocation(PopularLocations, PopularLocations[i].name) == Some(PopularLocations[i])
    ensures PopularLocations[0].coords == DefaultCoordinates
  {
    LocationNamesDistinct();
    Seqs.FindAt(PopularLocations, Named(PopularLocations[i].name), i);
  }

  // ---------------------------------------------------------------------
  // The form

  class BookingForm {
    var selectedPhotographer: Option<Id>
    var selectedDate: Option<Date>
    var selectedTime: string
    var location: string
    var coordinates: Coordinates
    /** The predefined places the page offers: `PopularLocations`. */
    const locations: seq<Location>

    /** Nothing chosen, and the map at the centre of Moscow. */
    constructor ()
      ensures selectedPhotographer == None && selectedDate == None
      ensures selectedTime == "" && location == "" && coordinates == DefaultCoordinates
      ensures locations == PopularLocations
    {
      locations := PopularLocations;
      selectedPhotographer := None;
      selectedDate := None;
      selectedTime := "";
      location := "";
      coordinates := DefaultCoordinates;
    }

    /** The location is always taken as typed; the coordinates follow only a predefined place. */
    method LocationChange(value: string)
      modifies this
      ensures location == value
      ensures FindLocation(locations, value).Some? ==>
        coordinates == FindLocation(locations, value).value.coords
      ensures FindLocation(locations, value).None? ==> coordinates == old(coordinates)
      ensures selectedPhotographer == old(selectedPhotographer) && selectedDate == old(selectedDate)
      ensures selectedTime == old(selectedTime)
    {
      location := value;
      var selectedLocation := FindLocation(locations, value);
      if selectedLocation.Some? {
        coordinates := selectedLocation.value.coords;
      }
    }

    /** `handleSubmit`'s guard: photographer, date, time and place must all be filled in. */
    predicate CanSubmit()
      reads this
    {
      selectedPhotographer.Some? && selectedDate.Some? && selectedTime != "" && location != ""
    }

    /**
     * The body the page posts to /api/orders, or none when the guard refuses.
     * `storedConfig` is the configuration the configuration step left in
     * session storage, if any; without one the page sends `{}`. The shooting
     * date travels as its ISO text.
     */
    function Submit(productType: string, productPrice: int, photographers: Option<seq<Photographer>>,
                    storedConfig: Option<ProductConfig>): (r: Option<OrderBody>)
      reads this
      ensures r.Some? <==> CanSubmit()
      ensures r.Some? ==>
        && r.value.photoSource == Some("photographer")
        && r.value.totalPrice == Some(TotalPrice(productPrice, photographers, selectedPhotographer))
        && r.value.productType == Some(productType)
        && (storedConfig.Some? ==> r.value.productConfig == storedConfig)
        && (storedConfig.None? ==> r.value.productConfig == Some(EmptyConfig))
        && r.value.photographerId == selectedPhotographer
        && r.value.shootingDate == Some(IsoDate.Format(selectedDate.value))
        && r.value.shootingTime == Some(selectedTime)
        && r.value.shootingLocation == Some(location)
        && r.value.shootingCoordinates == Some(coordinates)
        && r.value.status.None? && r.value.userId.None?
    {
      if !CanSubmit() then None
      else
        Some(OrderBody(
          None, None, Some(productType), None,
          Some(TotalPrice(productPrice, photographers, selectedPhotographer)),
          Some(storedConfig.GetOr(EmptyConfig)), Some("photographer"), selectedPhotographer,
          Some(IsoDate.Format(selectedDate.value)),
          Some(selectedTime), Some(location), Some(coordinates), None, None))
    }

    /**
     * The generated order insert schema refuses every body the page submits:
     * the guard demands a date, and the date arrives as text.
     */
    lemma SubmittedBodyRefusedAsWritten(productType: string, productPrice: int,
                                        photographers: Option<seq<Photographer>>,
                                        storedConfig: Option<ProductConfig>, userId: Id)
      requires CanSubmit()
      ensures ParseInsertOrderAsWritten(
        Submit(productType, productPrice, photographers, storedConfig).value.(userId := Some(userId))).None?
    {
    }

    /**
     * Once the server adds the user id, a submitted body passes the order
     * insert schema that reads ISO dates, and yields a photographer order at
     * the combined price, on the chosen date, with the stored configuration
     * or `{}`.
     */
    lemma SubmittedBodyParses(productType: string, productPrice: int, photographers: Option<seq<Photographer>>,
                              storedConfig: Option<ProductConfig>, userId: Id)
      requires CanSubmit()
      ensures
        var ins := ParseInsertOrder(Submit(productType, productPrice, photographers, storedConfig).value.(userId := Some(userId)));
        && ins.Some?
        && ins.value.userId == userId
        && ins.value.photoSource == "photographer"
        && ins.value.totalPrice == TotalPrice(productPrice, photographers, selectedPhotographer)
        && ins.value.photographerId == selectedPhotographer
        && ins.value.shootingDate == selectedDate
        && ins.value.productConfig == storedConfig.GetOr(EmptyConfig)
        && ins.value.status.None?
    {
      IsoDate.ParseFormat(selectedDate.value);
    }
  }
}
