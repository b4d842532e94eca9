/**
 * The in-memory itinerary tree of journey_classes.rb: a Journey holds
 * Countries by name, a Country holds Locations by name, and a Location
 * holds its accommodations, its photos and its departure ticket. Every
 * entity is a bag of optional fields, changed one field at a time by
 * setters; each setter's `modifies` clause names the one field it writes,
 * so that nothing else can change.
 *
 * The Ruby attribute modules become methods of each class that includes
 * them and can run them: `Detailable` (SetDetails, SetPros, SetCons),
 * `Costable` (SetCost), `PathToFile` (AddPathToFile), `Temporable`
 * (SetTemporable, one method for the eight setters, each of which writes
 * the key named by its TemporalKey) and `Addressable` (SetAddressable).
 */
module JourneyClasses {
  import opened Wrappers
  import RubyString
  import RubyHash

  /** A value a setter stores. In this application each one is the text
      of a submitted form field. */
  type Value = string

  /** The keys of a `temporable_details` hash. The `Temporable` setter
      set_arrival_date writes ArrivalDate, set_departure_date DepartureDate,
      set_departure_time DepartureTime, set_arrival_time ArrivalTime,
      set_starting_time StartingTime, set_ending_time EndingTime,
      set_check_in_time CheckInTime and set_check_out_time CheckOutTime. */
  datatype TemporalKey =
    | ArrivalDate | DepartureDate | DepartureTime | ArrivalTime
    | StartingTime | EndingTime | CheckInTime | CheckOutTime

  /** The keys of an `addressable_details` hash. */
  datatype AddressKey = ArrivalAddress | DepartureAddress | StartingAddress | EndingAddress | Address
  {
    /** The keys an `Addressable` setter writes: set_arrival_address,
        set_departure_address and set_address. No setter writes the
        starting or ending address. */
    predicate HasSetter() {
      ArrivalAddress? || DepartureAddress? || Address?
    }
  }

  /** A country's visa slot: never asked (`nil`), the sentinel
      'not needed', or a Visa. */
  datatype VisaSlot = Unasked | NotNeeded | Needed(visa: Visa)

  /** The character `camel_casify` puts in place of `c`. */
  function SlugChar(c: char): char {
    if c == ' ' then '_' else RubyString.DowncaseChar(c)
  }

  class Journey {
    const name: string
    const camelCaseName: string
    var countries: RubyHash.Hash<Country>
    var details: Option<Value>
    var pros: Option<Value>
    var cons: Option<Value>

    ghost predicate Valid()
      reads this
    {
      countries.WellFormed() && camelCaseName == CamelCasify(name)
    }

    constructor (name: string)
      ensures this.name == name && camelCaseName == CamelCasify(name)
      ensures countries == RubyHash.Empty()
      ensures details == None && pros == None && cons == None
      ensures Valid()
    {
      this.name := name;
      camelCaseName := CamelCasify(name);
      countries := RubyHash.Empty();
      details, pros, cons := None, None, None;
    }

    /** Journey.camel_casify: the name in lower case with every space
        turned into an underscore. */
    static function CamelCasify(name: string): (slug: string)
      ensures |slug| == |name|
      ensures forall i :: 0 <= i < |name| ==> slug[i] == SlugChar(name[i])
    {
      RubyString.GsubChar(RubyString.Downcase(name), ' ', '_')
    }

    /** Binds `n` to a fresh Country named `n`, replacing any country
        already bound to `n`, and returns it. */
    method AddCountry(n: string) returns (c: Country)
      requires Valid()
      modifies this`countries
      ensures Valid()
      ensures fresh(c) && c.name == n && c.Valid()
      ensures c.locations == RubyHash.Empty() && c.visa == Unasked
      ensures c.details == None && c.pros == None && c.cons == None
      ensures countries == old(countries).Store(n, c)
      ensures n in countries.entries && countries.entries[n] == c
    {
      c := new Country(n);
      countries := countries.Store(n, c);
    }

    method SetDetails(d: Option<Value>)
      modifies this`details
      ensures details == d
    {
      details := d;
    }

    method SetPros(p: Option<Value>)
      modifies this`pros
      ensures pros == p
    {
      pros := p;
    }

    method SetCons(c: Option<Value>)
      modifies this`cons
      ensures cons == c
    {
      cons := c;
    }
  }

  class Country {
    const name: string
    var locations: RubyHash.Hash<Location>
    var visa: VisaSlot
    var details: Option<Value>
    var pros: Option<Value>
    var cons: Option<Value>

    ghost predicate Valid()
      reads this
    {
      locations.WellFormed()
    }

    constructor (name: string)
      ensures this.name == name && locations == RubyHash.Empty() && visa == Unasked
      ensures details == None && pros == None && cons == None
      ensures Valid()
    {
      this.name := name;
      locations := RubyHash.Empty();
      visa := Unasked;
      details, pros, cons := None, None, None;
    }

    /** Binds `n` to a fresh Location named `n`, replacing any location
        already bound to `n`, and returns it. */
    method AddLocation(n: string) returns (l: Location)
      requires Valid()
      modifies this`locations
      ensures Valid()
      ensures fresh(l) && l.name == n && l.IsNew()
      ensures locations == old(locations).Store(n, l)
      ensures n in locations.entries && locations.entries[n] == l
    {
      l := new Location(n);
      locations := locations.Store(n, l);
    }

    /** Country#set_visa(needed:): a fresh, empty Visa when one is needed,
        the 'not needed' sentinel otherwise. */
    method SetVisa(needed: bool) returns (slot: VisaSlot)
      modifies this`visa
      ensures visa == slot
      ensures needed ==> slot.Needed? && fresh(slot.visa) && slot.visa.IsNew()
      ensures !needed ==> slot == NotNeeded
    {
      if needed {
        var v := new Visa();
        slot := Needed(v);
      } else {
        slot := NotNeeded;
      }
      visa := slot;
    }

    method SetDetails(d: Option<Value>)
      modifies this`details
      ensures details == d
    {
      details := d;
    }

    method SetPros(p: Option<Value>)
      modifies this`pros
      ensures pros == p
    {
      pros := p;
    }

    method SetCons(c: Option<Value>)
      modifies this`cons
      ensures cons == c
    {
      cons := c;
    }
  }

  class Location {
    const name: string
    var temporableDetails: map<TemporalKey, Option<Value>>
    var departureTicket: DepartureTicket?
    var accomodation: seq<Accomodation>
    var photos: seq<Value>
    var details: Option<Value>
    var pros: Option<Value>
    var cons: Option<Value>

    /** No departure ticket, accommodation, photo or note has been added. */
    ghost predicate Unfilled()
      reads this`departureTicket, this`accomodation, this`photos, this`details, this`pros, this`cons
    {
      && departureTicket == null && accomodation == [] && photos == []
      && details == None && pros == None && cons == None
    }

    /** The state `Location.new` leaves. */
    ghost predicate IsNew()
      reads this
    {
      temporableDetails == map[ArrivalDate := None, DepartureDate := None] && Unfilled()
    }

    constructor (name: string)
      ensures this.name == name && IsNew()
    {
      this.name := name;
      temporableDetails := map[ArrivalDate := None, DepartureDate := None];
      departureTicket := null;
      accomodation := [];
      photos := [];
      details, pros, cons := None, None, None;
    }

    /** Appends a fresh Accomodation named `n`; earlier entries stay as
        they were, and names may repeat. */
    method AddAccomodation(n: string)
      modifies this`accomodation
      ensures |accomodation| == |old(accomodation)| + 1
      ensures accomodation[..|old(accomodation)|] == old(accomodation)
      ensures var a := accomodation[|old(accomodation)|]; fresh(a) && a.name == n && a.IsNew()
    {
      var a := new Accomodation(n);
      accomodation := accomodation + [a];
    }

    /** Replaces the departure ticket with a fresh, empty one and returns it. */
    method SetDepartureTicket() returns (t: DepartureTicket)
      modifies this`departureTicket
      ensures fresh(t) && t.IsNew() && departureTicket == t
    {
      t := new DepartureTicket();
      departureTicket := t;
    }

    /** Appends `path` to the photos, duplicates included. */
    method AddPhoto(path: Value)
      modifies this`photos
      ensures photos == old(photos) + [path]
    {
      photos := photos + [path];
    }

    method SetTemporable(key: TemporalKey, v: Option<Value>)
      modifies this`temporableDetails
      ensures temporableDetails == old(temporableDetails)[key := v]
    {
      temporableDetails := temporableDetails[key := v];
    }

    method SetDetails(d: Option<Value>)
      modifies this`details
      ensures details == d
    {
      details := d;
    }

    method SetPros(p: Option<Value>)
      modifies this`pros
      ensures pros == p
    {
      pros := p;
    }

    method SetCons(c: Option<Value>)
      modifies this`cons
      ensures cons == c
    {
      cons := c;
    }
  }

  class Activity {
    const name: string
    var cost: Option<Value>
    var details: Option<Value>
    var pros: Option<Value>
    var cons: Option<Value>
    var temporableDetails: map<TemporalKey, Option<Value>>
    var addressableDetails: map<AddressKey, Option<Value>>
    var toBring: seq<Value>

    /** The state `Activity.new` leaves. */
    ghost predicate IsNew()
      reads this
    {
      && cost == None && details == None && pros == None && cons == None
      && temporableDetails == map[StartingTime := None, EndingTime := None]
      && addressableDetails == map[StartingAddress := None, EndingAddress := None]
      && toBring == []
    }

    constructor (name: string)
      ensures this.name == name && IsNew()
    {
      this.name := name;
      cost, details, pros, cons := None, None, None, None;
      temporableDetails := map[StartingTime := None, EndingTime := None];
      addressableDetails := map[StartingAddress := None, EndingAddress := None];
      toBring := [];
    }

    /** Appends `item` to the list of things to bring, duplicates included. */
    method AddItemToBring(item: Value)
      modifies this`toBring
      ensures toBring == old(toBring) + [item]
    {
      toBring := toBring + [item];
    }

    method SetTemporable(key: TemporalKey, v: Option<Value>)
      modifies this`temporableDetails
      ensures temporableDetails == old(temporableDetails)[key := v]
    {
      temporableDetails := temporableDetails[key := v];
    }

    method SetAddressable(key: AddressKey, v: Option<Value>)
      requires key.HasSetter()
      modifies this`addressableDetails
      ensures addressableDetails == old(addressableDetails)[key := v]
    {
      addressableDetails := addressableDetails[key := v];
    }

    method SetCost(c: Option<Value>)
      modifies this`cost
      ensures cost == c
    {
      cost := c;
    }

    method SetDetails(d: Option<Value>)
      modifies this`details
      ensures details == d
    {
      details := d;
    }

    method SetPros(p: Option<Value>)
      modifies this`pros
      ensures pros == p
    {
      pros := p;
    }

    method SetCons(c: Option<Value>)
      modifies this`cons
      ensures cons == c
    {
      cons := c;
    }
  }

  class Accomodation {
    const name: string
    var cost: Option<Value>
    var details: Option<Value>
    var pros: Option<Value>
    var cons: Option<Value>
    const address: Option<Value>
    var temporableDetails: map<TemporalKey, Option<Value>>
    var bookingService: Option<Value>

    /** The state `Accomodation.new` leaves. */
    ghost predicate IsNew()
      reads this
    {
      && cost == None && details == None && pros == None && cons == None
      && address == None && bookingService == None
      && temporableDetails == map[ArrivalDate := None, DepartureDate := None,
                                  CheckInTime := None, CheckOutTime := None]
    }

    constructor (name: string)
      ensures this.name == name && IsNew()
    {
      this.name := name;
      cost, details, pros, cons := None, None, None, None;
      address := None;
      temporableDetails := map[ArrivalDate := None, DepartureDate := None,
                               CheckInTime := None, CheckOutTime := None];
      bookingService := None;
    }

    method SetBookingService(service: Option<Value>)
      modifies this`bookingService
      ensures bookingService == service
    {
      bookingService := service;
    }

    method SetTemporable(key: TemporalKey, v: Option<Value>)
      modifies this`temporableDetails
      ensures temporableDetails == old(temporableDetails)[key := v]
    {
      temporableDetails := temporableDetails[key := v];
    }

    method SetCost(c: Option<Value>)
      modifies this`cost
      ensures cost == c
    {
      cost := c;
    }

    method SetDetails(d: Option<Value>)
      modifies this`details
      ensures details == d
    {
      details := d;
    }

    method SetPros(p: Option<Value>)
      modifies this`pros
      ensures pros == p
    {
      pros := p;
    }

    method SetCons(c: Option<Value>)
      modifies this`cons
      ensures cons == c
    {
      cons := c;
    }
  }

  class DepartureTicket {
    var transportMode: Option<Value>
    const temporableDetails: map<TemporalKey, Option<Value>>
    const addressableDetails: map<AddressKey, Option<Value>>
    var transportProvider: Option<Value>
    var ticketNumber: Option<Value>
    var pathToFile: Option<Value>
    const cost: Option<Value>
    var details: Option<Value>
    var pros: Option<Value>
    var cons: Option<Value>

    /** The state `DepartureTicket.new` leaves. */
    ghost predicate IsNew()
      reads this
    {
      && transportMode == None && transportProvider == None && ticketNumber == None
      && temporableDetails == map[DepartureTime := None, ArrivalTime := None]
      && addressableDetails == map[DepartureAddress := None, ArrivalAddress := None]
      && pathToFile == None && cost == None
      && details == None && pros == None && cons == None
    }

    constructor ()
      ensures IsNew()
    {
      transportMode := None;
      temporableDetails := map[DepartureTime := None, ArrivalTime := None];
      addressableDetails := map[DepartureAddress := None, ArrivalAddress := None];
      transportProvider, ticketNumber, pathToFile := None, None, None;
      cost := None;
      details, pros, cons := None, None, None;
    }

    method SetTransportMode(mode: Option<Value>)
      modifies this`transportMode
      ensures transportMode == mode
    {
      transportMode := mode;
    }

    method SetTicketNumber(number: Option<Value>)
      modifies this`ticketNumber
      ensures ticketNumber == number
    {
      ticketNumber := number;
    }

    method SetTransportProvider(provider: Option<Value>)
      modifies this`transportProvider
      ensures transportProvider == provider
    {
      transportProvider := provider;
    }

    method AddPathToFile(path: Option<Value>)
      modifies this`pathToFile
      ensures pathToFile == path
    {
      pathToFile := path;
    }

    method SetDetails(d: Option<Value>)
      modifies this`details
      ensures details == d
    {
      details := d;
    }

    method SetPros(p: Option<Value>)
      modifies this`pros
      ensures pros == p
    {
      pros := p;
    }

    method SetCons(c: Option<Value>)
      modifies this`cons
      ensures cons == c
    {
      cons := c;
    }
  }

  class Visa {
    var visaType: Option<Value>
    var number: Option<Value>
    const entryDate: Option<Value>
    const exitDate: Option<Value>
    const information: Option<Value>
    var pathToFile: Option<Value>
    var cost: Option<Value>
    var details: Option<Value>
    var pros: Option<Value>
    var cons: Option<Value>

    /** The state `Visa.new` leaves. */
    ghost predicate IsNew()
      reads this
    {
      && visaType == None && number == None && entryDate == None && exitDate == None
      && information == None && pathToFile == None
      && cost == None && details == None && pros == None && cons == None
    }

    constructor ()
      ensures IsNew()
    {
      visaType, number := None, None;
      entryDate, exitDate, information := None, None, None;
      pathToFile := None;
      cost, details, pros, cons := None, None, None, None;
    }

    method SetVisaType(t: Option<Value>)
      modifies this`visaType
      ensures visaType == t
    {
      visaType := t;
    }

    method SetVisaNumber(n: Option<Value>)
      modifies this`number
      ensures number == n
    {
      number := n;
    }

    method AddPathToFile(path: Option<Value>)
      modifies this`pathToFile
      ensures pathToFile == path
    {
      pathToFile := path;
    }

    method SetCost(c: Option<Value>)
      modifies this`cost
      ensures cost == c
    {
      cost := c;
    }

    method SetDetails(d: Option<Value>)
      modifies this`details
      ensures details == d
    {
      details := d;
    }

    method SetPros(p: Option<Value>)
      modifies this`pros
      ensures pros == p
    {
      pros := p;
    }

    method SetCons(c: Option<Value>)
      modifies this`cons
      ensures cons == c
    {
      cons := c;
    }
  }

  // Properties of camel_casify.

  /** The slug has no spaces and no upper-case letters, and it has an
      underscore exactly where the name has a space or an underscore: each
      space becomes one underscore, so runs of spaces are kept, not merged. */
  lemma CamelCasifyShape(name: string)
    ensures var slug := Journey.CamelCasify(name);
            && |slug| == |name|
            && (forall i :: 0 <= i < |slug| ==> slug[i] != ' ' && !RubyString.IsUpper(slug[i]))
            && (forall i :: 0 <= i < |slug| ==> (slug[i] == '_' <==> name[i] == ' ' || name[i] == '_'))
  {
  }

  /** A slug is its own slug. */
  lemma CamelCasifyIdempotent(name: string)
    ensures Journey.CamelCasify(Journey.CamelCasify(name)) == Journey.CamelCasify(name)
  {
  }

  /** Names that differ only in the case of their letters, or in a space
      against an underscore, have the same slug. */
  lemma CamelCasifyIgnoresCaseAndSpacing(a: string, b: string)
    requires |a| == |b|
    requires forall i :: 0 <= i < |a| ==> SlugChar(a[i]) == SlugChar(b[i])
    ensures Journey.CamelCasify(a) == Journey.CamelCasify(b)
  {
  }

  /** The slug of "Foo Vacation". */
  lemma CamelCasifyExample()
    ensures Journey.CamelCasify("Foo Vacation") == "foo_vacation"
  {
    SlugByCharacters("Foo Vacation", "foo_vacation");
  }

  /** The slug of "FOO  Vacation": its two spaces become two underscores. */
  lemma CamelCasifyKeepsSpaceRuns()
    ensures Journey.CamelCasify("FOO  Vacation") == "foo__vacation"
  {
    SlugByCharacters("FOO  Vacation", "foo__vacation");
  }

  lemma SlugByCharacters(name: string, slug: string)
    requires |name| == |slug| && forall i :: 0 <= i < |name| ==> SlugChar(name[i]) == slug[i]
    ensures Journey.CamelCasify(name) == slug
  {
  }
}
