/**
 * The logic of travel_planner.rb apart from its web plumbing: checking a
 * submitted journey name and choosing the message that explains a
 * rejection, checking the fields of a new country, finding journeys and
 * countries by id, and the helper that adds a country, its first location
 * and the arrival date to a journey.
 *
 * What the web layer reads from disk is passed in: the names of the
 * journeys already saved, the loaded journeys or countries, and the date
 * check that `Date.strptime` performs.
 */
module TravelPlanner {
  import opened Wrappers
  import RubyString
  import RubyEnum
  import RubyHash
  import JC = JourneyClasses

  const EmptyNameMessage := "A name for the journey must be supplied."
  const BadCharsMessage := "Journey name must be constructed with alphanumerics, whitespace, hyphens, and underscores only."
  const NameInUseMessage := "That name is already in use for another journey, please choose another."
  const EmptyFieldMessage := "Please make sure an entry has been supplied in each field."
  const BadDateMessage := "Invalid date: Please be sure to follow the specified format: <b>dd-mm-yyyy</b>"

  /** The form field that holds a new country's arrival date. */
  const ArrivalDateField := "arrival_date"

  // Journey names.

  /** A character of the class `[a-z0-9\ _-]` matched case-insensitively. */
  predicate NameChar(c: char) {
    'a' <= c <= 'z' || 'A' <= c <= 'Z' || '0' <= c <= '9' || c == ' ' || c == '_' || c == '-'
  }

  /** `name.match?(/\A[a-z0-9\ _-]+\z/i)`: one or more characters, all of the class. */
  function MatchesNamePattern(name: string): (m: bool)
    ensures m <==> name != [] && forall i :: 0 <= i < |name| ==> NameChar(name[i])
  {
    if name == [] then false
    else
      assert forall i :: 0 < i < |name| ==> name[i] == name[1..][i - 1];
      NameChar(name[0]) && (|name| == 1 || MatchesNamePattern(name[1..]))
  }

  /** `invalid_name_chars?`: the name is empty or has a character outside the class. */
  function InvalidNameChars(name: string): (r: bool)
    ensures r <==> name == [] || exists i :: 0 <= i < |name| && !NameChar(name[i])
  {
    !MatchesNamePattern(name)
  }

  /** `name_in_use?`: some saved journey's name has the same slug as `name`. */
  function NameInUse(journeyNames: seq<string>, name: string): (r: bool)
    ensures r <==> exists i :: 0 <= i < |journeyNames|
                     && JC.Journey.CamelCasify(journeyNames[i]) == JC.Journey.CamelCasify(name)
  {
    RubyEnum.Any(journeyNames, (m: string) => JC.Journey.CamelCasify(m) == JC.Journey.CamelCasify(name))
  }

  /** `invalid_journey_name?`. */
  function InvalidJourneyName(journeyNames: seq<string>, name: string): (r: bool)
    ensures !r ==> name != [] && (forall i :: 0 <= i < |name| ==> NameChar(name[i]))
                   && forall i :: 0 <= i < |journeyNames| ==>
                        JC.Journey.CamelCasify(journeyNames[i]) != JC.Journey.CamelCasify(name)
    ensures r ==> name == [] || (exists i :: 0 <= i < |name| && !NameChar(name[i]))
                  || exists i :: 0 <= i < |journeyNames|
                       && JC.Journey.CamelCasify(journeyNames[i]) == JC.Journey.CamelCasify(name)
  {
    name == [] || InvalidNameChars(name) || NameInUse(journeyNames, name)
  }

  /** `message_for_invalid_journey_name`: `nil` for an acceptable name,
      otherwise the message of the first failing check, in the order
      empty, bad characters, name in use. */
  function MessageForInvalidJourneyName(journeyNames: seq<string>, name: string): (r: Option<string>)
    ensures r.Some? <==> InvalidJourneyName(journeyNames, name)
    ensures r == Some(EmptyNameMessage) <==> name == []
    ensures r == Some(BadCharsMessage) <==> name != [] && InvalidNameChars(name)
    ensures r == Some(NameInUseMessage) <==> !InvalidNameChars(name) && NameInUse(journeyNames, name)
  {
    if name == [] then Some(EmptyNameMessage)
    else if InvalidNameChars(name) then Some(BadCharsMessage)
    else if NameInUse(journeyNames, name) then Some(NameInUseMessage)
    else None
  }

  /** What `post "/create_journey"` decides about the submitted text: it
      strips it, then either rejects it with a message or accepts the
      stripped name as the new journey's name. */
  function CheckSubmittedJourneyName(journeyNames: seq<string>, submitted: string): (r: Result<string, string>)
    ensures r.Success? <==> !InvalidJourneyName(journeyNames, RubyString.Strip(submitted))
    ensures r.Success? ==> r.value == RubyString.Strip(submitted)
    ensures r.Failure? ==> Some(r.error) == MessageForInvalidJourneyName(journeyNames, RubyString.Strip(submitted))
  {
    var name := RubyString.Strip(submitted);
    match MessageForInvalidJourneyName(journeyNames, name)
    case Some(message) => Failure(message)
    case None => Success(name)
  }

  /** The file `save_journey` writes a journey to, inside the data directory. */
  function JourneyFileName(name: string): (f: string)
    ensures |f| == |name| + 4 && f[|name|..] == ".yml"
    ensures forall i :: 0 <= i < |name| ==> f[i] == JC.SlugChar(name[i])
  {
    JC.Journey.CamelCasify(name) + ".yml"
  }

  /** An accepted name is written to a file no saved journey uses, so
      creating a journey never overwrites another. */
  lemma {:induction false} AcceptedNameGetsOwnFile(journeyNames: seq<string>, submitted: string)
    requires CheckSubmittedJourneyName(journeyNames, submitted).Success?
    ensures forall i :: 0 <= i < |journeyNames| ==>
              JourneyFileName(journeyNames[i]) != JourneyFileName(CheckSubmittedJourneyName(journeyNames, submitted).value)
  {
    var name := CheckSubmittedJourneyName(journeyNames, submitted).value;
    forall i | 0 <= i < |journeyNames|
      ensures JourneyFileName(journeyNames[i]) != JourneyFileName(name)
    {
      var a, b := JC.Journey.CamelCasify(journeyNames[i]), JC.Journey.CamelCasify(name);
      assert a != b;
      assert (a + ".yml")[..|a|] == a;
      assert (b + ".yml")[..|b|] == b;
    }
  }

  /** The slug of an accepted name, and so its file name, uses only
      lower-case letters, digits, `_` and `-`: no `/` or `.` can reach
      the path. */
  lemma AcceptedSlugIsPlain(journeyNames: seq<string>, submitted: string)
    requires CheckSubmittedJourneyName(journeyNames, submitted).Success?
    ensures var slug := JC.Journey.CamelCasify(CheckSubmittedJourneyName(journeyNames, submitted).value);
            forall i :: 0 <= i < |slug| ==>
              'a' <= slug[i] <= 'z' || '0' <= slug[i] <= '9' || slug[i] == '_' || slug[i] == '-'
  {
  }

  /** A name made of whitespace only is stripped to the empty name and
      rejected as missing. */
  lemma WhitespaceOnlyNameIsMissing(journeyNames: seq<string>, submitted: string)
    requires RubyString.AllWhitespace(submitted)
    ensures CheckSubmittedJourneyName(journeyNames, submitted) == Failure(EmptyNameMessage)
  {
  }

  /** The submitted "  " is rejected as missing. */
  lemma BlankNameIsMissing(journeyNames: seq<string>)
    ensures CheckSubmittedJourneyName(journeyNames, "  ") == Failure(EmptyNameMessage)
  {
    WhitespaceOnlyNameIsMissing(journeyNames, "  ");
  }

  /** "../../hacking" is rejected for its characters, whatever is saved. */
  lemma PathNameIsRejected(journeyNames: seq<string>, submitted: string)
    requires submitted == "../../hacking"
    ensures CheckSubmittedJourneyName(journeyNames, submitted) == Failure(BadCharsMessage)
  {
    RejectedForCharacters(journeyNames, submitted, 0);
  }

  /** A name with no whitespace at either end and a character outside the
      class is rejected for its characters. */
  lemma RejectedForCharacters(journeyNames: seq<string>, submitted: string, i: nat)
    requires submitted != []
    requires !RubyString.IsWhitespace(submitted[0]) && !RubyString.IsWhitespace(submitted[|submitted| - 1])
    requires i < |submitted| && !NameChar(submitted[i])
    ensures CheckSubmittedJourneyName(journeyNames, submitted) == Failure(BadCharsMessage)
  {
    RubyString.StripLeavesTrimmed(submitted);
    BadCharsChosen(journeyNames, submitted, i);
  }

  /** A name with a character outside the class gets the bad-characters message. */
  lemma BadCharsChosen(journeyNames: seq<string>, name: string, i: nat)
    requires i < |name| && !NameChar(name[i])
    ensures MessageForInvalidJourneyName(journeyNames, name) == Some(BadCharsMessage)
  {
    assert InvalidNameChars(name);
  }

  /** Names that differ only in the case of their letters collide. */
  lemma {:induction false} CaseVariantsCollide(journeyNames: seq<string>, a: string, b: string)
    requires RubyString.Downcase(a) == RubyString.Downcase(b)
    ensures NameInUse(journeyNames, a) <==> NameInUse(journeyNames, b)
  {
    assert |a| == |b|;
    forall i | 0 <= i < |a| ensures JC.SlugChar(a[i]) == JC.SlugChar(b[i]) {
      assert RubyString.Downcase(a)[i] == RubyString.Downcase(b)[i];
    }
    JC.CamelCasifyIgnoresCaseAndSpacing(a, b);
  }

  /** 'fOO vACATION' is taken once 'Foo Vacation' is saved. */
  lemma CaseVariantOfSavedNameIsInUse()
    ensures MessageForInvalidJourneyName(["Foo Vacation"], "fOO vACATION") == Some(NameInUseMessage)
  {
    CaseVariantHasSavedSlug();
    CaseVariantHasNameChars();
  }

  lemma CaseVariantHasSavedSlug()
    ensures NameInUse(["Foo Vacation"], "fOO vACATION")
  {
    JC.SlugByCharacters("fOO vACATION", "foo_vacation");
    JC.CamelCasifyExample();
    assert ["Foo Vacation"][0] == "Foo Vacation";
  }

  lemma CaseVariantHasNameChars()
    ensures !InvalidNameChars("fOO vACATION")
  {
    assert forall i :: 0 <= i < |"fOO vACATION"| ==> NameChar("fOO vACATION"[i]);
  }

  // New countries.

  /** `any_empty?`: some submitted field is the empty string. */
  function AnyEmpty(inputs: RubyHash.Hash<string>): (r: bool)
    requires inputs.WellFormed()
    ensures r <==> exists k :: k in inputs.entries && inputs.entries[k] == ""
  {
    RubyHash.ValuesWitness(inputs, (v: string) => v == "");
    RubyEnum.Any(inputs.Values(), (v: string) => v == "")
  }

  /** `invalid_new_country?`, with `invalidDateFormat` standing for the
      `Date.strptime` check. When no field is empty the arrival date is
      read, so it must have been submitted. */
  function InvalidNewCountry(inputs: RubyHash.Hash<string>, invalidDateFormat: string -> bool): (r: bool)
    requires inputs.WellFormed()
    requires AnyEmpty(inputs) || ArrivalDateField in inputs.entries
    ensures r <==> (exists k :: k in inputs.entries && inputs.entries[k] == "")
                   || (ArrivalDateField in inputs.entries && invalidDateFormat(inputs.entries[ArrivalDateField]))
  {
    AnyEmpty(inputs) || invalidDateFormat(inputs.entries[ArrivalDateField])
  }

  /** `message_for_invalid_new_country`: `nil` for acceptable fields,
      the empty-field message before the date message. */
  function MessageForInvalidNewCountry(inputs: RubyHash.Hash<string>, invalidDateFormat: string -> bool): (r: Option<string>)
    requires inputs.WellFormed()
    requires AnyEmpty(inputs) || ArrivalDateField in inputs.entries
    ensures r.Some? <==> InvalidNewCountry(inputs, invalidDateFormat)
    ensures r == Some(EmptyFieldMessage) <==> exists k :: k in inputs.entries && inputs.entries[k] == ""
    ensures r == Some(BadDateMessage) <==> !AnyEmpty(inputs) && invalidDateFormat(inputs.entries[ArrivalDateField])
  {
    if AnyEmpty(inputs) then Some(EmptyFieldMessage)
    else if invalidDateFormat(inputs.entries[ArrivalDateField]) then Some(BadDateMessage)
    else None
  }

  // Lookups by id.

  /** `load_journey`: the first loaded journey, in order, whose id is `id`. */
  function LoadJourney<J>(journeys: seq<J>, idOf: J -> int, id: int): (r: Option<J>)
    ensures r.None? <==> forall i :: 0 <= i < |journeys| ==> idOf(journeys[i]) != id
    ensures r.Some? ==> exists i :: 0 <= i < |journeys| && journeys[i] == r.value && idOf(journeys[i]) == id
                                    && forall j :: 0 <= j < i ==> idOf(journeys[j]) != id
  {
    RubyEnum.Find(journeys, (j: J) => idOf(j) == id)
  }

  /** `nonexistent_journey?`: no loaded journey has id `id`. */
  function NonexistentJourney<J>(journeys: seq<J>, idOf: J -> int, id: int): (r: bool)
    ensures r <==> forall i :: 0 <= i < |journeys| ==> idOf(journeys[i]) != id
  {
    RubyEnum.NoneOf(journeys, (j: J) => idOf(j) == id)
  }

  /** The existence check and the lookup agree. */
  lemma NonexistentIffNotLoaded<J>(journeys: seq<J>, idOf: J -> int, id: int)
    ensures NonexistentJourney(journeys, idOf, id) <==> LoadJourney(journeys, idOf, id).None?
  {
  }

  /** `load_country`: the first of the journey's countries, in order, whose id is `countryId`. */
  function LoadCountry<C>(countries: seq<C>, idOf: C -> int, countryId: int): (r: Option<C>)
    ensures r.None? <==> forall i :: 0 <= i < |countries| ==> idOf(countries[i]) != countryId
    ensures r.Some? ==> exists i :: 0 <= i < |countries| && countries[i] == r.value && idOf(countries[i]) == countryId
                                    && forall j :: 0 <= j < i ==> idOf(countries[j]) != countryId
  {
    RubyEnum.Find(countries, (c: C) => idOf(c) == countryId)
  }

  // Building the tree.

  /** The `add_country` helper: binds `country` in the journey to a fresh
      country holding just the location `location`, whose arrival date is
      `arrivalDate`. */
  method AddCountry(journey: JC.Journey, country: string, location: string, arrivalDate: JC.Value)
    requires journey.Valid()
    modifies journey`countries
    ensures journey.Valid()
    ensures country in journey.countries.entries
    ensures journey.countries == old(journey.countries).Store(country, journey.countries.entries[country])
    ensures var c := journey.countries.entries[country];
            && fresh(c) && c.name == country && c.Valid() && c.visa == JC.Unasked
            && c.details == None && c.pros == None && c.cons == None
            && location in c.locations.entries
            && var l := c.locations.entries[location];
               && c.locations == RubyHash.Empty<JC.Location>().Store(location, l)
               && fresh(l) && l.name == location
               && l.temporableDetails == map[JC.ArrivalDate := Some(arrivalDate), JC.DepartureDate := None]
               && l.Unfilled()
  {
    var c := journey.AddCountry(country);
    ghost var countries := journey.countries;
    var l := c.AddLocation(location);
    ghost var locations := c.locations;
    assert locations == RubyHash.Empty<JC.Location>().Store(location, l);
    l.SetTemporable(JC.ArrivalDate, Some(arrivalDate));
    assert l.temporableDetails == map[JC.ArrivalDate := Some(arrivalDate), JC.DepartureDate := None];
    assert journey.countries == countries;
    assert c.locations == locations;
  }
}
