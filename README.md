# Travel planner: the itinerary tree and the form validators

This Dafny project models the logic of a small Sinatra travel-itinerary
planner. It covers two Ruby files.

- `journey_classes.rb` holds the in-memory itinerary tree. A `Journey` holds
  `Country` objects in a hash keyed by name. A `Country` holds `Location`
  objects the same way. A `Location` holds its accommodations, its photos and
  its departure ticket. `Activity`, `Accomodation`, `DepartureTicket` and
  `Visa` are bags of optional fields.
  All of these are Dafny classes whose setters change fields in place. Each
  setter's `modifies` clause names the single field it writes, so the
  verifier makes sure nothing else changes. The attribute modules
  (`Temporable`, `Detailable`, `Addressable`, `Costable`, `PathToFile`)
  become methods of each class that includes them and can run them.
  `Journey.camel_casify` is the one pure function in the file.
- `travel_planner.rb` holds the web application. The model keeps its logic
  and drops its plumbing:
  - checking a submitted journey name, including the `strip`;
  - choosing the message that explains a rejection;
  - checking the fields of a new country;
  - finding journeys and countries by id;
  - the `add_country` helper, which builds country → location → arrival
    date inside a journey.

Supporting modules:

- `RubyString` gives `strip`, ASCII `downcase` and a one-character `gsub`.
- `RubyEnum` gives `find`, `any?` and `none?`.
- `RubyHash` gives a string-keyed Ruby Hash that remembers insertion order.
  Storing under a new key appends it; storing under a key already present
  replaces the value and keeps the key's place.
- `Wrappers` gives `Option` and `Result`.

Inputs the Ruby code reads from outside become parameters:

- the names of the saved journeys;
- the loaded journeys or countries, with a function giving each one's id;
- the date check done by `Date.strptime`, as an uninterpreted predicate.

Points where the code itself settles what the model does:

- Countries and locations are held in name-keyed hashes. Storing under a
  name already present replaces the entry.
- `travel_planner.rb` reads `journey.id` and `c.id`, which the classes do not
  have. The lookups are therefore generic: the first element of a sequence
  whose id equals the one asked for.
- `add_accomodation` returns the list that `<<` gives back, so the model
  returns nothing.
- `camel_casify` does not merge runs of spaces: "FOO  Vacation" becomes
  "foo__vacation".

## Model

| member | source | states |
|---|---|---|
| RubyString.LStrip | travel_planner.rb:47 | The result is a suffix of the input. Everything dropped before it is whitespace. It does not start with whitespace. |
| RubyString.RStrip | travel_planner.rb:47 | The result is a prefix of the input. Everything dropped after it is whitespace. It does not end with whitespace. |
| RubyString.Strip | travel_planner.rb:47 | The result is no longer than the input. It is empty exactly when the input is all whitespace. Otherwise it neither starts nor ends with whitespace. |
| RubyString.StripCutsWhitespace | travel_planner.rb:47 | The input is some whitespace, then the stripped result as one contiguous piece, then more whitespace. |
| RubyString.StripLeavesTrimmed | travel_planner.rb:47 | A non-empty string with no whitespace at either end is not changed by `strip`. |
| RubyString.StripIdempotent | travel_planner.rb:47 | Stripping twice gives the same result as stripping once. |
| RubyString.Downcase | journey_classes.rb:93 | The length is kept, and each character is lowered on its own (ASCII letters only). |
| RubyString.GsubChar | journey_classes.rb:93 | The length is kept. Each occurrence of the pattern character is replaced, and every other character stays. |
| RubyEnum.Find | travel_planner.rb:105-108 | The result is nothing exactly when no element satisfies the block. Otherwise it is an element that satisfies the block, and no earlier element does. |
| RubyEnum.Any | travel_planner.rb:77-81 | True exactly when some element satisfies the block. |
| RubyEnum.NoneOf | travel_planner.rb:110-113 | True exactly when no element satisfies the block. |
| RubyEnum.NoneOfIffFindFails | travel_planner.rb:105-113 | `none?` holds exactly when `find` returns nothing. |
| RubyHash.Empty | journey_classes.rb:85 | `{}` is well formed and has no keys. |
| RubyHash.Hash.Store | journey_classes.rb:88-90 | After `h[k] = v`, `k` is bound to `v` and the hash stays well formed. Every other key keeps its membership and its value. A new key is appended to the order; an existing key keeps its place. |
| RubyHash.StorePreservesOrder | journey_classes.rb:113-115 | A store grows the key order by one for a new key and by none for an old key. Every earlier key stays in its position. |
| RubyHash.Hash.Values | travel_planner.rb:160-162 | There is one value per key, in insertion order, and each is the value bound to its key. |
| RubyHash.ValuesOf | travel_planner.rb:160-162 | The values bound to a list of keys come out in the order of the list. |
| RubyHash.ValuesWitness | travel_planner.rb:160-162 | Some value in the value list satisfies a predicate exactly when some bound key's value does. |
| JourneyClasses.Journey.constructor | journey_classes.rb:82-86 | The name is stored and `camel_case_name` is its slug. The countries hash is empty and the notes are unset. |
| JourneyClasses.Journey.CamelCasify | journey_classes.rb:92-94 | The slug has the name's length. Character i of the slug is character i of the name, lowered, with a space turned into `_`. |
| JourneyClasses.Journey.AddCountry | journey_classes.rb:88-90 | The country name is bound to a fresh Country of that name, which is returned. The new Country has no locations, an unasked visa and no notes. Other keys are unchanged, and an existing entry under the name is replaced. Only `countries` changes. |
| JourneyClasses.Journey.SetDetails | journey_classes.rb:38-40 | Only `details` changes, to the value given. |
| JourneyClasses.Journey.SetPros | journey_classes.rb:42-44 | Only `pros` changes, to the value given. |
| JourneyClasses.Journey.SetCons | journey_classes.rb:46-48 | Only `cons` changes, to the value given. |
| JourneyClasses.Country.constructor | journey_classes.rb:106-111 | The name is stored. There are no locations, the visa is unasked (`nil`) and the notes are unset. |
| JourneyClasses.Country.AddLocation | journey_classes.rb:113-115 | The name is bound to a fresh Location of that name in its initial state, which is returned. Other keys are unchanged, and an existing entry under the name is replaced. Only `locations` changes. |
| JourneyClasses.Country.SetVisa | journey_classes.rb:121-123 | If a visa is needed, the slot holds a fresh Visa with every field unset. Otherwise it holds the 'not needed' sentinel, which is distinct from unasked. Only `visa` changes. |
| JourneyClasses.Country.SetDetails | journey_classes.rb:38-40 | Only `details` changes, to the value given. |
| JourneyClasses.Country.SetPros | journey_classes.rb:42-44 | Only `pros` changes, to the value given. |
| JourneyClasses.Country.SetCons | journey_classes.rb:46-48 | Only `cons` changes, to the value given. |
| JourneyClasses.Location.constructor | journey_classes.rb:137-147 | `temporable_details` is exactly {arrival_date: nil, departure_date: nil}. There is no departure ticket, no accommodation, no photos and no notes. |
| JourneyClasses.Location.AddAccomodation | journey_classes.rb:149-151 | The list grows by exactly one and the earlier entries are unchanged. The new last entry is a fresh Accomodation of that name in its initial state. Repeated names are allowed. |
| JourneyClasses.Location.SetDepartureTicket | journey_classes.rb:157-159 | The ticket is replaced by a fresh one with every field unset, and that ticket is returned. |
| JourneyClasses.Location.AddPhoto | journey_classes.rb:161-163 | The path is appended at the end; nothing else in the list, or in the Location, changes. |
| JourneyClasses.Location.SetTemporable | journey_classes.rb:3-35 | Each Temporable setter writes exactly its own key of `temporable_details`; the other keys are unchanged. |
| JourneyClasses.Location.SetDetails | journey_classes.rb:38-40 | Only `details` changes, to the value given. |
| JourneyClasses.Location.SetPros | journey_classes.rb:42-44 | Only `pros` changes, to the value given. |
| JourneyClasses.Location.SetCons | journey_classes.rb:46-48 | Only `cons` changes, to the value given. |
| JourneyClasses.Activity.constructor | journey_classes.rb:177-185 | The cost and notes are unset. Both the temporal hash and the address hash start with their own two keys, each set to nil. Nothing is listed to bring. |
| JourneyClasses.Activity.AddItemToBring | journey_classes.rb:195-197 | The item is appended at the end, duplicates included. |
| JourneyClasses.Activity.SetTemporable | journey_classes.rb:3-35 | Each Temporable setter writes exactly its own key; the other keys are unchanged. |
| JourneyClasses.Activity.SetAddressable | journey_classes.rb:51-63 | An Addressable setter (arrival, departure or plain address) writes exactly its own key; the other keys are unchanged. |
| JourneyClasses.Activity.SetCost | journey_classes.rb:65-69 | Only `cost` changes, to the value given. |
| JourneyClasses.Activity.SetDetails | journey_classes.rb:38-40 | Only `details` changes, to the value given. |
| JourneyClasses.Activity.SetPros | journey_classes.rb:187-189 | Only `pros` changes, to the value given. |
| JourneyClasses.Activity.SetCons | journey_classes.rb:191-193 | Only `cons` changes, to the value given. |
| JourneyClasses.Accomodation.constructor | journey_classes.rb:210-224 | Every field is unset. The temporal hash starts with the arrival date, departure date, check-in and check-out keys, each nil. |
| JourneyClasses.Accomodation.SetBookingService | journey_classes.rb:226-228 | Only `booking_service` changes, to the value given. |
| JourneyClasses.Accomodation.SetTemporable | journey_classes.rb:3-35 | Each Temporable setter writes exactly its own key; the other keys are unchanged. |
| JourneyClasses.Accomodation.SetCost | journey_classes.rb:65-69 | Only `cost` changes, to the value given. |
| JourneyClasses.Accomodation.SetDetails | journey_classes.rb:38-40 | Only `details` changes, to the value given. |
| JourneyClasses.Accomodation.SetPros | journey_classes.rb:42-44 | Only `pros` changes, to the value given. |
| JourneyClasses.Accomodation.SetCons | journey_classes.rb:46-48 | Only `cons` changes, to the value given. |
| JourneyClasses.DepartureTicket.constructor | journey_classes.rb:244-255 | Every field is unset. The temporal hash holds the departure and arrival times and the address hash holds the departure and arrival addresses, each nil. |
| JourneyClasses.DepartureTicket.SetTransportMode | journey_classes.rb:257-259 | Only `transport_mode` changes, to the value given. |
| JourneyClasses.DepartureTicket.SetTicketNumber | journey_classes.rb:261-263 | Only `ticket_number` changes, to the value given. |
| JourneyClasses.DepartureTicket.SetTransportProvider | journey_classes.rb:265-267 | Only `transport_provider` changes, to the value given. |
| JourneyClasses.DepartureTicket.AddPathToFile | journey_classes.rb:71-75 | Only `path_to_file` changes, to the value given. |
| JourneyClasses.DepartureTicket.SetDetails | journey_classes.rb:38-40 | Only `details` changes, to the value given. |
| JourneyClasses.DepartureTicket.SetPros | journey_classes.rb:42-44 | Only `pros` changes, to the value given. |
| JourneyClasses.DepartureTicket.SetCons | journey_classes.rb:46-48 | Only `cons` changes, to the value given. |
| JourneyClasses.Visa.constructor | journey_classes.rb:287-294 | The type, number, entry and exit dates, information, path, cost and notes are all unset. |
| JourneyClasses.Visa.SetVisaType | journey_classes.rb:296-298 | Only `type` changes, to the value given. |
| JourneyClasses.Visa.SetVisaNumber | journey_classes.rb:300-302 | Only `number` changes, to the value given. |
| JourneyClasses.Visa.AddPathToFile | journey_classes.rb:71-75 | Only `path_to_file` changes, to the value given. |
| JourneyClasses.Visa.SetCost | journey_classes.rb:65-69 | Only `cost` changes, to the value given. |
| JourneyClasses.Visa.SetDetails | journey_classes.rb:38-40 | Only `details` changes, to the value given. |
| JourneyClasses.Visa.SetPros | journey_classes.rb:42-44 | Only `pros` changes, to the value given. |
| JourneyClasses.Visa.SetCons | journey_classes.rb:46-48 | Only `cons` changes, to the value given. |
| JourneyClasses.CamelCasifyShape | journey_classes.rb:92-94 | The slug has the name's length and contains no space and no upper-case letter. It has `_` exactly where the name has a space or `_`, so each space becomes one underscore and runs of spaces are not merged. |
| JourneyClasses.CamelCasifyIdempotent | journey_classes.rb:92-94 | The slug of a slug is the slug itself. |
| JourneyClasses.CamelCasifyIgnoresCaseAndSpacing | journey_classes.rb:92-94 | Two names that agree character by character up to letter case, and up to a space against an underscore, have the same slug. |
| JourneyClasses.CamelCasifyExample | journey_classes.rb:92-94 | "Foo Vacation" becomes "foo_vacation". |
| JourneyClasses.CamelCasifyKeepsSpaceRuns | journey_classes.rb:92-94 | "FOO  Vacation" becomes "foo__vacation": two spaces give two underscores. |
| JourneyClasses.SlugByCharacters | journey_classes.rb:92-94 | A string that agrees with the name's characters after lowering and replacing spaces is its slug. |
| TravelPlanner.MatchesNamePattern | travel_planner.rb:74 | The regex matches exactly when the name is non-empty and every character is an ASCII letter of either case, a digit, a space, `_` or `-`. |
| TravelPlanner.InvalidNameChars | travel_planner.rb:73-75 | True exactly when the name is empty or has a character outside that class. |
| TravelPlanner.NameInUse | travel_planner.rb:77-81 | True exactly when some saved name has the same `camel_casify` slug as the given name. |
| TravelPlanner.InvalidJourneyName | travel_planner.rb:67-71 | Invalid exactly when the name is empty, or has a character outside the class, or shares its slug with a saved name. Both directions are stated. |
| TravelPlanner.MessageForInvalidJourneyName | travel_planner.rb:83-93 | A message is given exactly when the name is invalid. The empty-name message comes first, then the bad-characters message, then the in-use message. |
| TravelPlanner.CheckSubmittedJourneyName | travel_planner.rb:46-60 | The submitted text is stripped first. It is accepted exactly when the stripped name is valid, and then the stripped name becomes the journey's name. Otherwise the rejection carries the message chosen for the stripped name. |
| TravelPlanner.JourneyFileName | travel_planner.rb:62-65 | The file name is the name's slug, character by character, followed by ".yml". |
| TravelPlanner.AcceptedNameGetsOwnFile | travel_planner.rb:62-65 | The file an accepted journey is saved to, its slug plus ".yml", differs from every saved journey's file. |
| TravelPlanner.AcceptedSlugIsPlain | travel_planner.rb:62-65 | An accepted name's slug contains only lower-case letters, digits, `_` and `-`, so no `/` or `.` can reach the file path. |
| TravelPlanner.WhitespaceOnlyNameIsMissing | travel_planner.rb:46-51 | A name made only of whitespace is rejected with the missing-name message. |
| TravelPlanner.BlankNameIsMissing | test/travel_planner_test.rb:103-109 | The submitted "  " is rejected with the missing-name message. |
| TravelPlanner.PathNameIsRejected | test/travel_planner_test.rb:83-90 | "../../hacking" is rejected with the bad-characters message, whatever journeys are saved. |
| TravelPlanner.RejectedForCharacters | travel_planner.rb:46-51 | A name with no whitespace at either end and with a character outside the class is rejected with the bad-characters message. |
| TravelPlanner.BadCharsChosen | travel_planner.rb:83-89 | A name with a character outside the class gets the bad-characters message. |
| TravelPlanner.CaseVariantsCollide | travel_planner.rb:77-81 | Two names that are equal once lowered are either both in use or both free. |
| TravelPlanner.CaseVariantOfSavedNameIsInUse | test/travel_planner_test.rb:92-101 | Once "Foo Vacation" is saved, "fOO vACATION" gets the in-use message. |
| TravelPlanner.CaseVariantHasSavedSlug | test/travel_planner_test.rb:92-101 | "fOO vACATION" has the slug of the saved "Foo Vacation". |
| TravelPlanner.CaseVariantHasNameChars | test/travel_planner_test.rb:92-101 | "fOO vACATION" has only characters from the class. |
| TravelPlanner.AnyEmpty | travel_planner.rb:160-162 | True exactly when some submitted field's value is the empty string. |
| TravelPlanner.InvalidNewCountry | travel_planner.rb:146-148 | The input is invalid exactly when some field is empty or the arrival date fails the date check. |
| TravelPlanner.MessageForInvalidNewCountry | travel_planner.rb:164-171 | A message is given exactly when the input is invalid. The empty-field message comes before the date message, and the date message is given only when no field is empty. |
| TravelPlanner.LoadJourney | travel_planner.rb:105-108 | The result is the first loaded journey, in order, with the given id, or nothing when none has it. |
| TravelPlanner.NonexistentJourney | travel_planner.rb:110-113 | True exactly when no loaded journey has the given id. |
| TravelPlanner.NonexistentIffNotLoaded | travel_planner.rb:105-113 | `nonexistent_journey?` holds exactly when `load_journey` finds nothing. |
| TravelPlanner.LoadCountry | travel_planner.rb:180-183 | The result is the first country, in order, with the given id, or nothing when none has it. |
| TravelPlanner.AddCountry | travel_planner.rb:140-144 | The journey binds the country name to a fresh Country of that name, replacing any old one; the other countries are untouched and the journey stays well formed. The new Country is well formed, its visa is unasked and it has no notes. Its locations hash is exactly {location name => a fresh Location}. That Location has `temporable_details` {arrival_date: the date, departure_date: nil} and no ticket, accommodation, photo or note. Only the journey's `countries` changes. |

## Left out

- Web plumbing: routes, sessions, ERB rendering, redirects and HTTP status codes. These are glue around the logic, not logic.
- Persistence: `data_path`, `load_journeys`, `save_journey` and `Psych.dump` are file and YAML I/O. Only the file name, the slug plus ".yml", is modelled.
- `invalid_date_format?`: `Date.strptime` is a library call. It is passed in as a predicate on the arrival-date text.
- `String#to_i` on ids taken from the URL: the lookups take an integer id.
- `params.each_value(&:strip!)` mutates the framework's parameter hash in place. The new-country checks take the hash as given. That hash also contains the route's `journey_id`, which the model does not add.
- Id allocation: the classes have no `id` and no allocator. The lookups take each element's id as a function instead.
- Breadcrumbs, path resolution and markdown rendering of notes do not appear in the modelled code.
- `Location#add_activity` uses the undefined name `act`, and the `@activites` spelling leaves the `activities` reader at nil. It fails every time, so it is not modelled.
- `Visa#set_information` has no `information=` writer and fails every time. `information` exists only in `Visa.constructor`.
- The `Temporable` and `Addressable` setters on `DepartureTicket` and `Visa` are not modelled: those classes have no `temporable_details` or `addressable_details` reader, so the setters fail. The same holds for the `Addressable` setters on `Accomodation`. `Accomodation` does read `temporable_details`, so its `Temporable` setters are modelled.
- `DepartureTicket#trip_duration` reads instance variables that are never assigned. `Country#length_of_stay` calls `last` on a Hash. Both fail, so neither is modelled.
- Return values of `<<` and of setters (the whole list, or the value stored) are not modelled. Only the factory methods that return the new object return it here.
- `downcase` and the regex match are ASCII only. Non-ASCII case mappings and the regex's Unicode case folding are not modelled.
- `strip` removes NUL, tab, line feed, vertical tab, form feed, carriage return and space at both ends, as current Ruby documents it. A Ruby version whose `lstrip` keeps a leading NUL is not modelled.
- TravelPlanner.InvalidNewCountry: requires that the arrival date was submitted whenever no field is empty. Without it, `Date.strptime(nil)` raises a `TypeError` instead of giving an answer.
- TravelPlanner.MessageForInvalidNewCountry: carries the same requirement as InvalidNewCountry, for the same reason.
- `temporable_details` and `addressable_details` are Dafny maps, so their Ruby insertion order is not modelled, and neither is the aliasing that hands out the live hash through `attr_reader`. Nothing in the modelled code reads that order or writes through a reader. Only `countries` and `locations` keep their order, through `RubyHash`.
- JourneyClasses.Journey.Valid: the journey's invariant covers its own hash and slug, not the Countries it holds. So a verified client can call `AddLocation` on the Country that `AddCountry` just returned (or built, as in `TravelPlanner.AddCountry`), but not on a Country read back out of `countries`, which Ruby allows.
- play.rb and private_meth_invocation_from_module.rb are scratch scripts and are not part of this model.
