# CustomersWebApi — a verified model of the transfer object and the controller

The service exposes two actions on a customer record (id, first name, last
name, birth date): look a customer up by id, and validate and add one. This
project models its logic in Dafny:

- `Customers.Customer` — the record, a class with four mutable fields.
- `CustomerDto.CustomerDTO` — the transfer object wrapping a (possibly null)
  record: write-through setters, getters, the age computation, the
  validation message built step by step, and materialisation of a fresh
  record. Dates are (year, month, day) triples of the Gregorian calendar
  (`Calendar`), with `AddYears` clamping February 29 to February 28.
- `DataAccess.Store` — a map-backed stand-in for the data-access port
  (`IModel`) that records every call made to it.
- `CustomersApi.CustomersApiController` — the two actions, each proved against
  a pure function (`LookupResponse`, `AddResponse`) that states which
  response is given. Which calls reach the store, and how its state changes,
  is stated by the `ensures` of the controller's methods.
- `Scenarios` — whole requests over a fresh store, following the unit tests.

Culture-dependent `DateTime.TryParse` and `DateTime.ToString` are the two
functions of a `Calendar.Culture` value passed as a parameter. "Today" is a
parameter too.

Points where the model follows the code as written:

- `GetCustomerById` calls `dto.GetCustomer()`
  (CustomersWebApi/Controllers/CustomersApiController.cs:44), which the
  transfer object does not define. "No record" is modelled as the transfer
  object wrapping `null`, the case `new CustomerDTO(null)` produces.
- There is no lazy or cached materialisation. `CreateCustomer` builds a
  fresh record on every call.
- A null transfer object passed to `AddCustomer` is dereferenced at
  CustomersApiController.cs:77. It faults (`Fault(NullReference)`); it is
  not treated as "all fields invalid". A transfer object wrapping no record
  faults the same way, inside `CreateErrorMessage`.
- The `BirthDate` setter never keeps the text it is given. It stores the
  parsed date or `MinValue`, and the getter formats the stored date. So
  whenever formatting round-trips through parsing, neither birth-date check
  of `AddCustomer` can fire (`CustomersApi.BirthDateChecksUnreachable`). An
  empty birth-date text with valid names is then accepted with 201, not
  rejected with 400 (`Scenarios.AddWithEmptyBirthDate`). That round trip is
  culture behaviour, so it appears only as a `requires`
  (`CustomersApi.FormatRoundTrips`).
- The body field `firstnname` keeps its misspelling.

## Model

| member | source | states |
|---|---|---|
| `Text.WhiteSpaceSamples` | CustomersWebApi/Data/CustomerDTO.cs:91 | `IsWhiteSpace` (the character test of `string.IsNullOrWhiteSpace`) accepts space, tab, line feed, carriage return, no-break space, ideographic space and line separator, and rejects a letter, zero-width space, byte-order mark and NUL |
| `Calendar.BeforeStrictTotalOrder` | CustomersWebApi/Data/CustomerDTO.cs:77 | `Before`, the date comparison `>` of `GetAge`, is irreflexive, asymmetric, transitive and total on distinct dates |
| `Calendar.TryParse` | CustomersWebApi/Data/CustomerDTO.cs:62-64 | null text never parses; other text parses as the culture parses it |
| `Calendar.ParsedOrDefault` | CustomersWebApi/Data/CustomerDTO.cs:62-64 | the date `TryParse` leaves in its out-parameter: the parsed date, or 0001-01-01 when parsing fails |
| `Customers.Customer.constructor` | CustomersWebApi/Data/Customer.cs:9-31 | a new record has id 0, null names and the default date 0001-01-01 |
| `Calendar.AddYears` | CustomersWebApi/Data/CustomerDTO.cs:77 | the result keeps month and day in year `d.year + n`; the day changes only for February 29 in a common target year, and then becomes 28 |
| `Text.IsNullOrWhiteSpace` | CustomersWebApi/Data/CustomerDTO.cs:91 | null is blank; a string is blank exactly when every character is white space |
| `Text.JoinSnoc` | CustomersWebApi/Data/CustomerDTO.cs:97-101 | appending a name to a joined list puts the separator before it exactly when the list was not empty |
| `Text.JoinLength` | CustomersWebApi/Data/CustomerDTO.cs:95-110 | the length of a join is the total length of the parts plus one separator length per neighbouring pair |
| `CustomerDto.GetAge` | CustomersWebApi/Data/CustomerDTO.cs:73-82 | the age is the year difference or one less |
| `CustomerDto.AgeCountsCompletedYears` | CustomersWebApi/Data/CustomerDTO.cs:73-82 | the decrement happens exactly when the birth (month, day) is after today's (month, day), including a February 29 birthday on February 28 of a common year |
| `CustomerDto.AgeNonNegativeIff` | CustomersWebApi/Data/CustomerDTO.cs:75-81 | the age is non-negative exactly when the birth date is not after today |
| `CustomerDto.AgeAtAnniversary` | CustomersWebApi/Data/CustomerDTO.cs:73-82 | someone born exactly n years before today is n years old |
| `CustomerDto.AgeMonotone` | CustomersWebApi/Data/CustomerDTO.cs:73-82 | the age never decreases as today advances |
| `CustomerDto.AgeExamples` | CustomersWebApi/Data/CustomerDTO.cs:73-82 | worked values: a February 29 birthday before, on and after the boundary; the day before a birthday, the birthday itself, and the day after |
| `CustomerDto.FailingFields` | CustomersWebApi/Data/CustomerDTO.cs:91-110 | each name is listed exactly when its check fails, and the list follows the order FirstName, LastName, BirthDate |
| `CustomerDto.ErrorText` | CustomersWebApi/Data/CustomerDTO.cs:112 | the message always ends with " can't be empty", and is exactly that when no check fails |
| `CustomerDto.ErrorTextSingleCases` | CustomersWebApi/Data/CustomerDTO.cs:88-113 | with at most one failing check the message is the suffix alone or that one name before it |
| `CustomerDto.ErrorTextTwoFailures` | CustomersWebApi/Data/CustomerDTO.cs:95-110 | two failing names appear in checking order, with ", " between them |
| `CustomerDto.ErrorTextAllFail` | CustomersWebApi/Data/CustomerDTO.cs:88-113 | all three failing gives "FirstName, LastName, BirthDate can't be empty" |
| `CustomerDto.ErrorTextInjective` | CustomersWebApi/Data/CustomerDTO.cs:88-113 | equal messages come from the same failing checks |
| `CustomerDto.AppendField` | CustomersWebApi/Data/CustomerDTO.cs:97-101 | one append step (separator when the builder is non-empty, then the name) extends the joined list by that name |
| `CustomerDto.CustomerDTO.constructor` | CustomersWebApi/Data/CustomerDTO.cs:11 | the default transfer object wraps a fresh default record |
| `CustomerDto.CustomerDTO.Wrap` | CustomersWebApi/Data/CustomerDTO.cs:17-20 | the transfer object wraps exactly the given record, null included |
| `CustomerDto.CustomerDTO.Id` | CustomersWebApi/Data/CustomerDTO.cs:32 | the getter yields the wrapped record's id |
| `CustomerDto.CustomerDTO.BirthDate` | CustomersWebApi/Data/CustomerDTO.cs:59 | the getter yields the record's stored date formatted by the culture |
| `CustomerDto.CustomerDTO.Age` | CustomersWebApi/Data/CustomerDTO.cs:71 | the age of the record's stored birth date on the given day, so the year difference or one less |
| `CustomerDto.CustomerDTO.FirstName` | CustomersWebApi/Data/CustomerDTO.cs:39-43 | the getter yields null when no record is wrapped |
| `CustomerDto.CustomerDTO.LastName` | CustomersWebApi/Data/CustomerDTO.cs:48-52 | the getter yields null when no record is wrapped |
| `CustomerDto.CustomerDTO.SetId` | CustomersWebApi/Data/CustomerDTO.cs:30-34 | the setter writes the record's id; no other field changes |
| `CustomerDto.CustomerDTO.SetFirstName` | CustomersWebApi/Data/CustomerDTO.cs:39-43 | the setter writes the record's first name; no other field changes |
| `CustomerDto.CustomerDTO.SetLastName` | CustomersWebApi/Data/CustomerDTO.cs:48-52 | the setter writes the record's last name; no other field changes |
| `CustomerDto.CustomerDTO.SetBirthDate` | CustomersWebApi/Data/CustomerDTO.cs:57-66 | the setter stores the parsed date; text that does not parse stores 0001-01-01, and the getter then yields that date formatted; no other field changes |
| `CustomerDto.CustomerDTO.CreateErrorMessage` | CustomersWebApi/Data/CustomerDTO.cs:88-113 | the message built append by append equals the joined failing names followed by " can't be empty" |
| `CustomerDto.CustomerDTO.CreateCustomer` | CustomersWebApi/Data/CustomerDTO.cs:119-127 | a fresh record with id 0, the transfer object's names, and the parse of its formatted birth date |
| `DataAccess.Store.constructor` | CustomersWebApi/Models/CustomersDbContext.cs:9-11 | a new store holds no customers, logs no calls and will assign id 1 first |
| `DataAccess.Store.AddCustomer` | CustomersWebApi/Models/CustomersDbContext.cs:14-18 | the call is logged; the materialised record is stored under a new id and nothing else changes, or nothing is stored when ids run out |
| `DataAccess.Store.FindCustomerById` | CustomersWebApi/Models/CustomersDbContext.cs:21-25 | the call is logged; a fresh transfer object wraps the stored record, or null when the id is absent |
| `CustomersApi.LookupResponse` | CustomersWebApi/Controllers/CustomersApiController.cs:44-56 | not found exactly when no record is wrapped; otherwise id, firstnname, lastname and age equal the transfer object's Id, FirstName, LastName and Age |
| `CustomersApi.AddResponse` | CustomersWebApi/Controllers/CustomersApiController.cs:72-83 | the guards end in a null-reference fault, a 400 (only when the object and its record exist) or 201, never another response |
| `CustomersApi.AddFaultsWithoutRecord` | CustomersWebApi/Controllers/CustomersApiController.cs:72-77 | a null transfer object, or one wrapping null, faults with a null dereference instead of giving 400 |
| `CustomersApi.AddRejectsBlankField` | CustomersWebApi/Controllers/CustomersApiController.cs:72-79 | a blank first name, last name or birth-date text gives 400 with the validation message |
| `CustomersApi.AddRejectsUnparseableDate` | CustomersWebApi/Controllers/CustomersApiController.cs:80-83 | all fields present but an unparseable birth date gives 400 "invalid birth date" |
| `CustomersApi.AddAcceptsIff` | CustomersWebApi/Controllers/CustomersApiController.cs:72-87 | the response is 201 exactly when the object and its record exist, no field is blank and the birth date parses |
| `CustomersApi.RejectionsDistinct` | CustomersWebApi/Controllers/CustomersApiController.cs:77-82 | the validation message is never "invalid birth date" |
| `CustomersApi.BirthDateChecksUnreachable` | CustomersWebApi/Controllers/CustomersApiController.cs:72-87 | when formatting round-trips, a record with both names present is accepted whatever birth-date text was set |
| `CustomersApi.CustomersApiController.constructor` | CustomersWebApi/Controllers/CustomersApiController.cs:21-24 | `Model` is exactly the argument |
| `CustomersApi.CustomersApiController.Create` | CustomersWebApi/Controllers/CustomersApiController.cs:21-24 | a null port throws ArgumentNullException; otherwise a fresh controller holds exactly the given port |
| `CustomersApi.CustomersApiController.GetCustomerById` | CustomersWebApi/Controllers/CustomersApiController.cs:41-57 | the store is queried exactly once, with the same id; the response is `LookupResponse` of what it returned, so 404 exactly when the id is absent |
| `CustomersApi.CustomersApiController.AddCustomer` | CustomersWebApi/Controllers/CustomersApiController.cs:70-88 | when the guards reject, the response is `AddResponse` and the store is never called; otherwise the store is called exactly once with the same object and the response is 201 unless the store fails |
| `Scenarios.BindDto` | CustomersWebApiTests/CustomersApiControllerTests.cs:77-82 | the object initialiser of the tests yields a fresh object and record with id 0, the parsed (or default) birth date and the given names |
| `Scenarios.AddValidCustomer` | CustomersWebApiTests/CustomersApiControllerTests.cs:74-93 | valid fields give 201 and exactly one add call with the same object |
| `Scenarios.AddWithEmptyBirthDate` | CustomersWebApiTests/CustomersApiControllerTests.cs:95-114 | an empty birth-date text with valid names gives 201 and one add call, because the setter stored 0001-01-01 |
| `Scenarios.AddWithEmptyFirstName` | CustomersWebApiTests/CustomersApiControllerTests.cs:116-135 | an empty first name gives 400 "FirstName can't be empty" and no store call |
| `Scenarios.AddWithEmptyLastName` | CustomersWebApiTests/CustomersApiControllerTests.cs:137-156 | an empty last name gives 400 "LastName can't be empty" and no store call |
| `Scenarios.GetMissingCustomer` | CustomersWebApiTests/CustomersApiControllerTests.cs:56-72 | an absent id gives 404 after exactly one query with that id |
| `Scenarios.AddThenGet` | CustomersWebApi/Controllers/CustomersApiController.cs:41-87 | a customer that was added reads back under its new id with the names sent and the age of the parsed birth date; a second read gives the same response |

## Left out

- Asynchronous execution (`async`, `Task`, `await`): store calls are sequential method calls.
- HTTP routing, `IActionResult` subclasses and JSON serialisation: responses are the `CustomersApi.Response` datatype.
- The Entity Framework context: `DataAccess.Store` stands in for it. Its id assignment (1, 2, 3, …, failing instead of assigning `Int32Max`) is the stand-in's own policy.
- `DateTime.TryParse` and `DateTime.ToString` depend on the current culture: they are the parameters of `Calendar.Culture`, and every property that needs them to round-trip says so in a `requires`.
- `DateTime.Today`: a parameter.
- Time of day: dates carry no time. A parsed birth date with a time after midnight, on the day that today shifted back falls on, makes the source decrement the age; the model does not.
- `Calendar.AddYears`: the `ArgumentOutOfRangeException` for a result year outside 1..9999 is a precondition. `GetAge` never reaches it, because the shifted year is the birth year.
- Null dereferences inside the transfer object (`Id`, `BirthDate`, `Age`, the setters, `CreateErrorMessage`, `CreateCustomer` on an object wrapping null) are preconditions of those members. The controller models the one path on which it reaches them as the outcome `Fault(NullReference)`.
- `CreateCustomer`: the `FormatException` of `DateTime.Parse` on unparseable text is a precondition. Its only caller, the store's add, is reached only after the controller has checked that the text parses.
- A port that returns a null transfer object from a lookup: the stand-in never does. A storage failure during a lookup is not modelled.
- Concurrency between requests.
