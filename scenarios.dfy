/** Whole requests run against a fresh store: the cases the service's unit
    tests exercise, and adding a customer then reading it back. Each
    assumes a culture whose date formatting round-trips through parsing. */
module Scenarios {
  import opened Primitives
  import opened Text
  import opened Calendar
  import opened CustomerDto
  import opened DataAccess
  import opened CustomersApi

  /** A request body bound to a transfer object: `new CustomerDTO { BirthDate
      = birth, FirstName = first, LastName = last }`. */
  method BindDto(birth: NString, first: NString, last: NString, culture: Culture) returns (dto: CustomerDTO)
    ensures fresh(dto) && dto.customer != null && fresh(dto.customer)
    ensures dto.customer.id == 0 && dto.customer.birthDate == ParsedOrDefault(culture, birth)
    ensures dto.FirstName() == first && dto.LastName() == last
  {
    dto := new CustomerDTO();
    dto.SetBirthDate(birth, culture);
    dto.SetFirstName(first);
    dto.SetLastName(last);
  }

  /** Valid fields: 201, and the store is called once, with the same object. */
  method AddValidCustomer(culture: Culture) returns (r: Response, dto: CustomerDTO, calls: seq<PortCall>)
    requires FormatRoundTrips(culture)
    ensures r == Status(CreatedStatus) && calls == [AddCall(dto)]
  {
    var store := new Store();
    var controller := new CustomersApiController(store);
    dto := BindDto(Some("11.11.1111"), Some("test"), Some("test"), culture);
    BirthDateChecksUnreachable(dto, culture);
    r := controller.AddCustomer(dto, culture);
    calls := store.log;
  }

  /** An empty birth-date text is stored as MinValue and the getter formats
      that date, so the request is accepted and the store is called. */
  method AddWithEmptyBirthDate(culture: Culture) returns (r: Response, dto: CustomerDTO, calls: seq<PortCall>)
    requires FormatRoundTrips(culture)
    ensures r == Status(CreatedStatus) && calls == [AddCall(dto)]
  {
    var store := new Store();
    var controller := new CustomersApiController(store);
    dto := BindDto(Some(""), Some("test"), Some("test"), culture);
    BirthDateChecksUnreachable(dto, culture);
    r := controller.AddCustomer(dto, culture);
    calls := store.log;
  }

  /** An empty first name: 400 "FirstName can't be empty", the store is never called. */
  method AddWithEmptyFirstName(culture: Culture) returns (r: Response, calls: seq<PortCall>)
    requires FormatRoundTrips(culture)
    ensures r == BadRequest(FirstNameField + Suffix) && calls == []
  {
    var store := new Store();
    var controller := new CustomersApiController(store);
    var dto := BindDto(Some("11.11.1111"), Some(""), Some("test"), culture);
    var d := dto.customer.birthDate;
    assert culture.parse(culture.format(d)) == Some(d);
    ErrorTextSingleCases();
    r := controller.AddCustomer(dto, culture);
    calls := store.log;
  }

  /** An empty last name: 400 "LastName can't be empty", the store is never called. */
  method AddWithEmptyLastName(culture: Culture) returns (r: Response, calls: seq<PortCall>)
    requires FormatRoundTrips(culture)
    ensures r == BadRequest(LastNameField + Suffix) && calls == []
  {
    var store := new Store();
    var controller := new CustomersApiController(store);
    var dto := BindDto(Some("11.11.1111"), Some("test"), Some(""), culture);
    var d := dto.customer.birthDate;
    assert culture.parse(culture.format(d)) == Some(d);
    ErrorTextSingleCases();
    r := controller.AddCustomer(dto, culture);
    calls := store.log;
  }

  /** An id nothing was stored under: 404 after exactly one query with that id. */
  method GetMissingCustomer(id: int32, today: CalendarDate) returns (r: Response, calls: seq<PortCall>)
    ensures r == NotFound && calls == [FindCall(id)]
  {
    var store := new Store();
    var controller := new CustomersApiController(store);
    ghost var found;
    r, found := controller.GetCustomerById(id, today);
    calls := store.log;
  }

  /** Adding a customer and reading it back under the id the store assigned
      gives the names that were sent and the age of the parsed birth date;
      reading twice gives the same answer. */
  method AddThenGet(first: string, last: string, birth: string, culture: Culture, today: CalendarDate)
    returns (added: Response, got: Response, again: Response)
    requires FormatRoundTrips(culture)
    requires !IsNullOrWhiteSpace(Some(first)) && !IsNullOrWhiteSpace(Some(last))
    ensures added == Status(CreatedStatus)
    ensures got == Ok(Body(1, Some(first), Some(last), GetAge(ParsedOrDefault(culture, Some(birth)), today)))
    ensures again == got
  {
    var store := new Store();
    var controller := new CustomersApiController(store);
    var dto := BindDto(Some(birth), Some(first), Some(last), culture);
    var d := dto.customer.birthDate;
    assert culture.parse(culture.format(d)) == Some(d);
    BirthDateChecksUnreachable(dto, culture);
    added := controller.AddCustomer(dto, culture);
    ghost var found;
    got, found := controller.GetCustomerById(1, today);
    again, found := controller.GetCustomerById(1, today);
  }
}
