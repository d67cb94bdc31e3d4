/** The request handler: looks a customer up by id, and validates and adds
    a customer. Each action becomes a response value; the HTTP binding, the
    asynchronous machinery and JSON serialisation are not modelled. */
module CustomersApi {
  import opened Primitives
  import opened Text
  import opened Calendar
  import opened CustomerDto
  import opened DataAccess

  /** Exceptions that escape an action or the constructor. */
  datatype Exception = ArgumentNull | NullReference | StorageFailure

  /** The anonymous object returned for a found customer; the field name
      `firstnname` keeps the spelling the service puts on the wire. */
  datatype Body = Body(id: int32, firstnname: NString, lastname: NString, age: int)

  datatype Response =
    | NotFound                    // 404
    | Ok(body: Body)              // an ObjectResult carrying the body, 200
    | BadRequest(message: string) // 400
    | Status(code: int)           // StatusCode(code)
    | Fault(exception: Exception) // an exception escaped the action

  /** The outcome of a constructor call. */
  datatype Construction<T> = Constructed(value: T) | Threw(exception: Exception)

  const InvalidBirthDateMessage := "invalid birth date"
  const CreatedStatus := 201

  /** The response `GetCustomerById` shapes from the transfer object the
      store returned: not found when it wraps no record (`dto.GetCustomer()`
      does not exist on the transfer object; "no record" is `customer == null`). */
  function LookupResponse(dto: CustomerDTO, today: CalendarDate): (r: Response)
    reads dto.customer
    ensures r.NotFound? || r.Ok?
    ensures r.NotFound? <==> dto.customer == null
    ensures r.Ok? ==>
      && r.body.id == dto.Id() && r.body.firstnname == dto.FirstName()
      && r.body.lastname == dto.LastName() && r.body.age == dto.Age(today)
  {
    if dto.customer == null then NotFound
    else Ok(Body(dto.Id(), dto.FirstName(), dto.LastName(), dto.Age(today)))
  }

  /** The guard chain of `AddCustomer`: which response it gives, before the store is called. */
  function AddResponse(dto: CustomerDTO?, culture: Culture): (r: Response)
    reads if dto == null then {} else {dto.customer}
    ensures r.Fault? || r.BadRequest? || r == Status(CreatedStatus)
    ensures r.Fault? ==> r.exception == NullReference
    ensures r.BadRequest? ==> dto != null && dto.customer != null
  {
    if dto == null then Fault(NullReference)
    else if IsNullOrWhiteSpace(dto.FirstName()) || IsNullOrWhiteSpace(dto.LastName()) || IsNullOrWhiteSpace(Some(dto.BirthDate(culture))) then
      // dto.CreateErrorMessage() reads the BirthDate getter, which dereferences the record
      if dto.customer == null then Fault(NullReference) else BadRequest(dto.ErrorMessage(culture))
    else if !dto.BirthDateParses(culture) then BadRequest(InvalidBirthDateMessage)
    else Status(CreatedStatus)
  }

  /** A null transfer object, or one wrapping no record, faults instead of
      giving 400. */
  lemma AddFaultsWithoutRecord(dto: CustomerDTO?, culture: Culture)
    requires dto == null || dto.customer == null
    ensures AddResponse(dto, culture) == Fault(NullReference)
  {
  }

  /** A blank first name, last name or birth-date text gives 400 carrying the
      validation message. */
  lemma AddRejectsBlankField(dto: CustomerDTO, culture: Culture)
    requires dto.customer != null
    requires IsNullOrWhiteSpace(dto.FirstName()) || IsNullOrWhiteSpace(dto.LastName()) || IsNullOrWhiteSpace(Some(dto.BirthDate(culture)))
    ensures AddResponse(dto, culture) == BadRequest(dto.ErrorMessage(culture))
  {
  }

  /** With all three fields present, a birth date that does not parse gives
      400 "invalid birth date". */
  lemma AddRejectsUnparseableDate(dto: CustomerDTO, culture: Culture)
    requires dto.customer != null
    requires !IsNullOrWhiteSpace(dto.FirstName()) && !IsNullOrWhiteSpace(dto.LastName()) && !IsNullOrWhiteSpace(Some(dto.BirthDate(culture)))
    requires !dto.BirthDateParses(culture)
    ensures AddResponse(dto, culture) == BadRequest(InvalidBirthDateMessage)
  {
  }

  /** The store is reached exactly when every check passes. */
  lemma AddAcceptsIff(dto: CustomerDTO?, culture: Culture)
    ensures AddResponse(dto, culture) == Status(CreatedStatus) <==>
      && dto != null && dto.customer != null
      && !IsNullOrWhiteSpace(dto.FirstName()) && !IsNullOrWhiteSpace(dto.LastName()) && !IsNullOrWhiteSpace(Some(dto.BirthDate(culture)))
      && dto.BirthDateParses(culture)
  {
  }

  /** The two kinds of 400 can be told apart: the validation message always
      ends in " can't be empty", the date message does not. */
  lemma RejectionsDistinct(firstBlank: bool, lastBlank: bool, birthInvalid: bool)
    ensures ErrorText(firstBlank, lastBlank, birthInvalid) != InvalidBirthDateMessage
  {
    var m := ErrorText(firstBlank, lastBlank, birthInvalid);
    assert m[|m| - 3..] == Suffix[|Suffix| - 3..] == "pty";
    assert InvalidBirthDateMessage[|InvalidBirthDateMessage| - 3..] == "ate";
  }

  /** Every date the current culture formats is non-blank and parses back to itself. */
  ghost predicate FormatRoundTrips(culture: Culture) {
    forall d: CalendarDate :: !IsNullOrWhiteSpace(Some(culture.format(d))) && culture.parse(culture.format(d)) == Some(d)
  }

  /** Because the `BirthDate` getter formats the stored date, neither
      birth-date check can fire when formatting round-trips: a record with
      both names present is always accepted, whatever text was set as its
      birth date. */
  lemma BirthDateChecksUnreachable(dto: CustomerDTO, culture: Culture)
    requires dto.customer != null && FormatRoundTrips(culture)
    requires !IsNullOrWhiteSpace(dto.FirstName()) && !IsNullOrWhiteSpace(dto.LastName())
    ensures AddResponse(dto, culture) == Status(CreatedStatus)
  {
    var d := dto.customer.birthDate;
    assert culture.parse(culture.format(d)) == Some(d);
  }

  class CustomersApiController {
    /** The data-access port the controller was given. */
    const model: Store

    constructor (model: Store)
      ensures this.model == model
    {
      this.model := model;
    }

    /** The constructor's `model ?? throw new ArgumentNullException(...)`. */
    static method Create(model: Store?) returns (r: Construction<CustomersApiController>)
      ensures r.Threw? <==> model == null
      ensures r.Threw? ==> r.exception == ArgumentNull
      ensures r.Constructed? ==> fresh(r.value) && r.value.model == model
    {
      if model == null {
        return Threw(ArgumentNull);
      }
      var c := new CustomersApiController(model);
      r := Constructed(c);
    }

    /** `GetCustomerById`: one query to the store with the same id, then the
        response shaped from what it returned. */
    method GetCustomerById(id: int32, today: CalendarDate) returns (r: Response, ghost found: CustomerDTO)
      modifies model`log
      ensures model.log == old(model.log) + [FindCall(id)]
      ensures fresh(found) && found.customer == if id in model.rows then model.rows[id] else null
      ensures r == LookupResponse(found, today)
      ensures r.NotFound? <==> id !in model.rows
    {
      var dto := model.FindCustomerById(id);
      r := LookupResponse(dto, today);
      found := dto;
    }

    /** `AddCustomer`: the guard chain, then exactly one call to the store when
        every check passes and none otherwise. */
    method AddCustomer(dto: CustomerDTO?, culture: Culture) returns (r: Response)
      requires model.Valid()
      modifies model
      ensures model.Valid()
      ensures AddResponse(dto, culture) != Status(CreatedStatus) ==>
        && r == AddResponse(dto, culture)
        && model.log == old(model.log)
        && model.rows == old(model.rows) && model.nextId == old(model.nextId)
      ensures AddResponse(dto, culture) == Status(CreatedStatus) ==>
        && model.log == old(model.log) + [AddCall(dto)]
        && r == (if old(model.nextId) < Int32Max then Status(CreatedStatus) else Fault(StorageFailure))
      ensures r == Status(CreatedStatus) ==>
        && old(model.nextId) in model.rows
        && model.rows == old(model.rows)[old(model.nextId) := model.rows[old(model.nextId)]]
        && fresh(model.rows[old(model.nextId)])
        && model.rows[old(model.nextId)].id == old(model.nextId)
        && model.nextId == old(model.nextId) + 1
        && Materialises(model.rows[old(model.nextId)], dto, culture)
      ensures r == Fault(StorageFailure) ==>
        model.rows == old(model.rows) && model.nextId == old(model.nextId)
    {
      if dto == null || IsNullOrWhiteSpace(dto.FirstName()) || IsNullOrWhiteSpace(dto.LastName()) || IsNullOrWhiteSpace(Some(dto.BirthDate(culture))) {
        if dto == null || dto.customer == null {
          // dto.CreateErrorMessage() dereferences a null object
          return Fault(NullReference);
        }
        var errorMessage := dto.CreateErrorMessage(culture);
        return BadRequest(errorMessage);
      }
      if !dto.BirthDateParses(culture) {
        return BadRequest(InvalidBirthDateMessage);
      }
      var stored := model.AddCustomer(dto, culture);
      r := if stored then Status(CreatedStatus) else Fault(StorageFailure);
    }
  }
}
