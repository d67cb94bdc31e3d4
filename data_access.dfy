/** The data-access port (`IModel`): add a customer, find one by id. The
    Entity Framework context behind it is replaced by a map-backed store
    that records every call made to it, so that callers' contracts can say
    how often and with what each operation was invoked. */
module DataAccess {
  import opened Primitives
  import opened Calendar
  import opened Customers
  import opened CustomerDto

  /** One invocation of the port. */
  datatype PortCall = AddCall(dto: CustomerDTO) | FindCall(id: int32)

  /** `c` is the record `dto.CreateCustomer()` materialises: the same names and
      the parse of the formatted birth date. */
  ghost predicate Materialises(c: Customer, dto: CustomerDTO, culture: Culture)
    requires dto.customer != null
    reads c, dto.customer
  {
    && c.firstName == dto.FirstName()
    && c.lastName == dto.LastName()
    && Some(c.birthDate) == culture.parse(dto.BirthDate(culture))
  }

  class Store {
    /** The table of customers, keyed by the id the store assigned. */
    var rows: map<int32, Customer>
    /** The id the next stored customer receives. */
    var nextId: int32
    /** Every call made to the port, oldest first. */
    var log: seq<PortCall>

    ghost predicate Valid()
      reads this
    {
      0 < nextId && forall k :: k in rows ==> 0 < k < nextId
    }

    constructor ()
      ensures Valid() && rows == map[] && nextId == 1 && log == []
    {
      rows, nextId, log := map[], 1, [];
    }

    /** `AddCustomerAsync`: stores `dto.CreateCustomer()` under a new id. When
        the id range is exhausted the store fails and nothing is stored. */
    method AddCustomer(dto: CustomerDTO, culture: Culture) returns (stored: bool)
      requires Valid()
      requires dto.customer != null && dto.BirthDateParses(culture)
      modifies this
      ensures Valid()
      ensures log == old(log) + [AddCall(dto)]
      ensures stored <==> old(nextId) < Int32Max
      ensures !stored ==> rows == old(rows) && nextId == old(nextId)
      ensures stored ==>
        && old(nextId) !in old(rows)
        && old(nextId) in rows
        && rows == old(rows)[old(nextId) := rows[old(nextId)]]
        && nextId == old(nextId) + 1
        && fresh(rows[old(nextId)])
        && rows[old(nextId)].id == old(nextId)
        && Materialises(rows[old(nextId)], dto, culture)
    {
      log := log + [AddCall(dto)];
      if nextId == Int32Max {
        return false;
      }
      var c := dto.CreateCustomer(culture);
      c.id := nextId;
      rows := rows[nextId := c];
      nextId := nextId + 1;
      stored := true;
    }

    /** `FindCustomerByIdAsync`: a fresh transfer object wrapping the stored
        record, or wrapping null when no record has that id. */
    method FindCustomerById(id: int32) returns (dto: CustomerDTO)
      modifies this`log
      ensures log == old(log) + [FindCall(id)]
      ensures fresh(dto)
      ensures dto.customer == if id in rows then rows[id] else null
    {
      log := log + [FindCall(id)];
      dto := new CustomerDTO.Wrap(if id in rows then rows[id] else null);
    }
  }
}
