/** The persisted customer record: four plain read/write properties. */
module Customers {
  import opened Primitives
  import opened Calendar

  class Customer {
    var id: int32
    var firstName: NString
    var lastName: NString
    var birthDate: CalendarDate

    /** `new Customer()`: every property holds its type's default value. */
    constructor ()
      ensures id == 0 && firstName == None && lastName == None && birthDate == MinValue
    {
      id, firstName, lastName, birthDate := 0, None, None, MinValue;
    }
  }
}
