/** The transfer object that wraps a `Customer` record: write-through
    properties, the derived age, the validation message and the
    materialisation of a fresh record. */
module CustomerDto {
  import opened Primitives
  import opened Text
  import opened Calendar
  import opened Customers

  /** The `nameof` of the three validated properties, in the order they are checked. */
  const FirstNameField := "FirstName"
  const LastNameField := "LastName"
  const BirthDateField := "BirthDate"
  const Separator := ", "
  const Suffix := " can't be empty"

  // ---------------------------------------------------------------- age

  /** `GetAge`: the year difference, less one when `birthDate` lies after
      `today` moved back by that many years. */
  function GetAge(birthDate: CalendarDate, today: CalendarDate): (age: int)
    ensures age == today.year - birthDate.year || age == today.year - birthDate.year - 1
  {
    var age := today.year - birthDate.year;
    if Before(AddYears(today, -age), birthDate) then age - 1 else age
  }

  /** The age counts completed years: the year difference, less one exactly
      when the birthday's (month, day) has not been reached in today's year.
      A February 29 birthday is not reached on February 28 of a common year. */
  lemma AgeCountsCompletedYears(birthDate: CalendarDate, today: CalendarDate)
    ensures GetAge(birthDate, today)
         == today.year - birthDate.year - (if MonthDayAfter(birthDate, today) then 1 else 0)
  {
    var shifted := AddYears(today, -(today.year - birthDate.year));
    if shifted.day != today.day {
      // today is February 29 and the birth year is common, so the birthday is not February 29
      assert birthDate.month == 2 ==> birthDate.day <= 28;
    }
  }

  /** The age is negative exactly for a birth date after today. */
  lemma AgeNonNegativeIff(birthDate: CalendarDate, today: CalendarDate)
    ensures GetAge(birthDate, today) >= 0 <==> !Before(today, birthDate)
  {
    AgeCountsCompletedYears(birthDate, today);
  }

  /** Born exactly `n` years before today (February 29 clamped to February 28),
      one is `n` years old. */
  lemma AgeAtAnniversary(today: CalendarDate, n: int)
    requires 0 <= n < today.year
    ensures GetAge(AddYears(today, -n), today) == n
  {
    AgeCountsCompletedYears(AddYears(today, -n), today);
  }

  /** The age never decreases as today advances. */
  lemma AgeMonotone(birthDate: CalendarDate, today: CalendarDate, later: CalendarDate)
    requires !Before(later, today)
    ensures GetAge(birthDate, today) <= GetAge(birthDate, later)
  {
    AgeCountsCompletedYears(birthDate, today);
    AgeCountsCompletedYears(birthDate, later);
  }

  /** Worked cases around a leap-day birthday and a day-precise boundary. */
  lemma AgeExamples()
    ensures GetAge(Date(2000, 2, 29), Date(2023, 2, 28)) == 22
    ensures GetAge(Date(2000, 2, 29), Date(2023, 3, 1)) == 23
    ensures GetAge(Date(2000, 2, 29), Date(2024, 2, 29)) == 24
    ensures GetAge(Date(1994, 10, 16), Date(2024, 10, 15)) == 29
    ensures GetAge(Date(1994, 10, 16), Date(2024, 10, 16)) == 30
    ensures GetAge(Date(1994, 10, 15), Date(2024, 10, 16)) == 30
  {
  }

  // ---------------------------------------------------------------- validation message

  /** Position of a field name in the fixed checking order. */
  function Rank(field: string): int
  {
    if field == FirstNameField then 0 else if field == LastNameField then 1 else 2
  }

  /** The names of the failing checks, in checking order. */
  function FailingFields(firstBlank: bool, lastBlank: bool, birthInvalid: bool): (r: seq<string>)
    ensures FirstNameField in r <==> firstBlank
    ensures LastNameField in r <==> lastBlank
    ensures BirthDateField in r <==> birthInvalid
    ensures forall i :: 0 <= i < |r| ==> r[i] in [FirstNameField, LastNameField, BirthDateField]
    ensures forall i, j :: 0 <= i < j < |r| ==> Rank(r[i]) < Rank(r[j])
  {
    (if firstBlank then [FirstNameField] else [])
    + (if lastBlank then [LastNameField] else [])
    + (if birthInvalid then [BirthDateField] else [])
  }

  /** The text `CreateErrorMessage` produces for the given check outcomes. */
  function ErrorText(firstBlank: bool, lastBlank: bool, birthInvalid: bool): (r: string)
    ensures |r| >= |Suffix| && r[|r| - |Suffix|..] == Suffix
    ensures r == Suffix <==> !firstBlank && !lastBlank && !birthInvalid
  {
    var fields := FailingFields(firstBlank, lastBlank, birthInvalid);
    JoinEmptyIff(fields, Separator);
    var r := Join(fields, Separator) + Suffix;
    assert r[|r| - |Suffix|..] == Suffix;
    r
  }

  /** The messages when at most one check fails: the suffix alone, or one name before it. */
  lemma ErrorTextSingleCases()
    ensures ErrorText(false, false, false) == Suffix
    ensures ErrorText(true, false, false) == FirstNameField + Suffix
    ensures ErrorText(false, true, false) == LastNameField + Suffix
    ensures ErrorText(false, false, true) == BirthDateField + Suffix
  {
  }

  /** The messages when two checks fail: the names in checking order, ", " between them. */
  lemma ErrorTextTwoFailures()
    ensures ErrorText(true, true, false) == FirstNameField + Separator + LastNameField + Suffix
    ensures ErrorText(true, false, true) == FirstNameField + Separator + BirthDateField + Suffix
    ensures ErrorText(false, true, true) == LastNameField + Separator + BirthDateField + Suffix
  {
  }

  /** The message when all three checks fail. */
  lemma ErrorTextAllFail()
    ensures ErrorText(true, true, true)
         == FirstNameField + Separator + LastNameField + Separator + BirthDateField + Suffix
  {
    var all := [FirstNameField, LastNameField, BirthDateField];
    assert all[1..] == [LastNameField, BirthDateField];
  }

  /** The message tells exactly which checks failed. */
  lemma ErrorTextInjective(f1: bool, l1: bool, b1: bool, f2: bool, l2: bool, b2: bool)
    requires ErrorText(f1, l1, b1) == ErrorText(f2, l2, b2)
    ensures f1 == f2 && l1 == l2 && b1 == b2
  {
    // The listed names differ in total length or, for equal lengths, in their first letter.
    var p1, p2 := FailingFields(f1, l1, b1), FailingFields(f2, l2, b2);
    var m := ErrorText(f1, l1, b1);
    assert Join(p1, Separator) == m[..|m| - |Suffix|] == Join(p2, Separator);
    JoinLength(p1, Separator);
    JoinLength(p2, Separator);
    if p1 != [] { JoinHead(p1, Separator); }
    if p2 != [] { JoinHead(p2, Separator); }
  }

  /** One step of building the message: a separator when something was
      written already, then the field name. */
  method AppendField(message: string, ghost listed: seq<string>, field: string) returns (r: string)
    requires message == Join(listed, Separator)
    requires forall i :: 0 <= i < |listed| ==> listed[i] != ""
    ensures r == Join(listed + [field], Separator)
  {
    JoinEmptyIff(listed, Separator);
    JoinSnoc(listed, field, Separator);
    r := message;
    if |r| > 0 {
      r := r + Separator;
    }
    r := r + field;
  }

  // ---------------------------------------------------------------- the transfer object

  class CustomerDTO {
    /** The wrapped record; null when the store found no customer. */
    const customer: Customer?

    /** `new CustomerDTO()`: wraps a fresh record holding default values. */
    constructor ()
      ensures customer != null && fresh(customer)
      ensures customer.id == 0 && customer.firstName == None && customer.lastName == None
      ensures customer.birthDate == MinValue
    {
      customer := new Customer();
    }

    /** `new CustomerDTO(customer)`: wraps the given record, which may be null. */
    constructor Wrap(c: Customer?)
      ensures customer == c
    {
      customer := c;
    }

    /** The `Id` getter; it dereferences the record. */
    function Id(): (r: int32)
      requires customer != null
      reads customer
      ensures r == customer.id
    {
      customer.id
    }

    /** The `FirstName` getter: null when no record is wrapped. */
    function FirstName(): (r: NString)
      reads customer
      ensures customer == null ==> r == None
    {
      if customer == null then None else customer.firstName
    }

    /** The `LastName` getter: null when no record is wrapped. */
    function LastName(): (r: NString)
      reads customer
      ensures customer == null ==> r == None
    {
      if customer == null then None else customer.lastName
    }

    /** The `BirthDate` getter: the stored date formatted by the current culture. */
    function BirthDate(culture: Culture): (r: string)
      requires customer != null
      reads customer
      ensures r == culture.format(customer.birthDate)
    {
      culture.format(customer.birthDate)
    }

    /** The `Age` getter. */
    function Age(today: CalendarDate): (r: int)
      requires customer != null
      reads customer
      ensures r == GetAge(customer.birthDate, today)
      ensures r == today.year - customer.birthDate.year || r == today.year - customer.birthDate.year - 1
    {
      GetAge(customer.birthDate, today)
    }

    /** What the `BirthDate` getter returns parses back into a date. */
    predicate BirthDateParses(culture: Culture)
      requires customer != null
      reads customer
    {
      culture.parse(BirthDate(culture)).Some?
    }

    /** The message `CreateErrorMessage` builds from the current field values. */
    function ErrorMessage(culture: Culture): string
      requires customer != null
      reads customer
    {
      ErrorText(IsNullOrWhiteSpace(FirstName()), IsNullOrWhiteSpace(LastName()), !BirthDateParses(culture))
    }

    /** The `Id` setter writes the record's id and nothing else. */
    method SetId(value: int32)
      requires customer != null
      modifies customer`id
      ensures Id() == value
      ensures FirstName() == old(FirstName()) && LastName() == old(LastName())
      ensures customer.birthDate == old(customer.birthDate)
    {
      customer.id := value;
    }

    /** The `FirstName` setter writes the record's first name and nothing else. */
    method SetFirstName(value: NString)
      requires customer != null
      modifies customer`firstName
      ensures FirstName() == value
      ensures Id() == old(Id()) && LastName() == old(LastName())
      ensures customer.birthDate == old(customer.birthDate)
    {
      customer.firstName := value;
    }

    /** The `LastName` setter writes the record's last name and nothing else. */
    method SetLastName(value: NString)
      requires customer != null
      modifies customer`lastName
      ensures LastName() == value
      ensures Id() == old(Id()) && FirstName() == old(FirstName())
      ensures customer.birthDate == old(customer.birthDate)
    {
      customer.lastName := value;
    }

    /** The `BirthDate` setter stores the parsed date; a string that does not
        parse is not rejected but stores MinValue, and the getter then yields
        MinValue formatted, not the string that was set. */
    method SetBirthDate(value: NString, culture: Culture)
      requires customer != null
      modifies customer`birthDate
      ensures TryParse(culture, value).Some? ==> customer.birthDate == TryParse(culture, value).value
      ensures TryParse(culture, value).None? ==> customer.birthDate == MinValue
      ensures TryParse(culture, value).None? ==> BirthDate(culture) == culture.format(MinValue)
      ensures Id() == old(Id()) && FirstName() == old(FirstName()) && LastName() == old(LastName())
    {
      var date := ParsedOrDefault(culture, value);
      customer.birthDate := date;
    }

    /** `CreateErrorMessage`: appends the failing field names one by one,
        a separator before each one that is not the first. */
    method CreateErrorMessage(culture: Culture) returns (msg: string)
      requires customer != null
      ensures msg == ErrorMessage(culture)
    {
      ghost var firstBlank, lastBlank, birthInvalid :=
        IsNullOrWhiteSpace(FirstName()), IsNullOrWhiteSpace(LastName()), !BirthDateParses(culture);
      var message := "";
      ghost var listed: seq<string> := [];
      if IsNullOrWhiteSpace(FirstName()) {
        message := message + FirstNameField;
        listed := listed + [FirstNameField];
      }
      assert listed == FailingFields(firstBlank, false, false);
      if IsNullOrWhiteSpace(LastName()) {
        message := AppendField(message, listed, LastNameField);
        listed := listed + [LastNameField];
      }
      assert listed == FailingFields(firstBlank, lastBlank, false);
      if !BirthDateParses(culture) {
        message := AppendField(message, listed, BirthDateField);
        listed := listed + [BirthDateField];
      }
      assert listed == FailingFields(firstBlank, lastBlank, birthInvalid);
      msg := message + Suffix;
    }

    /** `CreateCustomer`: a fresh record with this object's names, the parse of
        its formatted birth date (`DateTime.Parse`, which throws when that
        fails), and the default id 0. */
    method CreateCustomer(culture: Culture) returns (c: Customer)
      requires customer != null && BirthDateParses(culture)
      ensures fresh(c)
      ensures c.id == 0 && c.firstName == FirstName() && c.lastName == LastName()
      ensures Some(c.birthDate) == culture.parse(BirthDate(culture))
    {
      c := new Customer();
      c.firstName := FirstName();
      c.lastName := LastName();
      c.birthDate := culture.parse(BirthDate(culture)).value;
    }
  }
}
