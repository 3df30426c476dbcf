/**
  The create-customer use case
  (src/application/customer/use_cases/CreateCustomerService.ts). Arguments are
  evaluated in the order of the source: the Name first, then the ZipCode and
  Address, then `Customer.createNew` with its birthday check; the first
  exception propagates unchanged, and only a customer that passed all three
  is saved.
*/
module CreateCustomer {
  import opened Exceptions
  import opened Names
  import opened ZipCodes
  import opened Addresses
  import opened CustomerStatus
  import opened Customers
  import opened Persistence

  class CreateCustomerService {
    const customerRepository: CustomerRepositoryMemory

    constructor (customerRepository: CustomerRepositoryMemory)
      ensures this.customerRepository == customerRepository
    {
      this.customerRepository := customerRepository;
    }

    /** `execute(name, birthday, zipCode)` at time `now`. The error reported is
        the first of: an invalid name, an invalid zip code, a future birthday.
        On an error nothing is stored; otherwise exactly one new customer is
        appended, in DRAFT, with the trimmed name, the birthday and the zip
        code, and the customers stored before keep their places. */
    method Execute(name: string, birthday: int, zipCode: string, now: int) returns (r: Result<()>)
      modifies customerRepository.customers
      ensures r == Err(InvalidName) <==> Utf16Length(Trim(name)) < 2
      ensures r == Err(InvalidZipCode) <==> Utf16Length(Trim(name)) >= 2 && !IsZipCode(zipCode)
      ensures r == Err(FutureBirthday) <==> Utf16Length(Trim(name)) >= 2 && IsZipCode(zipCode) && birthday > now
      ensures r == Ok(()) <==> Utf16Length(Trim(name)) >= 2 && IsZipCode(zipCode) && birthday <= now
      ensures r.Err? ==> customerRepository.customers.elements == old(customerRepository.customers.elements)
      ensures r.Ok? ==>
        var before, after := old(customerRepository.customers.elements), customerRepository.customers.elements;
        && |after| == |before| + 1
        && after[..|before|] == before
        && fresh(after[|before|])
        && after[|before|].name.value == Trim(name)
        && after[|before|].birthday == birthday
        && after[|before|].GetZipCode() == zipCode
        && after[|before|].status == Draft
    {
      var n := NewName(name);
      if n.Err? {
        return Err(n.error);
      }
      var z := NewZipCode(zipCode);
      if z.Err? {
        return Err(z.error);
      }
      var customer := Customer.CreateNew(n.value, birthday, Address(z.value), now);
      if customer.Err? {
        return Err(customer.error);
      }
      customerRepository.Save(customer.value);
      return Ok(());
    }
  }
}
