/**
  The Customer entity (src/domain/customer/entities/Customer.ts). Its status
  changes in place, so it is a class; name, birthday and address are only set
  by the constructor. A birthday is an integer timestamp in milliseconds, as
  the JavaScript `Date` comparison `birthday > new Date()` sees it, and the
  current time is passed in as `now`.
*/
module Customers {
  import opened Exceptions
  import opened Names
  import opened ZipCodes
  import opened Addresses
  import opened CustomerStatus

  /** The `address` part of `toPrimitives()`. */
  datatype AddressPrimitives = AddressPrimitives(zipCode: string)

  /** The plain snapshot `toPrimitives()` returns. */
  datatype Primitives = Primitives(name: string, birthday: string, status: Status, address: AddressPrimitives)

  class Customer {
    var name: Name
    var birthday: int
    var address: Address
    var status: Status

    /** The private constructor: stores its four arguments. */
    constructor (name: Name, birthday: int, address: Address, status: Status)
      ensures this.name == name && this.birthday == birthday
      ensures this.address == address && this.status == status
    {
      this.name := name;
      this.birthday := birthday;
      this.address := address;
      this.status := status;
    }

    /** `Customer.createNew`: fails with FutureBirthday exactly when the
        birthday is strictly later than `now` (the same instant is accepted),
        and otherwise gives a new customer in DRAFT holding the arguments. */
    static method CreateNew(name: Name, birthday: int, address: Address, now: int) returns (r: Result<Customer>)
      ensures r.Err? <==> birthday > now
      ensures r.Err? ==> r.error == FutureBirthday
      ensures r.Ok? ==> fresh(r.value) && r.value.status == Draft
      ensures r.Ok? ==> r.value.name == name && r.value.birthday == birthday && r.value.address == address
    {
      if birthday > now {
        return Err(FutureBirthday);
      }
      var customer := new Customer(name, birthday, address, Draft);
      return Ok(customer);
    }

    /** `Customer.restore`: never fails, checks nothing, and gives a new
        customer holding exactly the arguments, whatever the status. */
    static method Restore(name: Name, birthday: int, address: Address, status: Status) returns (c: Customer)
      ensures fresh(c)
      ensures c.name == name && c.birthday == birthday && c.address == address && c.status == status
    {
      c := new Customer(name, birthday, address, status);
    }

    /** `getZipCode()`: the address's zip code, which always has the zip code
        shape. */
    function GetZipCode(): (z: string)
      reads this
      ensures z == address.GetZipCode()
      ensures IsZipCode(z)
    {
      address.GetZipCode()
    }

    /** `nextStatus()`: moves the status one step along DRAFT, PENDING,
        FINISHED, where FINISHED stays FINISHED; nothing else changes. */
    method NextStatus()
      modifies this
      ensures status == old(status).Next()
      ensures name == old(name) && birthday == old(birthday) && address == old(address)
    {
      match status
      case Draft => status := Pending;
      case Pending => status := Finished;
      case Finished =>
    }

    /** `toPrimitives()`: the name's trimmed string, the birthday rendered by
        `iso` (the `toISOString()` of the timestamp), the status and the zip
        code. The snapshot inherits the value objects' invariants. */
    function ToPrimitives(iso: int -> string): (p: Primitives)
      reads this
      ensures p.name == name.value && p.birthday == iso(birthday) && p.status == status
      ensures p.address.zipCode == GetZipCode()
      ensures WellFormedName(p.name) && IsZipCode(p.address.zipCode)
    {
      Primitives(name.value, iso(birthday), status, AddressPrimitives(address.GetZipCode()))
    }
  }
}
