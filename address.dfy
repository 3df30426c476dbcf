/**
  The Address value object (src/domain/customer/value_objects/Address.ts): a
  readonly wrapper around an already validated ZipCode. Building one never
  fails, because the datatype constructor `Address` is total.
*/
module Addresses {
  import opened Exceptions
  import opened ZipCodes

  datatype Address = Address(zipCode: ZipCode) {

    /** `getZipCode()`: the wrapped zip code's string, which has the zip code
        shape and validates back to the very ZipCode the address holds. */
    function GetZipCode(): (z: string)
      ensures IsZipCode(z)
      ensures NewZipCode(z) == Ok(zipCode)
    {
      zipCode.value
    }
  }

  /** tests/unit/domain/customer/value_objects/Address.test.ts. */
  lemma AddressExample()
    ensures NewZipCode("12345-678").Ok?
    ensures Address(NewZipCode("12345-678").value).GetZipCode() == "12345-678"
  {
  }
}
