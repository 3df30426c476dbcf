/**
  The in-memory repository
  (src/infrastructure/persistence/memory/CustomerRepositoryMemory.ts). It keeps
  a private JavaScript array of customers; `save` pushes onto it and `findAll`
  hands out that same array. A JavaScript array is an object, so it is a
  class here too: whoever holds the array returned by `findAll` sees every
  later `save`, and the customers in it are the stored objects themselves.
*/
module Persistence {
  import opened Customers

  /** A `Customer[]` array object; `elements` are the references it holds,
      in order. */
  class CustomerArray {
    var elements: seq<Customer>

    /** The array literal `[]`. */
    constructor ()
      ensures elements == []
    {
      elements := [];
    }

    /** `Array.prototype.push` of one element: appends it at the end. */
    method Push(customer: Customer)
      modifies this
      ensures elements == old(elements) + [customer]
    {
      elements := elements + [customer];
    }
  }

  class CustomerRepositoryMemory {
    var customers: CustomerArray

    /** A new repository holds a new, empty array. */
    constructor ()
      ensures fresh(customers) && customers.elements == []
    {
      customers := new CustomerArray();
    }

    /** `save(customer)`: appends the reference at the end of the stored
        array, with no uniqueness check, and never fails. Only the array
        changes; the customers themselves are untouched. */
    method Save(customer: Customer)
      modifies customers
      ensures customers.elements == old(customers.elements) + [customer]
    {
      customers.Push(customer);
    }

    /** `findAll()`: the stored array itself, not a copy. It changes nothing. */
    method FindAll() returns (all: CustomerArray)
      ensures all == customers
    {
      all := customers;
    }
  }
}
