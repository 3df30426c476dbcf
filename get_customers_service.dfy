/**
  The list-customers use case
  (src/application/customer/use_cases/GetCustomerService.ts): one call of the
  repository's `findAll`, whose result is returned as it is.
*/
module GetCustomers {
  import opened Persistence

  class GetCustomersService {
    const customerRepository: CustomerRepositoryMemory

    constructor (customerRepository: CustomerRepositoryMemory)
      ensures this.customerRepository == customerRepository
    {
      this.customerRepository := customerRepository;
    }

    /** `execute()`: the repository's own array, unfiltered, unsorted and not
        copied, so it holds every stored customer in insertion order. It
        changes nothing. */
    method Execute() returns (all: CustomerArray)
      ensures all == customerRepository.customers
      ensures all.elements == customerRepository.customers.elements
    {
      all := customerRepository.FindAll();
    }
  }
}
