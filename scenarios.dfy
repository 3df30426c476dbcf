/**
  Client code that drives the model the way the repository's tests drive the
  program: what a caller can conclude from the contracts alone.
*/
module Scenarios {
  import opened Exceptions
  import opened Names
  import opened ZipCodes
  import opened Addresses
  import opened CustomerStatus
  import opened Customers
  import opened Persistence
  import opened CreateCustomer
  import opened GetCustomers

  /** The inputs of tests/integration/CustomerManagement.test.ts. */
  const Mario: string := "Mario"
  const MarioZip: string := "99990-000"
  /** 1970-12-18T00:00:00.000Z in milliseconds since the epoch. */
  const MarioBirthday: int := 30_326_400_000
  const Luigi: string := "Luigi"
  const LuigiZip: string := "88880-111"
  /** 1985-05-15T00:00:00.000Z in milliseconds since the epoch. */
  const LuigiBirthday: int := 484_963_200_000

  /** The inputs of the unit tests of the create-customer use case. */
  const JohnDoe: string := "John Doe"
  const JohnDoeZip: string := "12345-678"
  /** 1990-01-01T00:00:00.000Z in milliseconds since the epoch. */
  const JohnDoeBirthday: int := 631_152_000_000
  /** 365 days in milliseconds, standing for "one year later". */
  const OneYear: int := 31_536_000_000

  /** The names of the tests are valid, and the first two already trimmed. */
  lemma MarioName()
    ensures Utf16Length(Trim(Mario)) >= 2 && Trim(Mario) == Mario
  {
    TrimOfUntrimmable(Mario);
  }

  lemma LuigiName()
    ensures Utf16Length(Trim(Luigi)) >= 2 && Trim(Luigi) == Luigi
  {
    TrimOfUntrimmable(Luigi);
  }

  lemma JohnDoeName()
    ensures Utf16Length(Trim(JohnDoe)) >= 2
  {
    TrimOfUntrimmable(JohnDoe);
  }

  /** The zip codes of the tests are valid, and "invalid" is not. */
  lemma MarioZipCode()
    ensures IsZipCode(MarioZip)
  {
  }

  lemma LuigiZipCode()
    ensures IsZipCode(LuigiZip)
  {
  }

  lemma JohnDoeZipCode()
    ensures IsZipCode(JohnDoeZip) && !IsZipCode("invalid")
  {
  }

  /** tests/integration/CustomerManagement.test.ts:18-42 and 72-104: an empty
      listing, then two customers created and listed in order, each with the
      expected snapshot. The array handed out first has grown too, being the
      same array. */
  method CreateAndList(now: int, iso: int -> string)
    requires now >= LuigiBirthday
  {
    var repository := new CustomerRepositoryMemory();
    var create := new CreateCustomerService(repository);
    var get := new GetCustomersService(repository);

    var initial := get.Execute();
    assert initial.elements == [];

    MarioName();
    MarioZipCode();
    LuigiName();
    LuigiZipCode();
    var r1 := create.Execute(Mario, MarioBirthday, MarioZip, now);
    assert r1 == Ok(());
    var r2 := create.Execute(Luigi, LuigiBirthday, LuigiZip, now);
    assert r2 == Ok(());

    var customers := get.Execute();
    assert |customers.elements| == 2;
    assert initial.elements == customers.elements;
    var mario, luigi := customers.elements[0], customers.elements[1];
    assert mario.ToPrimitives(iso) == Primitives(Mario, iso(MarioBirthday), Draft, AddressPrimitives(MarioZip));
    assert luigi.ToPrimitives(iso) == Primitives(Luigi, iso(LuigiBirthday), Draft, AddressPrimitives(LuigiZip));
  }

  /** tests/integration/CustomerManagement.test.ts:106-114: advancing the
      first listed customer shows in the next listing, and the second, a
      different object, stays in DRAFT. */
  method AdvanceThroughListing(now: int)
    requires now >= LuigiBirthday
  {
    var repository := new CustomerRepositoryMemory();
    var create := new CreateCustomerService(repository);
    var get := new GetCustomersService(repository);
    MarioName();
    MarioZipCode();
    LuigiName();
    LuigiZipCode();
    var r1 := create.Execute(Mario, MarioBirthday, MarioZip, now);
    var r2 := create.Execute(Luigi, LuigiBirthday, LuigiZip, now);

    var customers := get.Execute();
    assert |customers.elements| == 2;
    var mario, luigi := customers.elements[0], customers.elements[1];
    assert mario != luigi;
    mario.NextStatus();
    assert mario.status == Pending;

    var finalCustomers := get.Execute();
    assert |finalCustomers.elements| == 2;
    assert finalCustomers.elements[0].status == Pending;
    assert finalCustomers.elements[1].status == Draft;
  }

  /** tests/integration/CustomerManagement.test.ts:44-70: three advances from
      DRAFT end in FINISHED, and the name and zip code are still the same. */
  method StatusChangeSequence(now: int)
    requires now >= MarioBirthday
  {
    var repository := new CustomerRepositoryMemory();
    var create := new CreateCustomerService(repository);
    var get := new GetCustomersService(repository);
    MarioName();
    MarioZipCode();
    var r := create.Execute(Mario, MarioBirthday, MarioZip, now);
    assert r == Ok(());
    var customers := get.Execute();
    var customer := customers.elements[0];
    customer.NextStatus();
    assert customer.status == Pending;
    customer.NextStatus();
    assert customer.status == Finished;
    customer.NextStatus();
    assert customer.status == Finished;
    assert customer.name.value == Mario && customer.GetZipCode() == MarioZip;
  }

  /** tests/unit/application/customer/use_cases/CreateCustomerService.test.ts:52-78:
      an empty name, a malformed zip code and a birthday a year after `now`
      are each refused with their own error, and nothing is saved. */
  method RejectedInputsSaveNothing(now: int)
  {
    var repository := new CustomerRepositoryMemory();
    var create := new CreateCustomerService(repository);
    JohnDoeName();
    JohnDoeZipCode();
    var r1 := create.Execute("", JohnDoeBirthday, JohnDoeZip, now);
    assert r1 == Err(InvalidName);
    var r2 := create.Execute(JohnDoe, JohnDoeBirthday, "invalid", now);
    assert r2 == Err(InvalidZipCode);
    var r3 := create.Execute(JohnDoe, now + OneYear, JohnDoeZip, now);
    assert r3 == Err(FutureBirthday);
    assert repository.customers.elements == [];
  }

  /** tests/unit/infrastructure/persistence/memory/CustomerRepositoryMemory.test.ts:
      saved customers come back as the same references in saving order, and
      saving one customer twice stores it twice. */
  method RepositorySequence(name: Name, address: Address)
  {
    var repository := new CustomerRepositoryMemory();
    var empty := repository.FindAll();
    assert empty.elements == [];
    var customer := Customer.Restore(name, JohnDoeBirthday, address, Draft);
    var another := Customer.Restore(name, 700_617_600_000, address, Draft);
    repository.Save(customer);
    repository.Save(another);
    var all := repository.FindAll();
    assert all.elements == [customer, another];
    repository.Save(customer);
    assert |all.elements| == 3 && all.elements[2] == customer;
  }
}
