# Customer management domain, modelled in Dafny

This project models the domain layer of a small customer-management sample
built in the hexagonal style:

- the value objects **Name** (a string of at least two characters once
  trimmed, stored trimmed), **ZipCode** (a string of shape `NNNNN-NNN`,
  stored verbatim) and **Address** (a wrapper around one ZipCode);
- the **Customer** entity, with its two factories `createNew` (refuses a
  birthday later than now, starts in DRAFT) and `restore` (accepts anything),
  its accessors, the forward-only status step `nextStatus`
  (DRAFT → PENDING → FINISHED → FINISHED) and the snapshot `toPrimitives`;
- the **in-memory repository**, an append-only array of customer references
  whose `findAll` hands out the live array;
- the two use cases, **create customer** (validate the name, then the zip
  code, then the birthday, and save only if all three pass) and
  **get customers** (return `findAll` as it is).

Value objects are immutable datatypes whose invariant is a subset type
(`Name`, `ZipCode`), so every Name and ZipCode in the model is a valid one.
The customer, the repository, its array and the services are classes, because
the program changes them in place and shares them by reference.

Files: `exceptions.dfy` (error kinds and `Result`), `name.dfy`,
`zip_code.dfy`, `address.dfy`, `customer_status.dfy`, `customer.dfy`,
`customer_repository_memory.dfy`, `create_customer_service.dfy`,
`get_customers_service.dfy`, and `scenarios.dfy`, which replays the
repository's tests as client code that reasons from the contracts alone
(the integration sequence of creating Mario and Luigi, advancing a listed
customer, the refused inputs, and the repository's insertion order).

Modelling choices:

- A thrown exception is an `Err` carrying one of `InvalidName`,
  `InvalidZipCode`, `FutureBirthday`.
- The current time (`new Date()` in `createNew`) is the parameter `now`, and a
  birthday is an integer timestamp in milliseconds, which is what the
  JavaScript comparison `birthday > new Date()` compares.
- `Date.prototype.toISOString` is the parameter `iso: int -> string` of
  `ToPrimitives`: the snapshot's birthday is some fixed function of the
  timestamp alone.
- `String.prototype.trim` removes exactly the ECMAScript whitespace set
  (TAB, LF, VT, FF, CR, space, NBSP, U+1680, U+2000–U+200A, LS, PS, U+202F,
  U+205F, U+3000, ZWNBSP). JavaScript's `length` counts UTF-16 code units,
  so the "at least 2" test uses `Utf16Length`, in which a character outside
  the Basic Multilingual Plane counts twice.
- `\d` in the zip code pattern is an ASCII digit. The regular expression is
  written as a small anchored pattern of pieces with exact repetition counts
  (`ZipRegex`), and a lemma proves it accepts exactly the strings of shape
  `NNNNN-NNN` checked position by position.
- A JavaScript array is an object, so the repository's `Customer[]` is the
  class `CustomerArray`. `FindAll` returns that very object, so a caller
  that holds it sees later saves, and the customers in it are the stored
  objects, so a status change made through a listed customer shows in the
  next listing.
- getters (`getName`, `getBirthday`, `getAddress`, `getStatus`, `getValue`)
  are plain field reads.
- The repository port and the use-case ports are interfaces with no
  behaviour; the services hold the in-memory repository directly.

## Model

| member | source | states |
|---|---|---|
| `Names.LeadingWhitespace` | src/domain/customer/value_objects/Name.ts:7 | the count of whitespace characters at the start of a string: all of them are whitespace and the next one is not |
| `Names.TrailingWhitespace` | src/domain/customer/value_objects/Name.ts:7 | the count of whitespace characters at the end: all of them are whitespace and the one before is not |
| `Names.Trim` | src/domain/customer/value_objects/Name.ts:7-10 | `trim()` gives the contiguous part of the input after its leading whitespace, with only whitespace after it, and neither starting nor ending with whitespace; inner characters, spaces included, are kept |
| `Names.TrimUnique` | src/domain/customer/value_objects/Name.ts:10 | any part of the string that has only whitespace around it and no whitespace at its ends is the trimmed string, so `Trim` is fixed by that description |
| `Names.TrimIdempotent` | src/domain/customer/value_objects/Name.ts:7-10 | trimming twice is trimming once |
| `Names.TrimOfUntrimmable` | src/domain/customer/value_objects/Name.ts:10 | a non-empty string with no whitespace at either end is unchanged by trimming |
| `Names.Utf16Length` | src/domain/customer/value_objects/Name.ts:7 | JavaScript `length` lies between the number of characters and twice that number |
| `Names.NewName` | src/domain/customer/value_objects/Name.ts:6-11 | `new Name(raw)` succeeds exactly when the trimmed input has length at least 2, fails only with InvalidName, and stores the trimmed input |
| `Names.WhitespaceNameRejected` | src/domain/customer/value_objects/Name.ts:7 | an empty or whitespace-only input is refused with InvalidName |
| `Names.NameRoundTrip` | src/domain/customer/value_objects/Name.ts:7-10 | a Name built again from a stored name's value succeeds and gives the same Name |
| `Names.NameAccepted` | tests/unit/domain/customer/value_objects/Name.test.ts:5-8 | `'John Doe'` is accepted and kept as it is |
| `Names.NameTrimmed` | tests/unit/domain/customer/value_objects/Name.test.ts:18-21 | `'  John Doe  '` is stored as `'John Doe'` |
| `Names.NameRejected` | tests/unit/domain/customer/value_objects/Name.test.ts:10-16 | `''` and `'A'` are refused with InvalidName |
| `ZipCodes.ZipRegexShape` | src/domain/customer/value_objects/ZipCode.ts:7 | `/^\d{5}-\d{3}$/` accepts a string exactly when it has 9 characters, digits at 0–4, `-` at 5 and digits at 6–8 |
| `ZipCodes.NewZipCode` | src/domain/customer/value_objects/ZipCode.ts:6-11 | `new ZipCode(raw)` succeeds exactly when `raw` has the shape `NNNNN-NNN`, fails only with InvalidZipCode, and stores `raw` unchanged |
| `ZipCodes.StoredZipCodeShape` | src/domain/customer/value_objects/ZipCode.ts:7-10 | every stored zip code has 9 characters with `-` at index 5 |
| `ZipCodes.ZipCodeRoundTrip` | src/domain/customer/value_objects/ZipCode.ts:7-10 | validating a stored zip code again succeeds and gives the same ZipCode |
| `ZipCodes.ZipCodeExamples` | tests/unit/domain/customer/value_objects/ZipCode.test.ts:5-16 | `'12345-678'` is accepted verbatim; `'123-456'`, `'123456789'`, `'abcde-xyz'`, `'12345-12'`, `'1234-1234'` are refused with InvalidZipCode |
| `Addresses.Address.GetZipCode` | src/domain/customer/value_objects/Address.ts:10-12 | `getZipCode()` has the zip code shape and validates back to the ZipCode the address wraps |
| `Addresses.AddressExample` | tests/unit/domain/customer/value_objects/Address.test.ts:5-10 | the address of `new ZipCode('12345-678')` gives `'12345-678'` |
| `CustomerStatus.Status.Next` | src/domain/customer/entities/Customer.ts:50-59 | one status step moves at most one place forward in DRAFT < PENDING < FINISHED, never back, and changes the status unless it is FINISHED |
| `CustomerStatus.AdvancedMonotone` | src/domain/customer/entities/Customer.ts:50-59 | any number of steps never lowers the status |
| `CustomerStatus.AdvancedFinishes` | src/domain/customer/entities/Customer.ts:50-59 | from any status, two or more steps end in FINISHED |
| `CustomerStatus.FinishedAbsorbing` | src/domain/customer/entities/Customer.ts:50-59 | steps from FINISHED stay in FINISHED |
| `CustomerStatus.StatusExamples` | tests/unit/domain/customer/entities/Customer.test.ts:43-66 | DRAFT→PENDING, PENDING→FINISHED, FINISHED→FINISHED, and three steps from DRAFT give FINISHED |
| `Customers.Customer.constructor` | src/domain/customer/entities/Customer.ts:12-17 | the private constructor stores its four arguments |
| `Customers.Customer.CreateNew` | src/domain/customer/entities/Customer.ts:19-24 | fails with FutureBirthday exactly when the birthday is after `now` (equal is accepted); otherwise a new customer in DRAFT holding the given name, birthday and address |
| `Customers.Customer.Restore` | src/domain/customer/entities/Customer.ts:26-28 | never fails; a new customer holding exactly the given name, birthday, address and status |
| `Customers.Customer.GetZipCode` | src/domain/customer/entities/Customer.ts:46-48 | the address's zip code, which has the zip code shape |
| `Customers.Customer.NextStatus` | src/domain/customer/entities/Customer.ts:50-59 | the status becomes its one-step successor; name, birthday and address are unchanged, and no other object changes |
| `Customers.Customer.ToPrimitives` | src/domain/customer/entities/Customer.ts:61-70 | the snapshot's name is the stored name's value, its birthday the ISO rendering of the birthday alone, its status the status and its zip code `GetZipCode()`; the name is well formed and the zip code has the zip code shape |
| `Persistence.CustomerArray.constructor` | src/infrastructure/persistence/memory/CustomerRepositoryMemory.ts:5 | the array literal `[]` is empty |
| `Persistence.CustomerArray.Push` | src/infrastructure/persistence/memory/CustomerRepositoryMemory.ts:8 | `push` appends the reference at the end and changes nothing else |
| `Persistence.CustomerRepositoryMemory.constructor` | src/infrastructure/persistence/memory/CustomerRepositoryMemory.ts:4-5 | a new repository holds a new, empty array |
| `Persistence.CustomerRepositoryMemory.Save` | src/infrastructure/persistence/memory/CustomerRepositoryMemory.ts:7-9 | `save` never fails, performs no uniqueness check, and makes the stored sequence the old one followed by the customer; only the array changes |
| `Persistence.CustomerRepositoryMemory.FindAll` | src/infrastructure/persistence/memory/CustomerRepositoryMemory.ts:11-13 | `findAll` returns the stored array object itself, not a copy, and changes nothing |
| `CreateCustomer.CreateCustomerService.constructor` | src/application/customer/use_cases/CreateCustomerService.ts:9 | the service keeps the repository it is given |
| `CreateCustomer.CreateCustomerService.Execute` | src/application/customer/use_cases/CreateCustomerService.ts:11-18 | InvalidName exactly when the trimmed name is too short; else InvalidZipCode exactly when the zip code is malformed; else FutureBirthday exactly when the birthday is after `now`; on any error the repository is unchanged; on success exactly one new customer is appended, in DRAFT, with the trimmed name, the birthday and the zip code, and the earlier customers keep their places |
| `GetCustomers.GetCustomersService.constructor` | src/application/customer/use_cases/GetCustomerService.ts:5 | the service keeps the repository it is given |
| `GetCustomers.GetCustomersService.Execute` | src/application/customer/use_cases/GetCustomerService.ts:7-9 | returns the repository's own array, with every stored customer in insertion order, unfiltered and uncopied, and changes nothing |

## Left out

- Promises and `async`/`await`: every operation is synchronous, since the in-memory repository never suspends.
- The repository port (src/domain/customer/repositories/CustomerRepositoryPort.ts) and the use-case ports (src/application/customer/ports/in/): interfaces with no behaviour; the services hold the in-memory repository directly, so no other backend can be plugged in.
- The clock: `new Date()` is the parameter `now`.
- `Date` itself: a birthday is an integer timestamp, so an invalid date (whose timestamp is NaN, which no comparison finds later than now) is not modelled; `toISOString()` is the parameter `iso`, and no calendar or ISO-8601 rendering is modelled.
- The enumeration file src/domain/customer/enums/CustomerStatus.ts is not part of this model; its members are the three the code and tests use, and their string tags (`"DRAFT"` and so on) are not modelled.
- Exception classes and message texts (src/domain/customer/exceptions/): only the error kind is kept.
- JavaScript strings are sequences of UTF-16 code units; here a string is a sequence of Unicode scalar values, so a lone surrogate cannot occur. Lengths are still counted in code units.
- The whitespace set is the one of the current Unicode category Zs plus the ECMAScript extras, fixed in `IsWhitespace`; it does not follow later Unicode versions.
- `!value` on `null` or `undefined`: the TypeScript type admits only strings, so only the empty string is modelled.
- main.ts (console output) and src/config/DependencyInjection.ts (wiring one repository into both services): not modelled as members; the scenarios build the same wiring by hand.
- GetCustomers.GetCustomersService.Execute: the contract says what is returned, not that `findAll` is called exactly once per call; the body makes exactly one call.
