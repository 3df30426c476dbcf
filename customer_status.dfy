/**
  The CustomerStatus enumeration and the transition that
  `Customer.nextStatus()` makes (src/domain/customer/entities/Customer.ts:50-59).
  The enumeration's own file, src/domain/customer/enums/CustomerStatus.ts, is
  not part of this model; its three members are taken from how Customer.ts
  and the tests use it.
*/
module CustomerStatus {

  datatype Status = Draft | Pending | Finished {

    /** Position in the order DRAFT < PENDING < FINISHED. */
    function Rank(): nat {
      match this
      case Draft => 0
      case Pending => 1
      case Finished => 2
    }

    /** The status after one `nextStatus()`: one step forward in the order,
        never back and never two steps, and a change unless the status is
        already FINISHED. These two facts determine the step. */
    function Next(): (s: Status)
      ensures Rank() <= s.Rank() <= Rank() + 1
      ensures s == this <==> this == Finished
    {
      match this
      case Draft => Pending
      case Pending => Finished
      case Finished => Finished
    }
  }

  /** The status after `n` calls of `nextStatus()`. */
  function Advanced(s: Status, n: nat): Status
    decreases n
  {
    if n == 0 then s else Advanced(s.Next(), n - 1)
  }

  /** Repeated calls never lower the status. */
  lemma {:induction false} AdvancedMonotone(s: Status, n: nat)
    ensures s.Rank() <= Advanced(s, n).Rank()
    decreases n
  {
    if n > 0 {
      AdvancedMonotone(s.Next(), n - 1);
    }
  }

  /** From any status, two calls reach FINISHED, and any later call keeps it. */
  lemma {:induction false} AdvancedFinishes(s: Status, n: nat)
    requires n >= 2
    ensures Advanced(s, n) == Finished
    decreases n
  {
    if n == 2 {
      assert Advanced(s, 2) == Advanced(s.Next().Next(), 0);
    } else {
      AdvancedFinishes(s.Next(), n - 1);
    }
  }

  /** FINISHED is absorbing. */
  lemma {:induction false} FinishedAbsorbing(n: nat)
    ensures Advanced(Finished, n) == Finished
  {
    if n > 0 {
      FinishedAbsorbing(n - 1);
    }
  }

  /** The sequence of tests/unit/domain/customer/entities/Customer.test.ts:44-66
      and tests/integration/CustomerManagement.test.ts:55-65. */
  lemma StatusExamples()
    ensures Draft.Next() == Pending && Pending.Next() == Finished && Finished.Next() == Finished
    ensures Advanced(Draft, 1) == Pending && Advanced(Draft, 3) == Finished
  {
  }
}
