// Value types shared by the picsou model: identifiers, dates, amounts and
// the records that accounts and users keep in their hash maps.
module Ledger {

  /** Object identifiers. The application draws a random UUID for every new
      model object; here an identifier is a natural number and a new one is
      any number that the target map does not use yet. */
  type Id = nat

  /** Monetary amounts. The application stores a double; the model keeps an
      integer number of minor units and never does arithmetic on it. */
  type Amount = int

  /** INT_MAX of the 32-bit `int` the application is compiled with. */
  const IntMax: int := 0x7fff_ffff

  /** INT_MIN of the same type. */
  const IntMin: int := -0x8000_0000

  /** The values a 32-bit `int` holds. */
  predicate IsInt32(n: int)
  {
    IntMin <= n <= IntMax
  }

  datatype Option<+T> = None | Some(value: T)

  /** A date as the three integers handed to QDate(y, m, d); the model does
      not check that they name a real calendar day. */
  datatype Date = Date(year: int, month: int, day: int)

  datatype Operation = Operation(
    verified: bool,
    amount: Amount,
    date: Date,
    budget: string,
    recipient: string,
    description: string,
    paymentMethod: string)

  /** Only the first day of a schedule is read by the modelled code. */
  datatype Schedule = Schedule(from: Date)

  datatype ScheduledOperation = ScheduledOperation(
    amount: Amount,
    budget: string,
    recipient: string,
    description: string,
    paymentMethod: string,
    name: string,
    schedule: Schedule)

  datatype PaymentMethod = PaymentMethod(name: string)

  datatype Budget = Budget(amount: Amount, name: string, description: string)

  /** An identifier that the given set does not contain: one more than the
      largest element. */
  ghost function UnusedId(used: set<Id>): (id: Id)
    ensures id !in used
    ensures forall k :: k in used ==> k < id
    decreases used
  {
    if used == {} then 0
    else
      var k :| k in used;
      var rest := UnusedId(used - {k});
      var id := if k < rest then rest else k + 1;
      assert forall x :: x in used ==> x == k || x in used - {k};
      id
  }

  /** QUuid::createUuid for one map: an identifier it does not use yet. */
  method FreshId(used: set<Id>) returns (id: Id)
    ensures id !in used
  {
    assert UnusedId(used) !in used;
    id :| id !in used;
  }
}
