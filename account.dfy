// An account: three hash maps keyed by identifier (payment methods,
// scheduled operations, operations) and the account's own attributes.
// Every mutator but `Update` refuses to work on an archived account.
module Accounts {
  import opened Ledger
  import opened Listing

  const ArchivedError := "Cannot modify an archived account."
  const DuplicatePaymentMethodError := "A payment method having the same name already exist."
  const ScheduledOperationNotFoundError := "Failed to remove scheduled operation: not found."
  const OperationNotFoundError := "Failed to remove operation: not found."

  /** No two payment methods of the map share a name. */
  ghost predicate DistinctNames(pms: map<Id, PaymentMethod>)
  {
    forall a, b :: a in pms && b in pms && pms[a].name == pms[b].name ==> a == b
  }

  /** QHash::insert in list order: a later entry with the same key replaces
      an earlier one, and no key is lost. */
  function InsertAll(m: map<Id, Operation>, batch: seq<(Id, Operation)>): (r: map<Id, Operation>)
    ensures m.Keys <= r.Keys
    ensures forall i :: 0 <= i < |batch| ==> batch[i].0 in r
    decreases |batch|
  {
    if batch == [] then m
    else
      var last := batch[|batch| - 1];
      InsertAll(m, batch[..|batch| - 1])[last.0 := last.1]
  }

  /** After the batch the keys are the old ones and the batch's. */
  lemma {:induction false} InsertAllKeys(m: map<Id, Operation>, batch: seq<(Id, Operation)>)
    ensures InsertAll(m, batch).Keys == m.Keys + set i | 0 <= i < |batch| :: batch[i].0
    decreases |batch|
  {
    if batch != [] {
      var init := batch[..|batch| - 1];
      InsertAllKeys(m, init);
      assert forall i :: 0 <= i < |init| ==> init[i] == batch[i];
      assert (set i | 0 <= i < |batch| :: batch[i].0) == (set i | 0 <= i < |init| :: init[i].0) + {batch[|batch| - 1].0};
    }
  }

  /** A key of the batch holds the operation of its last occurrence. */
  lemma {:induction false} InsertAllLast(m: map<Id, Operation>, batch: seq<(Id, Operation)>, i: nat)
    requires i < |batch| && forall j :: i < j < |batch| ==> batch[j].0 != batch[i].0
    ensures batch[i].0 in InsertAll(m, batch) && InsertAll(m, batch)[batch[i].0] == batch[i].1
    decreases |batch|
  {
    if i < |batch| - 1 {
      var init := batch[..|batch| - 1];
      assert init[i] == batch[i];
      InsertAllLast(m, init, i);
    }
  }

  /** A key that the batch does not name keeps its old operation. */
  lemma {:induction false} InsertAllOthers(m: map<Id, Operation>, batch: seq<(Id, Operation)>, k: Id)
    requires k in m && forall i :: 0 <= i < |batch| ==> batch[i].0 != k
    ensures k in InsertAll(m, batch) && InsertAll(m, batch)[k] == m[k]
    decreases |batch|
  {
    if batch != [] {
      var init := batch[..|batch| - 1];
      assert forall i :: 0 <= i < |init| ==> init[i] == batch[i];
      InsertAllOthers(m, init, k);
    }
  }

  class Account {
    var name: string
    var notes: string
    var archived: bool
    var initialAmount: Amount
    /** Whether the object holds data: false until read from a file when
        built empty. */
    var valid: bool
    var paymentMethods: map<Id, PaymentMethod>
    var scheduledOps: map<Id, ScheduledOperation>
    var ops: map<Id, Operation>

    /** Account(parent): an empty, not yet valid account. */
    constructor Empty()
      ensures name == [] && notes == [] && !archived && initialAmount == 0 && !valid
      ensures paymentMethods == map[] && scheduledOps == map[] && ops == map[]
    {
      name, notes, archived, initialAmount, valid := [], [], false, 0, false;
      paymentMethods, scheduledOps, ops := map[], map[], map[];
    }

    constructor (name: string, notes: string, archived: bool, initialAmount: Amount)
      ensures this.name == name && this.notes == notes && this.archived == archived
      ensures this.initialAmount == initialAmount && valid
      ensures paymentMethods == map[] && scheduledOps == map[] && ops == map[]
    {
      this.name, this.notes, this.archived, this.initialAmount, valid := name, notes, archived, initialAmount, true;
      paymentMethods, scheduledOps, ops := map[], map[], map[];
    }

    ghost predicate PaymentMethodNamesDistinct()
      reads this
    {
      DistinctNames(paymentMethods)
    }

    function PaymentMethodNames(): (names: map<Id, string>)
      reads this
      ensures names.Keys == paymentMethods.Keys
      ensures forall id :: id in paymentMethods ==> names[id] == paymentMethods[id].name
    {
      NamesOf(paymentMethods, (pm: PaymentMethod) => pm.name)
    }

    /** Not guarded by the archived flag: an archived account can be
        renamed and unarchived. */
    method Update(name: string, notes: string, archived: bool, initialAmount: Amount)
      modifies this
      ensures this.name == name && this.notes == notes && this.archived == archived
      ensures this.initialAmount == initialAmount
      ensures valid == old(valid)
      ensures paymentMethods == old(paymentMethods) && scheduledOps == old(scheduledOps) && ops == old(ops)
    {
      this.name, this.notes, this.archived, this.initialAmount := name, notes, archived, initialAmount;
    }

    method AddPaymentMethod(pmName: string) returns (ok: bool, error: Option<string>)
      modifies this
      ensures ok <==> !old(archived) && forall id :: id in old(paymentMethods) ==> old(paymentMethods)[id].name != pmName
      ensures ok <==> error.None?
      ensures old(archived) ==> error == Some(ArchivedError)
      ensures !old(archived) && !ok ==> error == Some(DuplicatePaymentMethodError)
      ensures ok ==> exists id: Id :: id !in old(paymentMethods) && paymentMethods == old(paymentMethods)[id := PaymentMethod(pmName)]
      ensures !ok ==> paymentMethods == old(paymentMethods)
      ensures old(PaymentMethodNamesDistinct()) ==> PaymentMethodNamesDistinct()
      ensures scheduledOps == old(scheduledOps) && ops == old(ops)
      ensures name == old(name) && notes == old(notes) && archived == old(archived)
      ensures initialAmount == old(initialAmount) && valid == old(valid)
    {
      if archived {
        return false, Some(ArchivedError);
      }
      var existing := FindPaymentMethodByName(pmName);
      if existing.Some? {
        return false, Some(DuplicatePaymentMethodError);
      }
      var id := FreshId(paymentMethods.Keys);
      paymentMethods := paymentMethods[id := PaymentMethod(pmName)];
      return true, None;
    }

    /** QHash::remove returns how many entries it removed: 0 or 1, since a
        key occurs at most once. */
    method RemovePaymentMethod(id: Id) returns (ok: bool)
      modifies this
      ensures ok <==> !old(archived) && id in old(paymentMethods)
      ensures paymentMethods == if old(archived) then old(paymentMethods) else old(paymentMethods) - {id}
      ensures old(PaymentMethodNamesDistinct()) ==> PaymentMethodNamesDistinct()
      ensures scheduledOps == old(scheduledOps) && ops == old(ops)
      ensures name == old(name) && notes == old(notes) && archived == old(archived)
      ensures initialAmount == old(initialAmount) && valid == old(valid)
    {
      if archived {
        return false;
      }
      var removed := if id in paymentMethods then 1 else 0;
      paymentMethods := paymentMethods - {id};
      ok := removed == 1;
    }

    method AddScheduledOperation(amount: Amount, budget: string, srcdst: string, description: string,
                                 paymentMethod: string, sopName: string, schedule: Schedule)
      returns (ok: bool, error: Option<string>)
      modifies this
      ensures ok <==> !old(archived)
      ensures !ok ==> error == Some(ArchivedError) && scheduledOps == old(scheduledOps)
      ensures ok ==> error.None? && exists id: Id :: id !in old(scheduledOps) && scheduledOps == old(scheduledOps)[id :=
        ScheduledOperation(amount, budget, srcdst, description, paymentMethod, sopName, schedule)]
      ensures paymentMethods == old(paymentMethods) && ops == old(ops)
      ensures name == old(name) && notes == old(notes) && archived == old(archived)
      ensures initialAmount == old(initialAmount) && valid == old(valid)
    {
      if archived {
        return false, Some(ArchivedError);
      }
      var id := FreshId(scheduledOps.Keys);
      scheduledOps := scheduledOps[id := ScheduledOperation(amount, budget, srcdst, description, paymentMethod, sopName, schedule)];
      return true, None;
    }

    method RemoveScheduledOperation(id: Id) returns (ok: bool, error: Option<string>)
      modifies this
      ensures ok <==> !old(archived) && id in old(scheduledOps)
      ensures ok <==> error.None?
      ensures old(archived) ==> error == Some(ArchivedError)
      ensures !old(archived) && !ok ==> error == Some(ScheduledOperationNotFoundError)
      ensures scheduledOps == if old(archived) then old(scheduledOps) else old(scheduledOps) - {id}
      ensures paymentMethods == old(paymentMethods) && ops == old(ops)
      ensures name == old(name) && notes == old(notes) && archived == old(archived)
      ensures initialAmount == old(initialAmount) && valid == old(valid)
    {
      if archived {
        return false, Some(ArchivedError);
      }
      var removed := if id in scheduledOps then 1 else 0;
      scheduledOps := scheduledOps - {id};
      if removed == 0 {
        return false, Some(ScheduledOperationNotFoundError);
      }
      return true, None;
    }

    method AddOperation(verified: bool, amount: Amount, date: Date, budget: string, recipient: string,
                        description: string, paymentMethod: string)
      returns (ok: bool, error: Option<string>)
      modifies this
      ensures ok <==> !old(archived)
      ensures !ok ==> error == Some(ArchivedError) && ops == old(ops)
      ensures ok ==> error.None? && exists id: Id :: id !in old(ops) && ops == old(ops)[id :=
        Operation(verified, amount, date, budget, recipient, description, paymentMethod)]
      ensures paymentMethods == old(paymentMethods) && scheduledOps == old(scheduledOps)
      ensures name == old(name) && notes == old(notes) && archived == old(archived)
      ensures initialAmount == old(initialAmount) && valid == old(valid)
    {
      if archived {
        return false, Some(ArchivedError);
      }
      var id := FreshId(ops.Keys);
      ops := ops[id := Operation(verified, amount, date, budget, recipient, description, paymentMethod)];
      return true, None;
    }

    /** Inserts operations that already carry their identifiers (an import);
        reports success only when the list was not empty. */
    method AddOperations(batch: seq<(Id, Operation)>) returns (ok: bool, error: Option<string>)
      modifies this
      ensures ok <==> !old(archived) && |batch| > 0
      ensures error == if old(archived) then Some(ArchivedError) else None
      ensures ops == if old(archived) then old(ops) else InsertAll(old(ops), batch)
      ensures paymentMethods == old(paymentMethods) && scheduledOps == old(scheduledOps)
      ensures name == old(name) && notes == old(notes) && archived == old(archived)
      ensures initialAmount == old(initialAmount) && valid == old(valid)
    {
      if archived {
        return false, Some(ArchivedError);
      }
      var i := 0;
      while i < |batch|
        invariant 0 <= i <= |batch|
        invariant ops == InsertAll(old(ops), batch[..i])
        invariant paymentMethods == old(paymentMethods) && scheduledOps == old(scheduledOps)
        invariant name == old(name) && notes == old(notes) && archived == old(archived)
        invariant initialAmount == old(initialAmount) && valid == old(valid)
      {
        assert batch[..i + 1][..i] == batch[..i];
        ops := ops[batch[i].0 := batch[i].1];
        i := i + 1;
      }
      assert batch[..i] == batch;
      return |batch| > 0, None;
    }

    method RemoveOperation(id: Id) returns (ok: bool, error: Option<string>)
      modifies this
      ensures ok <==> !old(archived) && id in old(ops)
      ensures ok <==> error.None?
      ensures old(archived) ==> error == Some(ArchivedError)
      ensures !old(archived) && !ok ==> error == Some(OperationNotFoundError)
      ensures ops == if old(archived) then old(ops) else old(ops) - {id}
      ensures paymentMethods == old(paymentMethods) && scheduledOps == old(scheduledOps)
      ensures name == old(name) && notes == old(notes) && archived == old(archived)
      ensures initialAmount == old(initialAmount) && valid == old(valid)
    {
      if archived {
        return false, Some(ArchivedError);
      }
      var removed := if id in ops then 1 else 0;
      ops := ops - {id};
      if removed == 0 {
        return false, Some(OperationNotFoundError);
      }
      return true, None;
    }

    function FindPaymentMethod(id: Id): (r: Option<PaymentMethod>)
      reads this
      ensures r.Some? <==> id in paymentMethods
      ensures r.Some? ==> r.value == paymentMethods[id]
    {
      if id in paymentMethods then Some(paymentMethods[id]) else None
    }

    /** The first payment method met in the map's order whose name is the
        given one; None when there is none. */
    method FindPaymentMethodByName(pmName: string) returns (r: Option<Id>)
      ensures r.Some? ==> r.value in paymentMethods && paymentMethods[r.value].name == pmName
      ensures r.None? <==> forall id :: id in paymentMethods ==> paymentMethods[id].name != pmName
    {
      var rest := paymentMethods.Keys;
      while rest != {}
        invariant rest <= paymentMethods.Keys
        invariant forall id :: id in paymentMethods && id !in rest ==> paymentMethods[id].name != pmName
        decreases |rest|
      {
        var k :| k in rest;
        if paymentMethods[k].name == pmName {
          return Some(k);
        }
        rest := rest - {k};
      }
      return None;
    }

    function FindScheduledOperation(id: Id): (r: Option<ScheduledOperation>)
      reads this
      ensures r.Some? <==> id in scheduledOps
      ensures r.Some? ==> r.value == scheduledOps[id]
    {
      if id in scheduledOps then Some(scheduledOps[id]) else None
    }

    function FindOperation(id: Id): (r: Option<Operation>)
      reads this
      ensures r.Some? <==> id in ops
      ensures r.Some? ==> r.value == ops[id]
    {
      if id in ops then Some(ops[id]) else None
    }

    /** The earliest year among the operations' dates and the schedules'
        first days; INT_MAX when the account has neither. */
    method MinYear() returns (minY: int)
      ensures minY <= IntMax
      ensures forall id :: id in ops ==> minY <= ops[id].date.year
      ensures forall id :: id in scheduledOps ==> minY <= scheduledOps[id].schedule.from.year
      ensures minY == IntMax
        || (exists id :: id in ops && ops[id].date.year == minY)
        || (exists id :: id in scheduledOps && scheduledOps[id].schedule.from.year == minY)
    {
      minY := IntMax;
      var rest := ops.Keys;
      while rest != {}
        invariant rest <= ops.Keys && minY <= IntMax
        invariant forall id :: id in ops && id !in rest ==> minY <= ops[id].date.year
        invariant minY == IntMax || exists id :: id in ops && ops[id].date.year == minY
        decreases |rest|
      {
        var k :| k in rest;
        var y := ops[k].date.year;
        if y < minY {
          minY := y;
          assert k in ops && ops[k].date.year == minY;
        }
        rest := rest - {k};
      }
      var srest := scheduledOps.Keys;
      while srest != {}
        invariant srest <= scheduledOps.Keys && minY <= IntMax
        invariant forall id :: id in ops ==> minY <= ops[id].date.year
        invariant forall id :: id in scheduledOps && id !in srest ==> minY <= scheduledOps[id].schedule.from.year
        invariant minY == IntMax
          || (exists id :: id in ops && ops[id].date.year == minY)
          || (exists id :: id in scheduledOps && scheduledOps[id].schedule.from.year == minY)
        decreases |srest|
      {
        var k :| k in srest;
        var y := scheduledOps[k].schedule.from.year;
        if y < minY {
          minY := y;
          assert k in scheduledOps && scheduledOps[k].schedule.from.year == minY;
        }
        srest := srest - {k};
      }
    }

    /** Every recipient of an operation or a scheduled operation, each once,
        in no particular order. */
    method Srcdst() returns (r: seq<string>)
      ensures forall w :: w in r <==>
        (exists id :: id in ops && ops[id].recipient == w)
        || (exists id :: id in scheduledOps && scheduledOps[id].recipient == w)
      ensures forall i, j :: 0 <= i < j < |r| ==> r[i] != r[j]
    {
      var seen: set<string> := {};
      var rest := ops.Keys;
      while rest != {}
        invariant rest <= ops.Keys
        invariant forall w :: w in seen <==> exists id :: id in ops && id !in rest && ops[id].recipient == w
        decreases |rest|
      {
        var k :| k in rest;
        seen := seen + {ops[k].recipient};
        rest := rest - {k};
      }
      var srest := scheduledOps.Keys;
      while srest != {}
        invariant srest <= scheduledOps.Keys
        invariant forall w :: w in seen <==>
          (exists id :: id in ops && ops[id].recipient == w)
          || (exists id :: id in scheduledOps && id !in srest && scheduledOps[id].recipient == w)
        decreases |srest|
      {
        var k :| k in srest;
        seen := seen + {scheduledOps[k].recipient};
        srest := srest - {k};
      }
      r := Elements(seen);
    }

    /** The payment methods (as identifiers) in the map's order, or sorted
        by name: always a permutation of the stored ones. */
    method PaymentMethods(sorted: bool) returns (r: seq<Id>)
      ensures multiset(r) == multiset(paymentMethods.Keys)
      ensures forall i :: 0 <= i < |r| ==> r[i] in paymentMethods
      ensures sorted ==> SortedByName(r, PaymentMethodNames())
    {
      r := KeysOf(paymentMethods);
      if sorted {
        r := SortByName(r, PaymentMethodNames());
      }
    }

    /** The names of PaymentMethods(sorted), in the same order. */
    method PaymentMethodsStr(sorted: bool) returns (r: seq<string>, ghost ids: seq<Id>)
      ensures multiset(ids) == multiset(paymentMethods.Keys)
      ensures forall i :: 0 <= i < |ids| ==> ids[i] in paymentMethods
      ensures sorted ==> SortedByName(ids, PaymentMethodNames())
      ensures |r| == |ids| && forall i :: 0 <= i < |ids| ==> r[i] == paymentMethods[ids[i]].name
      ensures |r| == |paymentMethods|
      ensures sorted ==> NamesSorted(r)
    {
      var list := PaymentMethods(sorted);
      r := NamesInOrder(list, PaymentMethodNames());
      ids := list;
      assert |multiset(ids)| == |paymentMethods.Keys|;
    }
  }
}
