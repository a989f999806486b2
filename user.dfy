// A user: a name, the budgets and the accounts, each in a hash map keyed by
// identifier. Budget names and account names are kept unique by the adders.
module Users {
  import opened Ledger
  import opened Listing
  import opened Accounts

  const RewrapError := "Failed to update user: MK rewraping failed."
  const DuplicateBudgetError := "A budget having the same name already exist."
  const DuplicateAccountError := "An account having the same name already exist."

  class User {
    var name: string
    /** Whether the object holds data: false until read from a file when
        built empty. */
    var valid: bool
    var budgets: map<Id, Budget>
    /** The accounts are shared objects: the map holds references. */
    var accounts: map<Id, Account>

    /** User(parent): an empty, not yet valid user. */
    constructor Empty()
      ensures name == [] && !valid && budgets == map[] && accounts == map[]
    {
      name, valid, budgets, accounts := [], false, map[], map[];
    }

    /** User(name, pswd): the password only seeds the wrapped key. */
    constructor (name: string, pswd: string)
      ensures this.name == name && valid && budgets == map[] && accounts == map[]
    {
      this.name, valid, budgets, accounts := name, true, map[], map[];
    }

    ghost predicate BudgetNamesDistinct()
      reads this
    {
      forall a, b :: a in budgets && b in budgets && budgets[a].name == budgets[b].name ==> a == b
    }

    ghost predicate AccountNamesDistinct()
      reads this, accounts.Values
    {
      forall a, b :: a in accounts && b in accounts && accounts[a].name == accounts[b].name ==> a == b
    }

    function BudgetNames(): (names: map<Id, string>)
      reads this
      ensures names.Keys == budgets.Keys
      ensures forall id :: id in budgets ==> names[id] == budgets[id].name
    {
      NamesOf(budgets, (b: Budget) => b.name)
    }

    function AccountNames(): (names: map<Id, string>)
      reads this, accounts.Values
      ensures names.Keys == accounts.Keys
      ensures forall id :: id in accounts ==> names[id] == accounts[id].name
    {
      map id | id in accounts :: accounts[id].name
    }

    /** Renames the user. When both passwords are given the wrapped key is
        first rewrapped, and a failed rewrap leaves the name as it was;
        rewrapOk is what the rewrap would report. */
    method Update(newName: string, oldPswd: string, newPswd: string, rewrapOk: bool)
      returns (ok: bool, attempted: bool, error: Option<string>)
      modifies this
      ensures attempted <==> oldPswd != [] && newPswd != []
      ensures ok <==> !attempted || rewrapOk
      ensures ok ==> name == newName && error.None?
      ensures !ok ==> name == old(name) && error == Some(RewrapError)
      ensures budgets == old(budgets) && accounts == old(accounts) && valid == old(valid)
    {
      attempted := false;
      if oldPswd != [] && newPswd != [] {
        attempted := true;
        if !rewrapOk {
          return false, attempted, Some(RewrapError);
        }
      }
      name := newName;
      return true, attempted, None;
    }

    method AddBudget(amount: Amount, bName: string, description: string) returns (ok: bool, error: Option<string>)
      modifies this
      ensures ok <==> forall id :: id in old(budgets) ==> old(budgets)[id].name != bName
      ensures ok ==> error.None? && exists id: Id :: id !in old(budgets) && budgets == old(budgets)[id := Budget(amount, bName, description)]
      ensures !ok ==> error == Some(DuplicateBudgetError) && budgets == old(budgets)
      ensures old(BudgetNamesDistinct()) ==> BudgetNamesDistinct()
      ensures accounts == old(accounts) && name == old(name) && valid == old(valid)
    {
      var existing := FindBudgetByName(bName);
      if existing.Some? {
        return false, Some(DuplicateBudgetError);
      }
      var id := FreshId(budgets.Keys);
      budgets := budgets[id := Budget(amount, bName, description)];
      return true, None;
    }

    method RemoveBudget(id: Id) returns (ok: bool)
      modifies this
      ensures ok <==> id in old(budgets)
      ensures budgets == old(budgets) - {id}
      ensures old(BudgetNamesDistinct()) ==> BudgetNamesDistinct()
      ensures accounts == old(accounts) && name == old(name) && valid == old(valid)
    {
      var removed := if id in budgets then 1 else 0;
      budgets := budgets - {id};
      ok := removed == 1;
    }

    /** Creates a new, valid account with no payment method and no
        operation, unless one of the user's accounts has that name. */
    method AddAccount(aName: string, notes: string, archived: bool, initialAmount: Amount)
      returns (ok: bool, error: Option<string>)
      modifies this
      ensures ok <==> forall id :: id in old(accounts) ==> old(accounts[id].name) != aName
      ensures ok ==> error.None? && exists id: Id ::
        && id !in old(accounts) && id in accounts && accounts == old(accounts)[id := accounts[id]]
        && fresh(accounts[id]) && accounts[id].name == aName && accounts[id].notes == notes
        && accounts[id].archived == archived && accounts[id].initialAmount == initialAmount
        && accounts[id].valid && accounts[id].paymentMethods == map[]
        && accounts[id].scheduledOps == map[] && accounts[id].ops == map[]
      ensures !ok ==> error == Some(DuplicateAccountError) && accounts == old(accounts)
      ensures old(AccountNamesDistinct()) ==> AccountNamesDistinct()
      ensures budgets == old(budgets) && name == old(name) && valid == old(valid)
    {
      var existing := FindAccountByName(aName);
      if existing.Some? {
        return false, Some(DuplicateAccountError);
      }
      var account := new Account(aName, notes, archived, initialAmount);
      var id := FreshId(accounts.Keys);
      accounts := accounts[id := account];
      return true, None;
    }

    method RemoveAccount(id: Id) returns (ok: bool)
      modifies this
      ensures ok <==> id in old(accounts)
      ensures accounts == old(accounts) - {id}
      ensures old(AccountNamesDistinct()) ==> AccountNamesDistinct()
      ensures budgets == old(budgets) && name == old(name) && valid == old(valid)
    {
      var removed := if id in accounts then 1 else 0;
      accounts := accounts - {id};
      ok := removed == 1;
    }

    /** The budgets (as identifiers) in the map's order, or sorted by name:
        always a permutation of the stored ones. */
    method Budgets(sorted: bool) returns (r: seq<Id>)
      ensures multiset(r) == multiset(budgets.Keys)
      ensures forall i :: 0 <= i < |r| ==> r[i] in budgets
      ensures sorted ==> SortedByName(r, BudgetNames())
    {
      r := KeysOf(budgets);
      if sorted {
        r := SortByName(r, BudgetNames());
      }
    }

    /** The names of Budgets(sorted), in the same order. */
    method BudgetsStr(sorted: bool) returns (r: seq<string>, ghost ids: seq<Id>)
      ensures multiset(ids) == multiset(budgets.Keys)
      ensures forall i :: 0 <= i < |ids| ==> ids[i] in budgets
      ensures sorted ==> SortedByName(ids, BudgetNames())
      ensures |r| == |ids| && forall i :: 0 <= i < |ids| ==> r[i] == budgets[ids[i]].name
      ensures |r| == |budgets|
      ensures sorted ==> NamesSorted(r)
    {
      var list := Budgets(sorted);
      r := NamesInOrder(list, BudgetNames());
      ids := list;
      assert |multiset(ids)| == |budgets.Keys|;
    }

    /** The accounts (as identifiers) in the map's order, or sorted by
        name: always a permutation of the stored ones. */
    method Accounts(sorted: bool) returns (r: seq<Id>)
      ensures multiset(r) == multiset(accounts.Keys)
      ensures forall i :: 0 <= i < |r| ==> r[i] in accounts
      ensures sorted ==> SortedByName(r, AccountNames())
    {
      r := KeysOf(accounts);
      if sorted {
        r := SortByName(r, AccountNames());
      }
    }

    function FindBudget(id: Id): (r: Option<Budget>)
      reads this
      ensures r.Some? <==> id in budgets
      ensures r.Some? ==> r.value == budgets[id]
    {
      if id in budgets then Some(budgets[id]) else None
    }

    /** The first budget met in the map's order with the given name; None
        when there is none. */
    method FindBudgetByName(bName: string) returns (r: Option<Id>)
      ensures r.Some? ==> r.value in budgets && budgets[r.value].name == bName
      ensures r.None? <==> forall id :: id in budgets ==> budgets[id].name != bName
    {
      var rest := budgets.Keys;
      while rest != {}
        invariant rest <= budgets.Keys
        invariant forall id :: id in budgets && id !in rest ==> budgets[id].name != bName
        decreases |rest|
      {
        var k :| k in rest;
        if budgets[k].name == bName {
          return Some(k);
        }
        rest := rest - {k};
      }
      return None;
    }

    function FindAccount(id: Id): (r: Option<Account>)
      reads this
      ensures r.Some? <==> id in accounts
      ensures r.Some? ==> r.value == accounts[id]
    {
      if id in accounts then Some(accounts[id]) else None
    }

    /** The first account met in the map's order with the given name; None
        when there is none. */
    method FindAccountByName(aName: string) returns (r: Option<Id>)
      ensures r.Some? ==> r.value in accounts && accounts[r.value].name == aName
      ensures r.None? <==> forall id :: id in accounts ==> accounts[id].name != aName
    {
      var rest := accounts.Keys;
      while rest != {}
        invariant rest <= accounts.Keys
        invariant forall id :: id in accounts && id !in rest ==> accounts[id].name != aName
        decreases |rest|
      {
        var k :| k in rest;
        if accounts[k].name == aName {
          return Some(k);
        }
        rest := rest - {k};
      }
      return None;
    }
  }
}
