/** The customer registry: the user form's submit handler (edit or create,
    with the duplicate-phone check on create only) and user deletion. */
module Customers {
  import opened Wrappers
  import opened Collections
  import opened ShopData

  /** The fields of the user form. */
  datatype UserForm = UserForm(name: string, phone: string)

  /** Why a create was refused. */
  datatype UserError = DuplicatePhone

  /** `users.find(u => u.phone === phone)` finds someone. */
  predicate PhoneTaken(users: seq<User>, phone: string) {
    exists i :: 0 <= i < |users| && users[i].phone == phone
  }

  /** No phone number is shared by two customers. */
  predicate UniquePhones(users: seq<User>) {
    forall i, j :: 0 <= i < j < |users| ==> users[i].phone != users[j].phone
  }

  /** The user form's submit handler. With an id in the hidden field, the
      first customer with that id gets the form's name and phone, keeping
      id and history, with no phone check (an id nobody has changes
      nothing); without one, a phone already on file is refused, and
      otherwise a customer with an empty history is appended under
      `max(ids) + 1`, or 1 when there are none. */
  function SaveUser(users: seq<User>, editId: Option<int>, f: UserForm): (r: Result<seq<User>, UserError>)
    ensures r.Failure? <==> editId.None? && PhoneTaken(users, f.phone)
    ensures r.Success? && editId.Some? ==>
      && |r.value| == |users|
      && forall i :: 0 <= i < |users| ==> r.value[i].id == users[i].id && r.value[i].orders == users[i].orders
    ensures editId.Some? && !HasKey(users, UserId, editId.value) ==> r == Success(users)
    ensures r.Success? && editId.None? ==>
      && |r.value| == |users| + 1
      && r.value[..|users|] == users
      && r.value[|users|] == User(NextId(users, UserId), f.name, f.phone, [])
      && (forall i :: 0 <= i < |users| ==> users[i].id < r.value[|users|].id)
  {
    match editId
    case Some(id) =>
      (match FindIndex(users, UserId, id)
       case Some(k) => Success(users[k := users[k].(name := f.name, phone := f.phone)])
       case None => Success(users))
    case None =>
      if PhoneTaken(users, f.phone) then Failure(DuplicatePhone)
      else
        var r := users + [User(NextId(users, UserId), f.name, f.phone, [])];
        assert r[..|users|] == users;
        Success(r)
  }

  /** Editing an existing customer replaces that one entry, in place, with
      the form's name and phone, keeping its id and history; every other
      customer is unchanged. */
  lemma SaveUserEdits(users: seq<User>, f: UserForm, k: nat)
    requires UniqueKeys(users, UserId) && k < |users|
    ensures var r := SaveUser(users, Some(users[k].id), f);
      && r.Success?
      && |r.value| == |users|
      && r.value[k] == users[k].(name := f.name, phone := f.phone)
      && forall j :: 0 <= j < |users| && j != k ==> r.value[j] == users[j]
  {
    FindIndexOfUnique(users, UserId, k);
  }

  /** Creating customers never lets two of them share a phone number. */
  lemma CreateKeepsPhonesUnique(users: seq<User>, f: UserForm)
    requires UniquePhones(users)
    ensures var r := SaveUser(users, None, f);
      r.Success? ==> UniquePhones(r.value)
  {
  }

  /** An edit is never refused, and it can give a customer the phone number
      of another: customer 2 edited to customer 1's number leaves two
      customers with "111". */
  lemma EditCanSharePhone()
    ensures var users := [User(1, "A", "111", []), User(2, "B", "222", [])];
      var r := SaveUser(users, Some(2), UserForm("B", "111"));
      && r == Success([User(1, "A", "111", []), User(2, "B", "111", [])])
      && !UniquePhones(r.value)
  {
    var users := [User(1, "A", "111", []), User(2, "B", "222", [])];
    FindIndexAt(users, UserId, 2, 1);
    assert users[1 := users[1].(name := "B", phone := "111")]
        == [User(1, "A", "111", []), User(2, "B", "111", [])];
  }

  /** Saving keeps customer ids increasing. */
  lemma SaveUserIncreasing(users: seq<User>, editId: Option<int>, f: UserForm)
    requires IncreasingKeys(users, UserId)
    ensures var r := SaveUser(users, editId, f);
      r.Success? ==> IncreasingKeys(r.value, UserId)
  {
  }

  /** Saving keeps every order id in every history pointing at an order:
      an edit keeps histories, a new customer starts with none. */
  lemma SaveUserKeepsHistories(users: seq<User>, orders: seq<Order>, editId: Option<int>, f: UserForm)
    requires HistoriesKnown(users, orders)
    ensures var r := SaveUser(users, editId, f);
      r.Success? ==> HistoriesKnown(r.value, orders)
  {
    var r := SaveUser(users, editId, f);
    if r.Success? {
      forall u, k | u in r.value && k in u.orders ensures HasKey(orders, OrderId, k) {
        var i :| 0 <= i < |r.value| && r.value[i] == u;
        if i < |users| {
          assert users[i] in users && k in users[i].orders;
        }
      }
    }
  }

  /** Deleting a customer keeps every remaining history pointing at orders. */
  lemma DeleteKeepsHistories(users: seq<User>, orders: seq<Order>, id: int)
    requires HistoriesKnown(users, orders)
    ensures HistoriesKnown(Without(users, UserId, id), orders)
  {
    forall u | u in Without(users, UserId, id) ensures u in users {
      WithoutMembers(users, UserId, id, u);
    }
  }
}
