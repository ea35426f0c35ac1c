/** What each resolver of `resolvers.Query` and `resolvers.Mutation` answers and
    what it leaves in the store, as a function of the store and the caller.
    Every mutation runs the same gates in order, stopping at the first that
    fails: a signed-in caller, then the rows it names, then the claim on the
    bill; only when all pass does it make its one write. */
module Authorization {
  import opened Wrappers
  import opened Records
  import opened Store

  /** A resolver's answer together with the store it leaves behind. */
  datatype Reply<T> = Reply(result: Result<T, Error>, db: Db)

  /** The caller is the bill's payer. `null` equals no user id, so nobody
      owns a bill that has not been paid. */
  predicate IsPayer(b: Bill, u: User) {
    b.paidById == Some(u.id)
  }

  /** `Query.me` */
  function Me(currentUser: Option<User>): (r: Result<User, Error>)
    ensures r.Success? <==> currentUser.Some?
    ensures r.Success? ==> r.value == currentUser.value
    ensures r.Failure? ==> r.error == Unauthenticated
  {
    if currentUser.None? then Failure(Unauthenticated) else Success(currentUser.value)
  }

  /** `Mutation.createBill`: the new bill is claimed by its creator. */
  function CreateBill(db: Db, currentUser: Option<User>, description: string, amount: Amount, now: Timestamp): (r: Reply<Bill>)
    ensures currentUser.None? ==> r == Reply(Failure(Unauthenticated), db)
    ensures currentUser.Some? ==>
      && r.result.Success?
      && r.result.value.paidById == Some(currentUser.value.id)
      && r.result.value.description == description
      && r.result.value.amount == amount
      && r.result.value.createdAt == now
      && (WellFormed(db) ==> BillAdded(db, r.db, r.result.value))
    ensures WellFormed(db) ==> WellFormed(r.db)
  {
    if currentUser.None? then Reply(Failure(Unauthenticated), db)
    else
      var b := Bill(db.nextBillId, now, description, amount, Some(currentUser.value.id));
      Reply(Success(b), db.(bills := db.bills[b.id := b], nextBillId := db.nextBillId + 1))
  }

  /** `Mutation.payBill`: claims a bill nobody has paid yet. */
  function PayBill(db: Db, currentUser: Option<User>, billId: int): (r: Reply<Bill>)
    ensures r.result.Failure? ==> r.db == db
    ensures currentUser.None? ==> r.result == Failure(Unauthenticated)
    ensures currentUser.Some? && billId !in db.bills ==> r.result == Failure(NoSuchBill)
    ensures currentUser.Some? && billId in db.bills && db.bills[billId].paidById.Some? ==>
      r.result == Failure(AlreadyPaid)
    ensures currentUser.Some? && billId in db.bills && db.bills[billId].paidById.None? ==>
      && r.result == Success(db.bills[billId].(paidById := Some(currentUser.value.id)))
      && BillReplaced(db, r.db, billId, r.result.value)
    ensures WellFormed(db) ==> WellFormed(r.db)
  {
    if currentUser.None? then Reply(Failure(Unauthenticated), db)
    else if billId !in db.bills then Reply(Failure(NoSuchBill), db)
    else
      var bill := db.bills[billId];
      if bill.paidById.Some? then Reply(Failure(AlreadyPaid), db)
      else
        var paid := Patch(bill, PaidBy(currentUser.value.id));
        Reply(Success(paid), db.(bills := db.bills[billId := paid]))
  }

  /** `Mutation.deleteBill`: only the payer may delete; answers the deleted row. */
  function DeleteBill(db: Db, currentUser: Option<User>, billId: int): (r: Reply<Bill>)
    ensures r.result.Failure? ==> r.db == db
    ensures currentUser.None? ==> r.result == Failure(Unauthenticated)
    ensures currentUser.Some? && billId !in db.bills ==> r.result == Failure(NoSuchBill)
    ensures currentUser.Some? && billId in db.bills && !IsPayer(db.bills[billId], currentUser.value) ==>
      r.result == Failure(NotAuthorized(DeletingBill))
    ensures currentUser.Some? && billId in db.bills && IsPayer(db.bills[billId], currentUser.value) ==>
      && r.result == Success(db.bills[billId])
      && BillRemoved(db, r.db, billId)
    ensures WellFormed(db) ==> WellFormed(r.db)
  {
    if currentUser.None? then Reply(Failure(Unauthenticated), db)
    else if billId !in db.bills then Reply(Failure(NoSuchBill), db)
    else
      var bill := db.bills[billId];
      if !IsPayer(bill, currentUser.value) then Reply(Failure(NotAuthorized(DeletingBill)), db)
      else Reply(Success(bill), db.(bills := db.bills - {billId}))
  }

  /** `Mutation.updateBill`: only the payer may change description and amount. */
  function UpdateBill(db: Db, currentUser: Option<User>, billId: int, description: string, amount: Amount): (r: Reply<Bill>)
    ensures r.result.Failure? ==> r.db == db
    ensures currentUser.None? ==> r.result == Failure(Unauthenticated)
    ensures currentUser.Some? && billId !in db.bills ==> r.result == Failure(NoSuchBill)
    ensures currentUser.Some? && billId in db.bills && !IsPayer(db.bills[billId], currentUser.value) ==>
      r.result == Failure(NotAuthorized(UpdatingBill))
    ensures currentUser.Some? && billId in db.bills && IsPayer(db.bills[billId], currentUser.value) ==>
      && r.result == Success(db.bills[billId].(description := description, amount := amount))
      && BillReplaced(db, r.db, billId, r.result.value)
    ensures WellFormed(db) ==> WellFormed(r.db)
  {
    if currentUser.None? then Reply(Failure(Unauthenticated), db)
    else if billId !in db.bills then Reply(Failure(NoSuchBill), db)
    else
      var bill := db.bills[billId];
      if !IsPayer(bill, currentUser.value) then Reply(Failure(NotAuthorized(UpdatingBill)), db)
      else
        var updated := Patch(bill, Details(description, amount));
        Reply(Success(updated), db.(bills := db.bills[billId := updated]))
  }

  /** `Mutation.createItem`: only the payer of the parent bill may add items. */
  function CreateItem(db: Db, currentUser: Option<User>, billId: int, description: string, amount: Amount, now: Timestamp): (r: Reply<Item>)
    ensures r.result.Failure? ==> r.db == db
    ensures currentUser.None? ==> r.result == Failure(Unauthenticated)
    ensures currentUser.Some? && billId !in db.bills ==> r.result == Failure(NoSuchBill)
    ensures currentUser.Some? && billId in db.bills && !IsPayer(db.bills[billId], currentUser.value) ==>
      r.result == Failure(NotAuthorized(AddingItems))
    ensures currentUser.Some? && billId in db.bills && IsPayer(db.bills[billId], currentUser.value) ==>
      && r.result.Success?
      && r.result.value.billId == billId
      && r.result.value.description == description
      && r.result.value.amount == amount
      && r.result.value.createdAt == now
      && (WellFormed(db) ==> ItemAdded(db, r.db, r.result.value))
    ensures WellFormed(db) ==> WellFormed(r.db)
  {
    if currentUser.None? then Reply(Failure(Unauthenticated), db)
    else if billId !in db.bills then Reply(Failure(NoSuchBill), db)
    else if !IsPayer(db.bills[billId], currentUser.value) then Reply(Failure(NotAuthorized(AddingItems)), db)
    else
      var it := Item(db.nextItemId, now, description, amount, billId);
      Reply(Success(it), db.(items := db.items[it.id := it], nextItemId := db.nextItemId + 1))
  }

  /** `Mutation.deleteItem`: the item is looked up first, then its bill. */
  function DeleteItem(db: Db, currentUser: Option<User>, itemId: int): (r: Reply<Item>)
    ensures r.result.Failure? ==> r.db == db
    ensures currentUser.None? ==> r.result == Failure(Unauthenticated)
    ensures currentUser.Some? && itemId !in db.items ==> r.result == Failure(NoSuchItem)
    ensures currentUser.Some? && itemId in db.items && db.items[itemId].billId !in db.bills ==>
      r.result == Failure(NoSuchBill)
    ensures currentUser.Some? && itemId in db.items && db.items[itemId].billId in db.bills ==>
      var bill := db.bills[db.items[itemId].billId];
      && (!IsPayer(bill, currentUser.value) ==> r.result == Failure(NotAuthorized(DeletingItems)))
      && (IsPayer(bill, currentUser.value) ==>
            r.result == Success(db.items[itemId]) && ItemRemoved(db, r.db, itemId))
    ensures WellFormed(db) ==> WellFormed(r.db)
  {
    if currentUser.None? then Reply(Failure(Unauthenticated), db)
    else if itemId !in db.items then Reply(Failure(NoSuchItem), db)
    else
      var item := db.items[itemId];
      if item.billId !in db.bills then Reply(Failure(NoSuchBill), db)
      else if !IsPayer(db.bills[item.billId], currentUser.value) then Reply(Failure(NotAuthorized(DeletingItems)), db)
      else Reply(Success(item), db.(items := db.items - {itemId}))
  }

  /** `Mutation.updateItem`: changes description and amount, never the bill. */
  function UpdateItem(db: Db, currentUser: Option<User>, itemId: int, description: string, amount: Amount): (r: Reply<Item>)
    ensures r.result.Failure? ==> r.db == db
    ensures currentUser.None? ==> r.result == Failure(Unauthenticated)
    ensures currentUser.Some? && itemId !in db.items ==> r.result == Failure(NoSuchItem)
    ensures currentUser.Some? && itemId in db.items && db.items[itemId].billId !in db.bills ==>
      r.result == Failure(NoSuchBill)
    ensures currentUser.Some? && itemId in db.items && db.items[itemId].billId in db.bills ==>
      var bill := db.bills[db.items[itemId].billId];
      && (!IsPayer(bill, currentUser.value) ==> r.result == Failure(NotAuthorized(UpdatingItems)))
      && (IsPayer(bill, currentUser.value) ==>
            && r.result == Success(db.items[itemId].(description := description, amount := amount))
            && r.result.value.billId == db.items[itemId].billId
            && ItemReplaced(db, r.db, itemId, r.result.value))
    ensures WellFormed(db) ==> WellFormed(r.db)
  {
    if currentUser.None? then Reply(Failure(Unauthenticated), db)
    else if itemId !in db.items then Reply(Failure(NoSuchItem), db)
    else
      var item := db.items[itemId];
      if item.billId !in db.bills then Reply(Failure(NoSuchBill), db)
      else if !IsPayer(db.bills[item.billId], currentUser.value) then Reply(Failure(NotAuthorized(UpdatingItems)), db)
      else
        var updated := item.(description := description, amount := amount);
        Reply(Success(updated), db.(items := db.items[itemId := updated]))
  }

  /** Repeating an `updateBill` with the same arguments gives the same answer
      and leaves the store as the first call left it. */
  lemma UpdateBillIdempotent(db: Db, currentUser: Option<User>, billId: int, description: string, amount: Amount)
    ensures var first := UpdateBill(db, currentUser, billId, description, amount);
            UpdateBill(first.db, currentUser, billId, description, amount) == first
  {
  }

  /** Repeating an `updateItem` with the same arguments gives the same answer
      and leaves the store as the first call left it. */
  lemma UpdateItemIdempotent(db: Db, currentUser: Option<User>, itemId: int, description: string, amount: Amount)
    ensures var first := UpdateItem(db, currentUser, itemId, description, amount);
            UpdateItem(first.db, currentUser, itemId, description, amount) == first
  {
  }

  /** A bill that has not been paid cannot be updated, deleted or given items,
      nor can its items be changed, by any signed-in caller. */
  lemma UnpaidBillIsLocked(db: Db, currentUser: Option<User>, billId: int, itemId: int, description: string, amount: Amount, now: Timestamp)
    requires billId in db.bills && db.bills[billId].paidById.None?
    ensures var e := if currentUser.None? then Unauthenticated else NotAuthorized(UpdatingBill);
            UpdateBill(db, currentUser, billId, description, amount) == Reply(Failure(e), db)
    ensures var e := if currentUser.None? then Unauthenticated else NotAuthorized(DeletingBill);
            DeleteBill(db, currentUser, billId) == Reply(Failure(e), db)
    ensures var e := if currentUser.None? then Unauthenticated else NotAuthorized(AddingItems);
            CreateItem(db, currentUser, billId, description, amount, now) == Reply(Failure(e), db)
    ensures itemId in db.items && db.items[itemId].billId == billId ==>
      var e := if currentUser.None? then Unauthenticated else NotAuthorized(UpdatingItems);
      UpdateItem(db, currentUser, itemId, description, amount) == Reply(Failure(e), db)
    ensures itemId in db.items && db.items[itemId].billId == billId ==>
      var e := if currentUser.None? then Unauthenticated else NotAuthorized(DeletingItems);
      DeleteItem(db, currentUser, itemId) == Reply(Failure(e), db)
  {
  }
}
