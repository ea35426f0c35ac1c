/** The mutation resolvers as they run: each checks the caller, looks rows up
    through `context.prisma` one call at a time, returns early on the first
    failed check and otherwise makes one write. Each is proved to answer and
    to leave the store exactly as its counterpart in `Authorization` says. */
module Schema {
  import opened Wrappers
  import opened Records
  import opened Store
  import A = Authorization

  /** The GraphQL context: the Prisma client and the caller the request's
      token resolved to, or `None` when it carried none. */
  datatype Context = Context(prisma: Prisma, currentUser: Option<User>)

  method CreateBill(context: Context, description: string, amount: Amount, now: Timestamp) returns (r: Result<Bill, Error>)
    requires context.prisma.Valid()
    modifies context.prisma
    ensures context.prisma.Valid()
    ensures A.Reply(r, context.prisma.Snapshot())
         == A.CreateBill(old(context.prisma.Snapshot()), context.currentUser, description, amount, now)
  {
    if context.currentUser.None? {
      return Failure(Unauthenticated);
    }
    var newBill := context.prisma.CreateBill(description, amount, context.currentUser.value.id, now);
    return Success(newBill);
  }

  method PayBill(context: Context, billId: int) returns (r: Result<Bill, Error>)
    requires context.prisma.Valid()
    modifies context.prisma
    ensures context.prisma.Valid()
    ensures A.Reply(r, context.prisma.Snapshot()) == A.PayBill(old(context.prisma.Snapshot()), context.currentUser, billId)
  {
    if context.currentUser.None? {
      return Failure(Unauthenticated);
    }
    var bill := context.prisma.FindBill(billId);
    if bill.None? {
      return Failure(NoSuchBill);
    }
    if bill.value.paidById.Some? {
      return Failure(AlreadyPaid);
    }
    var updatedBill := context.prisma.UpdateBill(billId, PaidBy(context.currentUser.value.id));
    return Success(updatedBill.value);
  }

  method DeleteBill(context: Context, billId: int) returns (r: Result<Bill, Error>)
    requires context.prisma.Valid()
    modifies context.prisma
    ensures context.prisma.Valid()
    ensures A.Reply(r, context.prisma.Snapshot()) == A.DeleteBill(old(context.prisma.Snapshot()), context.currentUser, billId)
  {
    if context.currentUser.None? {
      return Failure(Unauthenticated);
    }
    var bill := context.prisma.FindBill(billId);
    if bill.None? {
      return Failure(NoSuchBill);
    }
    if bill.value.paidById != Some(context.currentUser.value.id) {
      return Failure(NotAuthorized(DeletingBill));
    }
    var deletedBill := context.prisma.DeleteBill(billId);
    return Success(deletedBill.value);
  }

  method UpdateBill(context: Context, billId: int, description: string, amount: Amount) returns (r: Result<Bill, Error>)
    requires context.prisma.Valid()
    modifies context.prisma
    ensures context.prisma.Valid()
    ensures A.Reply(r, context.prisma.Snapshot())
         == A.UpdateBill(old(context.prisma.Snapshot()), context.currentUser, billId, description, amount)
  {
    if context.currentUser.None? {
      return Failure(Unauthenticated);
    }
    var bill := context.prisma.FindBill(billId);
    if bill.None? {
      return Failure(NoSuchBill);
    }
    if bill.value.paidById != Some(context.currentUser.value.id) {
      return Failure(NotAuthorized(UpdatingBill));
    }
    var updatedBill := context.prisma.UpdateBill(billId, Details(description, amount));
    return Success(updatedBill.value);
  }

  method CreateItem(context: Context, billId: int, description: string, amount: Amount, now: Timestamp) returns (r: Result<Item, Error>)
    requires context.prisma.Valid()
    modifies context.prisma
    ensures context.prisma.Valid()
    ensures A.Reply(r, context.prisma.Snapshot())
         == A.CreateItem(old(context.prisma.Snapshot()), context.currentUser, billId, description, amount, now)
  {
    if context.currentUser.None? {
      return Failure(Unauthenticated);
    }
    var bill := context.prisma.FindBill(billId);
    if bill.None? {
      return Failure(NoSuchBill);
    }
    if bill.value.paidById != Some(context.currentUser.value.id) {
      return Failure(NotAuthorized(AddingItems));
    }
    var newItem := context.prisma.CreateItem(description, amount, billId, now);
    return Success(newItem);
  }

  method DeleteItem(context: Context, itemId: int) returns (r: Result<Item, Error>)
    requires context.prisma.Valid()
    modifies context.prisma
    ensures context.prisma.Valid()
    ensures A.Reply(r, context.prisma.Snapshot()) == A.DeleteItem(old(context.prisma.Snapshot()), context.currentUser, itemId)
  {
    if context.currentUser.None? {
      return Failure(Unauthenticated);
    }
    var item := context.prisma.FindItem(itemId);
    if item.None? {
      return Failure(NoSuchItem);
    }
    var bill := context.prisma.FindBill(item.value.billId);
    if bill.None? {
      return Failure(NoSuchBill);
    }
    if bill.value.paidById != Some(context.currentUser.value.id) {
      return Failure(NotAuthorized(DeletingItems));
    }
    var deletedItem := context.prisma.DeleteItem(itemId);
    return Success(deletedItem.value);
  }

  method UpdateItem(context: Context, itemId: int, description: string, amount: Amount) returns (r: Result<Item, Error>)
    requires context.prisma.Valid()
    modifies context.prisma
    ensures context.prisma.Valid()
    ensures A.Reply(r, context.prisma.Snapshot())
         == A.UpdateItem(old(context.prisma.Snapshot()), context.currentUser, itemId, description, amount)
  {
    if context.currentUser.None? {
      return Failure(Unauthenticated);
    }
    var item := context.prisma.FindItem(itemId);
    if item.None? {
      return Failure(NoSuchItem);
    }
    var bill := context.prisma.FindBill(item.value.billId);
    if bill.None? {
      return Failure(NoSuchBill);
    }
    if bill.value.paidById != Some(context.currentUser.value.id) {
      return Failure(NotAuthorized(UpdatingItems));
    }
    var updatedItem := context.prisma.UpdateItem(itemId, description, amount);
    return Success(updatedItem.value);
  }
}
