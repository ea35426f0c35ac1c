/** Requests served one after another. GraphQL's executor sends each mutation
    field to its resolver; here a request is a value naming the field and its
    arguments, and a run folds the resolvers over a sequence of them. */
module Traces {
  import opened Wrappers
  import opened Records
  import opened Store
  import A = Authorization

  /** The fields of the `Mutation` type that this model covers, with their
      arguments; `now` is the database's clock at the time of an insert. */
  datatype Mutation =
    | CreateBill(description: string, amount: Amount, now: Timestamp)
    | PayBill(billId: int)
    | DeleteBill(billId: int)
    | UpdateBill(billId: int, description: string, amount: Amount)
    | CreateItem(billId: int, description: string, amount: Amount, now: Timestamp)
    | DeleteItem(itemId: int)
    | UpdateItem(itemId: int, description: string, amount: Amount)

  /** One request: who sent it and what it asks for. */
  datatype Call = Call(currentUser: Option<User>, mutation: Mutation)

  datatype Entity = BillEntity(bill: Bill) | ItemEntity(item: Item)

  function OfBill(r: A.Reply<Bill>): A.Reply<Entity> {
    A.Reply(match r.result case Success(b) => Success(BillEntity(b)) case Failure(e) => Failure(e), r.db)
  }

  function OfItem(r: A.Reply<Item>): A.Reply<Entity> {
    A.Reply(match r.result case Success(it) => Success(ItemEntity(it)) case Failure(e) => Failure(e), r.db)
  }

  /** Nothing a resolver does undoes a claim or reuses an id: counters only
      grow, a key below the old counter that is present now was present
      before, a paid bill keeps its payer, and an item keeps its bill. */
  ghost predicate Evolves(db: Db, db': Db) {
    && db.nextBillId <= db'.nextBillId
    && db.nextItemId <= db'.nextItemId
    && (forall id :: id in db'.bills && id < db.nextBillId ==> id in db.bills)
    && (forall id :: id in db'.items && id < db.nextItemId ==> id in db.items)
    && (forall id :: id in db.bills && id in db'.bills && db.bills[id].paidById.Some? ==>
          db'.bills[id].paidById == db.bills[id].paidById)
    && (forall id :: id in db.items && id in db'.items ==> db'.items[id].billId == db.items[id].billId)
  }

  /** The resolver the field is routed to. */
  function Execute(db: Db, currentUser: Option<User>, m: Mutation): (r: A.Reply<Entity>)
    ensures currentUser.None? ==> r == A.Reply(Failure(Unauthenticated), db)
    ensures r.result.Failure? ==> r.db == db
    ensures WellFormed(db) ==> WellFormed(r.db) && Evolves(db, r.db)
  {
    match m
    case CreateBill(description, amount, now) => OfBill(A.CreateBill(db, currentUser, description, amount, now))
    case PayBill(billId) => OfBill(A.PayBill(db, currentUser, billId))
    case DeleteBill(billId) => OfBill(A.DeleteBill(db, currentUser, billId))
    case UpdateBill(billId, description, amount) => OfBill(A.UpdateBill(db, currentUser, billId, description, amount))
    case CreateItem(billId, description, amount, now) => OfItem(A.CreateItem(db, currentUser, billId, description, amount, now))
    case DeleteItem(itemId) => OfItem(A.DeleteItem(db, currentUser, itemId))
    case UpdateItem(itemId, description, amount) => OfItem(A.UpdateItem(db, currentUser, itemId, description, amount))
  }

  /** The store after serving `calls` in order, one at a time, starting from
      `db`. Requests that carry no signed-in user never change it. */
  function Run(db: Db, calls: seq<Call>): (db': Db)
    ensures (forall i :: 0 <= i < |calls| ==> calls[i].currentUser.None?) ==> db' == db
    decreases |calls|
  {
    if calls == [] then db
    else Run(Execute(db, calls[0].currentUser, calls[0].mutation).db, calls[1..])
  }

  lemma EvolvesTransitive(a: Db, b: Db, c: Db)
    requires WellFormed(a) && Evolves(a, b) && Evolves(b, c)
    ensures Evolves(a, c)
  {
  }

  /** Every run keeps the store well formed and only evolves it. */
  lemma {:induction false} RunEvolves(db: Db, calls: seq<Call>)
    requires WellFormed(db)
    ensures WellFormed(Run(db, calls)) && Evolves(db, Run(db, calls))
    decreases |calls|
  {
    if calls != [] {
      var next := Execute(db, calls[0].currentUser, calls[0].mutation).db;
      RunEvolves(next, calls[1..]);
      EvolvesTransitive(db, next, Run(next, calls[1..]));
    }
  }

  /** Once a bill has a payer it keeps that payer for as long as it exists,
      whatever requests follow. */
  lemma ClaimIsPermanent(db: Db, calls: seq<Call>, billId: int)
    requires WellFormed(db)
    requires billId in db.bills && db.bills[billId].paidById.Some?
    ensures var later := Run(db, calls);
            billId in later.bills ==> later.bills[billId].paidById == db.bills[billId].paidById
  {
    RunEvolves(db, calls);
  }

  /** A bill a successful `payBill` claimed can never be paid again, by anyone,
      after any further requests: it is either gone or already paid. */
  lemma SecondPayFails(db: Db, firstPayer: Option<User>, billId: int, calls: seq<Call>, payer: User)
    requires WellFormed(db)
    requires A.PayBill(db, firstPayer, billId).result.Success?
    ensures var later := Run(A.PayBill(db, firstPayer, billId).db, calls);
            A.PayBill(later, Some(payer), billId).result
              == Failure(if billId in later.bills then AlreadyPaid else NoSuchBill)
  {
    var paid := A.PayBill(db, firstPayer, billId).db;
    ClaimIsPermanent(paid, calls, billId);
  }

  /** The bill `createBill` answers is already claimed by its creator, so no
      later `payBill` on it succeeds. */
  lemma CreatedBillCannotBePaid(db: Db, creator: User, description: string, amount: Amount, now: Timestamp, calls: seq<Call>, payer: User)
    requires WellFormed(db)
    ensures var created := A.CreateBill(db, Some(creator), description, amount, now);
            var later := Run(created.db, calls);
            var id := created.result.value.id;
            A.PayBill(later, Some(payer), id).result == Failure(if id in later.bills then AlreadyPaid else NoSuchBill)
  {
    var created := A.CreateBill(db, Some(creator), description, amount, now);
    ClaimIsPermanent(created.db, calls, created.result.value.id);
  }

  /** A deleted bill never comes back: its id is not handed out again. */
  lemma DeletedBillStaysDeleted(db: Db, currentUser: Option<User>, billId: int, calls: seq<Call>)
    requires WellFormed(db)
    requires A.DeleteBill(db, currentUser, billId).result.Success?
    ensures billId !in Run(A.DeleteBill(db, currentUser, billId).db, calls).bills
  {
    var deleted := A.DeleteBill(db, currentUser, billId).db;
    RunEvolves(deleted, calls);
  }

  /** Every bill in the store has a payer. */
  ghost predicate AllClaimed(db: Db) {
    forall id :: id in db.bills ==> db.bills[id].paidById.Some?
  }

  lemma ExecuteKeepsAllClaimed(db: Db, currentUser: Option<User>, m: Mutation)
    requires AllClaimed(db)
    ensures AllClaimed(Execute(db, currentUser, m).db)
  {
  }

  lemma {:induction false} RunKeepsAllClaimed(db: Db, calls: seq<Call>)
    requires AllClaimed(db)
    ensures AllClaimed(Run(db, calls))
    decreases |calls|
  {
    if calls != [] {
      ExecuteKeepsAllClaimed(db, calls[0].currentUser, calls[0].mutation);
      RunKeepsAllClaimed(Execute(db, calls[0].currentUser, calls[0].mutation).db, calls[1..]);
    }
  }

  /** Because `createBill` records the creator as payer, a store that starts
      empty never holds an unpaid bill, and `payBill` fails on every bill id
      after every sequence of requests. */
  lemma PayBillNeverSucceeds(calls: seq<Call>, payer: Option<User>, billId: int)
    ensures A.PayBill(Run(Empty, calls), payer, billId).result.Failure?
  {
    RunKeepsAllClaimed(Empty, calls);
  }

  /** Alice creates a dinner bill, which makes her its payer; Bob cannot pay it
      and neither can Alice; Alice adds a tip; Bob cannot delete the tip;
      Alice can change it. */
  lemma DinnerScenario(alice: User, bob: User)
    requires alice.id != bob.id
    ensures var s1 := A.CreateBill(Empty, Some(alice), "dinner", 40.0, 0);
            && s1.result == Success(Bill(1, 0, "dinner", 40.0, Some(alice.id)))
            && A.PayBill(s1.db, Some(bob), 1) == A.Reply(Failure(AlreadyPaid), s1.db)
            && A.PayBill(s1.db, Some(alice), 1) == A.Reply(Failure(AlreadyPaid), s1.db)
            && var s2 := A.CreateItem(s1.db, Some(alice), 1, "tip", 5.0, 1);
               && s2.result == Success(Item(1, 1, "tip", 5.0, 1))
               && A.DeleteItem(s2.db, Some(bob), 1) == A.Reply(Failure(NotAuthorized(DeletingItems)), s2.db)
               && A.UpdateItem(s2.db, Some(alice), 1, "tip", 6.0).result == Success(Item(1, 1, "tip", 6.0, 1))
               && A.UpdateItem(s2.db, None, 1, "tip", 6.0) == A.Reply(Failure(Unauthenticated), s2.db)
  {
  }
}
