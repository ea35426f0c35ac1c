/** The persistence layer the resolvers reach through `context.prisma`: the Bill
    and Item tables, keyed by their autoincremented ids. */
module Store {
  import opened Wrappers
  import opened Records

  /** The contents of the store as a value; `nextBillId` and `nextItemId` are the
      tables' autoincrement counters. */
  datatype Db = Db(bills: map<int, Bill>, items: map<int, Item>, nextBillId: int, nextItemId: int)

  /** A fresh database: no rows, both counters at 1. */
  const Empty := Db(map[], map[], 1, 1)

  /** Every row is stored under its own id, and every id is below its table's
      counter, so the next id handed out is not in use. */
  ghost predicate WellFormed(db: Db) {
    && (forall id :: id in db.bills ==> db.bills[id].id == id && id < db.nextBillId)
    && (forall id :: id in db.items ==> db.items[id].id == id && id < db.nextItemId)
  }

  /** `b` was inserted under a key that was free, and nothing else changed. */
  ghost predicate BillAdded(db: Db, db': Db, b: Bill) {
    && b.id !in db.bills
    && db'.bills.Keys == db.bills.Keys + {b.id}
    && db'.bills[b.id] == b
    && (forall id :: id in db.bills ==> db'.bills[id] == db.bills[id])
    && db'.items == db.items
  }

  /** The existing bill under `key` now reads `b`, and nothing else changed. */
  ghost predicate BillReplaced(db: Db, db': Db, key: int, b: Bill) {
    && key in db.bills
    && db'.bills.Keys == db.bills.Keys
    && db'.bills[key] == b
    && (forall id :: id in db.bills && id != key ==> db'.bills[id] == db.bills[id])
    && db'.items == db.items
  }

  /** Exactly the bill key `id` is gone; every other row is as it was. */
  ghost predicate BillRemoved(db: Db, db': Db, id: int) {
    && id in db.bills
    && db'.bills.Keys == db.bills.Keys - {id}
    && (forall k :: k in db'.bills ==> db'.bills[k] == db.bills[k])
    && db'.items == db.items
  }

  /** `it` was inserted under a key that was free, and nothing else changed. */
  ghost predicate ItemAdded(db: Db, db': Db, it: Item) {
    && it.id !in db.items
    && db'.items.Keys == db.items.Keys + {it.id}
    && db'.items[it.id] == it
    && (forall id :: id in db.items ==> db'.items[id] == db.items[id])
    && db'.bills == db.bills
  }

  /** The existing item under `key` now reads `it`, and nothing else changed. */
  ghost predicate ItemReplaced(db: Db, db': Db, key: int, it: Item) {
    && key in db.items
    && db'.items.Keys == db.items.Keys
    && db'.items[key] == it
    && (forall id :: id in db.items && id != key ==> db'.items[id] == db.items[id])
    && db'.bills == db.bills
  }

  /** Exactly the item key `id` is gone; every other row is as it was. */
  ghost predicate ItemRemoved(db: Db, db': Db, id: int) {
    && id in db.items
    && db'.items.Keys == db.items.Keys - {id}
    && (forall k :: k in db'.items ==> db'.items[k] == db.items[k])
    && db'.bills == db.bills
  }

  /** The `data` object of a `bill.update` call: either the payer's id or a
      new description and amount. */
  datatype BillData = PaidBy(payerId: int) | Details(description: string, amount: Amount)

  /** The row `bill.update` writes: only the fields named in `data` change. */
  function Patch(b: Bill, data: BillData): Bill {
    match data
    case PaidBy(payerId) => b.(paidById := Some(payerId))
    case Details(description, amount) => b.(description := description, amount := amount)
  }

  /** The Prisma client. Each method is one Prisma call; `update` and `delete`
      on a missing row answer `None`, standing for Prisma's record-not-found
      error. */
  class Prisma {
    var bills: map<int, Bill>
    var items: map<int, Item>
    var nextBillId: int
    var nextItemId: int

    function Snapshot(): Db
      reads this
    {
      Db(bills, items, nextBillId, nextItemId)
    }

    ghost predicate Valid()
      reads this
    {
      WellFormed(Snapshot())
    }

    /** A client opened on a database that already holds the rows of `db`. */
    constructor (db: Db)
      requires WellFormed(db)
      ensures Valid() && Snapshot() == db
    {
      bills, items := db.bills, db.items;
      nextBillId, nextItemId := db.nextBillId, db.nextItemId;
    }

    /** `bill.findUnique({ where: { id } })` */
    method FindBill(id: int) returns (r: Option<Bill>)
      ensures r.Some? <==> id in bills
      ensures r.Some? ==> r.value == bills[id]
    {
      r := if id in bills then Some(bills[id]) else None;
    }

    /** `item.findUnique({ where: { id } })` */
    method FindItem(id: int) returns (r: Option<Item>)
      ensures r.Some? <==> id in items
      ensures r.Some? ==> r.value == items[id]
    {
      r := if id in items then Some(items[id]) else None;
    }

    /** `bill.create` with `paidBy: { connect: { id: payerId } }`. */
    method CreateBill(description: string, amount: Amount, payerId: int, now: Timestamp) returns (b: Bill)
      requires Valid()
      modifies this
      ensures Valid()
      ensures b == Bill(old(nextBillId), now, description, amount, Some(payerId))
      ensures BillAdded(old(Snapshot()), Snapshot(), b)
      ensures bills == old(bills)[b.id := b] && items == old(items)
      ensures nextBillId == old(nextBillId) + 1 && nextItemId == old(nextItemId)
    {
      b := Bill(nextBillId, now, description, amount, Some(payerId));
      bills := bills[b.id := b];
      nextBillId := nextBillId + 1;
    }

    /** `bill.update({ where: { id }, data })` */
    method UpdateBill(id: int, data: BillData) returns (r: Option<Bill>)
      requires Valid()
      modifies this
      ensures Valid()
      ensures r.Some? <==> id in old(bills)
      ensures r.Some? ==> r.value == Patch(old(bills)[id], data) && BillReplaced(old(Snapshot()), Snapshot(), id, r.value)
      ensures bills == (if r.Some? then old(bills)[id := r.value] else old(bills))
      ensures items == old(items) && nextBillId == old(nextBillId) && nextItemId == old(nextItemId)
    {
      if id in bills {
        var b := Patch(bills[id], data);
        bills := bills[id := b];
        r := Some(b);
      } else {
        r := None;
      }
    }

    /** `bill.delete({ where: { id } })`; returns the row as it was. */
    method DeleteBill(id: int) returns (r: Option<Bill>)
      requires Valid()
      modifies this
      ensures Valid()
      ensures r.Some? <==> id in old(bills)
      ensures r.Some? ==> r.value == old(bills)[id] && BillRemoved(old(Snapshot()), Snapshot(), id)
      ensures bills == old(bills) - {id}
      ensures items == old(items) && nextBillId == old(nextBillId) && nextItemId == old(nextItemId)
    {
      r := if id in bills then Some(bills[id]) else None;
      bills := bills - {id};
    }

    /** `item.create` with `bill: { connect: { id: billId } }`. */
    method CreateItem(description: string, amount: Amount, billId: int, now: Timestamp) returns (it: Item)
      requires Valid()
      modifies this
      ensures Valid()
      ensures it == Item(old(nextItemId), now, description, amount, billId)
      ensures ItemAdded(old(Snapshot()), Snapshot(), it)
      ensures items == old(items)[it.id := it] && bills == old(bills)
      ensures nextItemId == old(nextItemId) + 1 && nextBillId == old(nextBillId)
    {
      it := Item(nextItemId, now, description, amount, billId);
      items := items[it.id := it];
      nextItemId := nextItemId + 1;
    }

    /** `item.update({ where: { id }, data: { description, amount } })` */
    method UpdateItem(id: int, description: string, amount: Amount) returns (r: Option<Item>)
      requires Valid()
      modifies this
      ensures Valid()
      ensures r.Some? <==> id in old(items)
      ensures r.Some? ==> r.value == old(items)[id].(description := description, amount := amount)
      ensures r.Some? ==> ItemReplaced(old(Snapshot()), Snapshot(), id, r.value)
      ensures items == (if r.Some? then old(items)[id := r.value] else old(items))
      ensures bills == old(bills) && nextBillId == old(nextBillId) && nextItemId == old(nextItemId)
    {
      if id in items {
        var it := items[id].(description := description, amount := amount);
        items := items[id := it];
        r := Some(it);
      } else {
        r := None;
      }
    }

    /** `item.delete({ where: { id } })`; returns the row as it was. */
    method DeleteItem(id: int) returns (r: Option<Item>)
      requires Valid()
      modifies this
      ensures Valid()
      ensures r.Some? <==> id in old(items)
      ensures r.Some? ==> r.value == old(items)[id] && ItemRemoved(old(Snapshot()), Snapshot(), id)
      ensures items == old(items) - {id}
      ensures bills == old(bills) && nextBillId == old(nextBillId) && nextItemId == old(nextItemId)
    {
      r := if id in items then Some(items[id]) else None;
      items := items - {id};
    }
  }
}
