/** The records the resolvers work on (the Prisma client's User, Bill and Item
    rows) and the errors the resolvers throw. */
module Records {
  import opened Wrappers

  /** A `DateTime` stamped by the database; only stored, never inspected. */
  type Timestamp = int

  /** A GraphQL `Float`; the resolvers only copy it from arguments to rows. */
  type Amount = real

  datatype User = User(id: int, name: string, email: string, password: string)

  /** `paidById` is the foreign key of the `paidBy` relation; `None` is SQL null. */
  datatype Bill = Bill(id: int, createdAt: Timestamp, description: string, amount: Amount, paidById: Option<int>)

  datatype Item = Item(id: int, createdAt: Timestamp, description: string, amount: Amount, billId: int)

  /** What a caller who is not the bill's payer tried to do. */
  datatype Op = DeletingBill | UpdatingBill | AddingItems | DeletingItems | UpdatingItems

  datatype Error =
    | Unauthenticated
    | NoSuchBill
    | NoSuchItem
    | AlreadyPaid
    | NotAuthorized(op: Op)

  /** Every refusal of a caller who is not the payer starts with this. */
  const AuthorizationPrefix := "Not authorized to "

  /** The message of the `Error` each resolver throws. */
  function Message(e: Error): (m: string)
    ensures e.NotAuthorized? <==> AuthorizationPrefix <= m
  {
    match e
    case Unauthenticated => var text := "Unauthenticated!"; assert text[0] != AuthorizationPrefix[0]; text
    case NoSuchBill => var text := "No such bill found"; assert text[2] != AuthorizationPrefix[2]; text
    case NoSuchItem => var text := "No such item found"; assert text[2] != AuthorizationPrefix[2]; text
    case AlreadyPaid => var text := "Bill is already paid"; assert text[0] != AuthorizationPrefix[0]; text
    case NotAuthorized(DeletingBill) => "Not authorized to delete this bill"
    case NotAuthorized(UpdatingBill) => "Not authorized to update this bill"
    case NotAuthorized(AddingItems) => "Not authorized to add items to this bill"
    case NotAuthorized(DeletingItems) => "Not authorized to delete items from this bill"
    case NotAuthorized(UpdatingItems) => "Not authorized to update items from this bill"
  }

  /** Each error is told apart by its message alone, so a client reading the
      GraphQL error text recovers exactly which gate failed. */
  lemma MessagesDistinct(e1: Error, e2: Error)
    ensures Message(e1) == Message(e2) ==> e1 == e2
  {
  }
}
