/** The records of the budget tracker's ledger and the shape a well-kept ledger has. */
module LedgerTypes {

  datatype Option<+T> = None | Some(value: T)

  datatype Result<+T, +E> = Ok(value: T) | Err(error: E)

  /** The `type` field of a record: the button selected when it was added. */
  datatype Kind = Income | Expense

  /**
   * One ledger entry. `amount` is an exact magnitude; whether it adds to or
   * subtracts from the balance is given by `kind`. `date` is the creation
   * instant as the ISO text the browser produced.
   */
  datatype Transaction = Transaction(
    id: string,
    kind: Kind,
    name: string,
    amount: real,
    category: string,
    date: string)

  /** No two entries share an id. */
  predicate UniqueIds(ts: seq<Transaction>)
  {
    forall i, j :: 0 <= i < j < |ts| ==> ts[i].id != ts[j].id
  }

  /** Every entry has a strictly positive amount. */
  predicate PositiveAmounts(ts: seq<Transaction>)
  {
    forall i :: 0 <= i < |ts| ==> ts[i].amount > 0.0
  }

  /**
   * The shape of a ledger built only through validated adds, deletes and
   * clears: unique ids, positive amounts, non-empty descriptions and categories.
   */
  predicate WellFormed(ts: seq<Transaction>)
  {
    && UniqueIds(ts)
    && PositiveAmounts(ts)
    && forall i :: 0 <= i < |ts| ==> ts[i].name != "" && ts[i].category != ""
  }
}
