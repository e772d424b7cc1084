/** The transaction record shared by the recurrence detector and the name
    canonicaliser. */
module Transactions {
  import opened Wrappers

  /** One transaction as it arrives from the data source. A field that may
      be absent from the record is an `Option`: `amount` (absent reads as 0),
      `date` (a calendar day number; absent makes date sorting fail) and
      `name` (the display label used for grouping). Amounts are signed,
      negative for an outflow. */
  datatype Transaction = Transaction(
    id: string,
    amount: Option<real>,
    date: Option<int>,
    merchantName: string,
    name: Option<string>,
    accountId: string)

  /** A transaction held by reference: the dictionary that the name
      normaliser rewrites in place. Two list positions may hold the same
      record. */
  class Record {
    var txn: Transaction

    constructor (t: Transaction)
      ensures txn == t
    {
      txn := t;
    }
  }
}
