/** The `payment` table: an append-only ledger of payment events. Times are
    integer milliseconds of local wall-clock time; `createdAt` is assigned by
    the store on insert. */
module Ledger {
  import opened Common

  const Paid := "Paid"

  datatype PaymentRow = PaymentRow(
    transactionKey: string,
    amount: int,
    status: string,
    startAt: Option<int>,
    endAt: Option<int>,
    endGraceAt: Option<int>,
    nextScheduleAt: Option<int>,
    nextScheduleId: Option<string>,
    createdAt: int,
    userId: Option<string>)

  /** The `payment` table. Rows are only ever appended. */
  class PaymentTable {
    var rows: seq<PaymentRow>

    constructor(rows: seq<PaymentRow>)
      ensures this.rows == rows
    {
      this.rows := rows;
    }

    /** `insert(row)`: the store's answer `error` is a parameter; the row is
        stored exactly when there is no error. */
    method Insert(row: PaymentRow, error: Option<string>) returns (err: Option<string>)
      modifies this
      ensures err == error
      ensures rows == if error.None? then old(rows) + [row] else old(rows)
    {
      err := error;
      if error.None? {
        rows := rows + [row];
      }
    }
  }
}
