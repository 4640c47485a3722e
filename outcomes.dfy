/** Error values the database layer hands back, and an optional wrapper
    standing for Go's nil-or-value results (`error`, `interface{}`). */
module Outcomes {

  datatype Option<+T> = None | Some(value: T)

  /** The errors the core tells apart. `sql.ErrNoRows` is compared by
      identity in the source, so a driver failure is never mistaken for it. */
  datatype Error =
    | ErrNoRows                  // sql.ErrNoRows: the query matched no row
    | ErrTxDone                  // sql.ErrTxDone: commit or rollback on a finished transaction
    | DriverError(message: string)
}
