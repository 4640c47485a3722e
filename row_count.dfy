/** Row-count extraction: the number of rows a multi-row fetch wrote,
    read off the runtime shape of its destination. */
module RowCount {

  /** The runtime shape of a destination as `reflect` reports it. A pointer
      is its own shape, whatever it points to. */
  datatype Dest =
    | Slice(len: nat)        // current length
    | Array(len: nat)        // declared length
    | Pointer(target: Dest)
    | Other

  /** `getReturnedRows`: the container's length when the destination has
      one, and -1, never a made-up count, when it has none. */
  function GetReturnedRows(dest: Dest): (n: int)
    ensures n >= -1
    ensures n == -1 <==> !(dest.Slice? || dest.Array?)
    ensures n != -1 ==> n == dest.len
  {
    match dest
    case Slice(len) => len
    case Array(len) => len
    case _ => -1
  }
}
