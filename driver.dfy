/** The boundary with Go's `database/sql`: the values a driver hands over in
    an `interface{}`, a statement with its bound arguments, and a result
    cursor whose rows have already been fetched. */
module Driver {
  import opened Wrappers

  newtype int64 = x: int | -0x8000_0000_0000_0000 <= x < 0x8000_0000_0000_0000
  newtype int32 = x: int | -0x8000_0000 <= x < 0x8000_0000
  newtype byte = x: int | 0 <= x < 0x100

  /** A dynamically typed Go value held in an `interface{}`. A Go `string` is
      an immutable byte sequence, so `Text` carries bytes; `float64` is kept
      as its bit pattern and never computed with; `Other` stands for every
      type the coercions do not name (a `time.Time`, an `int32`, ...). */
  datatype Value =
    | Nil
    | Bool(b: bool)
    | Int64(i: int64)
    | Float64(bits: bv64)
    | Text(text: seq<byte>)
    | Bytes(data: seq<byte>)
    | Runes(runes: seq<int32>)
    | Other(typeName: string)

  /** SQL text with its positional arguments, as handed to `Exec`/`Query`. */
  datatype Statement = Statement(sql: string, args: seq<Value>)

  /** One step of a cursor: the raw column values of the row, or the error
      `rows.Scan` reports for it. */
  datatype Fetch = Fetched(values: seq<Value>) | ScanFailed(reason: string)

  /** A result cursor: its column names, the rows `rows.Next()` yields in
      order, and the error `rows.Err()` reports once iteration stops. */
  datatype Cursor = Cursor(columns: seq<string>, fetches: seq<Fetch>, err: Option<string>)

  /** The driver fills every fetched row with one value per column. */
  predicate RowsFit(columns: seq<string>, fetches: seq<Fetch>) {
    forall k :: 0 <= k < |fetches| && fetches[k].Fetched? ==> |fetches[k].values| == |columns|
  }

  predicate WellFormed(cur: Cursor) {
    RowsFit(cur.columns, cur.fetches)
  }
}
