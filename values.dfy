/** Small value types shared by the model of every script. */
module Values {

  datatype Option<T> = None | Some(value: T)

  datatype Result<T, E> = Success(value: T) | Failure(error: E)

  /** A cell of a row, a tag value or a value of an output dictionary.
      Python floats and Decimals are kept as their decimal text (`Real`);
      nothing in the model computes with them. `Unset` stands for the
      library's "no value" sentinels of a freshly constructed order. */
  datatype Value = Str(s: string) | Int(i: int) | Real(text: string) | Unset

  /** A row of one of the scripts' result tables. */
  type Row = seq<Value>

  /** A table as the scripts hand it to pandas: column names and rows. */
  datatype Table = Table(columns: seq<string>, rows: seq<Row>)
  {
    /** Every row has exactly one cell per column. */
    predicate WellFormed() {
      forall i :: 0 <= i < |rows| ==> |rows[i]| == |columns|
    }
  }
}
