/** Rows as the CSV reader and the column mapper see them, and the one
    failure the core raises by itself: a KeyError from indexing a dictionary
    with a key it does not hold. */
module Rows {

  /** One record: column name to (uninterpreted, textual) value. */
  type Row = map<string, string>

  /** A column mapping from source (CSV) column to target (SQL) column,
      listed in the dictionary's insertion order, which is the order its
      items are visited in. */
  type Mapping = seq<(string, string)>

  /** The outcome of an operation that indexes dictionaries: a value, or the
      KeyError raised for the first key that was missing. */
  datatype Result<+T> = Ok(value: T) | KeyError(key: string) {

    predicate IsFailure() {
      KeyError?
    }

    function PropagateFailure<U>(): Result<U>
      requires KeyError?
    {
      KeyError(key)
    }

    function Extract(): T
      requires Ok?
    {
      value
    }
  }
}
