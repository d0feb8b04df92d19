/** Error outcomes of the dataset iterator, and the result type that carries them. */
module Failures {

  /** The exceptions the iterator's operations can raise. */
  datatype Error =
    /** A kept CSV row has more than five numeric columns: the parse loop writes past the
        five-slot value array (ArrayIndexOutOfBoundsException). */
    | ColumnOverflow
    /** A train/test split bound lies outside the record list (IndexOutOfBoundsException). */
    | IndexOutOfBounds
    /** A split whose start lies after its end (IllegalArgumentException). */
    | IllegalArgument
    /** A batch was requested from an empty offset queue (NoSuchElementException). */
    | NoSuchElement

  datatype Result<+T> = Success(value: T) | Failure(error: Error)
}
