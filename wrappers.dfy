/** Java's null and its exceptions, made explicit as values. */
module Wrappers {

  /** A Java reference that may be null: None stands for null. */
  datatype Option<+T> = None | Some(value: T)

  /** The unchecked exceptions the modelled code can throw. */
  datatype JavaException =
    | NumberFormat      // NumberFormatException from Integer.parseInt / Long.parseLong
    | NullPointer       // a method called on a null String
    | IndexOutOfBounds  // List.get(0) on an empty list
    | IllegalArgument   // System.getProperty("") rejects the empty key

  /** A value, or the exception that was thrown instead. */
  datatype Result<+T> = Ok(value: T) | Err(error: JavaException)

  /** The text Java's string concatenation uses for a possibly-null String. */
  function Render(s: Option<string>): string
  {
    match s
    case Some(v) => v
    case None => "null"
  }
}
