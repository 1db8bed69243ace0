/**
 * Optional values and the Java exceptions that the modelled code lets
 * escape to its caller.  A Java method that returns normally is `Ok(v)`,
 * one that throws an unchecked exception is `Throw(e)`.
 */
module Wrappers {

  /** A Java reference that may be null, for values (strings, lists). */
  datatype Option<+T> = None | Some(value: T)

  /** The unchecked exceptions that reach the callers of the modelled code. */
  datatype JavaException =
    | IllegalState          // Query.toString without a FROM table
    | IllegalArgument       // Enum.valueOf on an unknown name, bad table column index
    | NumberFormat          // Integer.valueOf / Double.valueOf on a malformed literal
    | NullPointer           // dereference of null
    | IndexOutOfBounds      // array or list index out of range
    | UnsupportedParameter  // Query.execute on a parameter of an unsupported kind
    | StackOverflow         // unbounded recursion of the cascading insert/update

  /** The outcome of a Java call: a result, or an exception that propagates. */
  datatype Result<+T> = Ok(value: T) | Throw(exception: JavaException)

  /** The outcome of a Java `void` call. */
  datatype Outcome = Normal | Thrown(exception: JavaException)
}
