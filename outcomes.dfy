/** The Python exceptions that the modelled code can raise, and the result of a call that
    either returns a value or raises one of them. */
module Outcomes {

  datatype Exception =
    | ZeroDivisionError   // a division by an integer or float zero
    | ValueError          // raised explicitly, or by an executor given max_workers <= 0
    | IndexError          // a list index out of range
    | AttributeError      // a method called on None
    | EOFError            // input() at the end of standard input

  datatype Outcome<+T> = Ok(value: T) | Raised(exc: Exception)
}
