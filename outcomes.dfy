/** Optional values and the exceptions the modelled Python code can raise. */
module Outcomes {

  /** Python's `None` or a value. */
  datatype Option<+T> = None | Some(value: T)

  /** The exceptions a handler of the bot can end with. */
  datatype Exception =
    | ValueError      // `Day(x)` given a string that is not the value of a weekday
    | AttributeError  // a method looked up on the `None` returned by `Schedule.get` / `Homework.get`
    | KeyError        // `data['chosen_weekday']` read before any weekday was chosen

  /** A computation that returns a value or raises. */
  datatype Result<+T> = Ok(value: T) | Raise(error: Exception)
}
