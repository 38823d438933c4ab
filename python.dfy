/** Python values and exception classes that the exporter's code produces, catches or passes on. */
module Python {

  datatype Option<+T> = None | Some(value: T) {
    function GetOr(default: T): T {
      match this
      case Some(v) => v
      case None => default
    }
  }

  /** The exception classes the core raises, catches or reports. `OSError` stands for every
      failure of a foreign call (a file that cannot be opened or read, a failing psutil call). */
  datatype Exception = TypeError | IndexError | KeyError | ValueError | OSError

  /** A Python expression that either yields a value or raises. */
  datatype Result<+T> = Ok(value: T) | Err(error: Exception)

  /** How one call of a `collect_metrics()` method ended: it returned, or it raised. */
  datatype Outcome = Returned | Raised(cause: Exception)

  /** A value as a YAML configuration delivers it. Other scalars (floats, booleans) behave
      as `CInt` does wherever this model subscripts or concatenates them. */
  datatype ConfigValue =
    | CNone
    | CInt(i: int)
    | CStr(s: string)
    | CList(items: seq<ConfigValue>)
    | CMap(entries: map<string, ConfigValue>)
}
