/** Small shared datatypes. */
module Common {

  datatype Option<+T> = None | Some(value: T)

  /** How a call to another process ends: it takes effect and is acknowledged,
      it has no effect and reports an error, or it takes effect while the caller
      sees an error (the acknowledgement is lost). */
  datatype Reply = Acknowledged | Refused | Lost
}
