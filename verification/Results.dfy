/** Outcomes shared by the modules. */
module Results {
  datatype Option<+T> = None | Some(value: T)

  datatype Result = Ok | Closed | Timeout | WouldBlock
}
