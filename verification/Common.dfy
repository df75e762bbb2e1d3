/** Small types shared by every module of the model. */
module Common {

  datatype Option<+T> = None | Some(value: T)

  /**
   * How one activity call ends, seen from its caller.
   *   Delivered  the work was done and the caller got the reply
   *   Unreached  nothing was done and the caller sees a failure
   *   Lost       the work was done, but the caller sees a failure
   */
  datatype Net = Delivered | Unreached | Lost
  {
    predicate TookEffect() { this != Unreached }
  }
}
