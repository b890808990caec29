/** Small types the code modules share. */
module Common {

  datatype Option<T> = None | Some(value: T)

  /** What becomes of a command: it takes effect and says so, its reply is lost, or it fails without effect. */
  datatype Answer = Answered | Unheard | NoEffect

  /** What a stock gate tells its caller. */
  datatype GateReply = Passed | Short | GateError
}
