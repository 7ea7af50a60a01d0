/** Vocabulary shared by every journaled transaction. */
module Prelude {

  datatype Option<+T> = None | Some(value: T)

  /** How one durable write ends. `Failed` is an I/O error the program sees;
      `Crashed` ends the process. Neither leaves a partial write behind. */
  datatype Io = Done | Failed | Crashed

  /** One nondeterministic I/O outcome. In calm weather no write fails. */
  method Attempt(calm: bool) returns (io: Io)
    ensures calm ==> io.Done?
  {
    io := *;
    if calm { io := Done; }
  }

  /** An external check whose answer the model does not fix. */
  method Oracle() returns (ok: bool) {
    ok := *;
  }

  /** A reading of the system clock. No reading is related to any other. */
  method Now() returns (seconds: int) {
    seconds := *;
  }
}
