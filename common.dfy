/** Shared vocabulary: optional values, results carrying the error text that the
    application reports, fixed-width identifiers, and the status cell that a
    recorder shares with the code that captures for it. */
module Common {

  datatype Option<+T> = None | Some(value: T) {
    function GetOr(default: T): T {
      match this
      case Some(v) => v
      case None => default
    }
  }

  /** An operation that either succeeds with a value or fails with the message
      it reports to the user. */
  datatype Result<+T> = Ok(value: T) | Err(msg: string)

  const U32_LIMIT: nat := 0x1_0000_0000
  const U64_LIMIT: nat := 0x1_0000_0000_0000_0000

  type U32 = n: nat | n < U32_LIMIT
  type U64 = n: nat | n < U64_LIMIT

  /** The pair of shared cells (an `Arc<AtomicBool>` recording flag and an
      `Arc<AtomicU32>` holding the bits of the peak level) that a recorder hands
      to the code capturing on its behalf. Both parties hold the same object,
      so a write by one is seen by the other. */
  class LiveStatus {
    var isRecording: bool
    var peakLevel: real

    constructor ()
      ensures !isRecording && peakLevel == 0.0
    {
      isRecording := false;
      peakLevel := 0.0;
    }
  }
}
