/** Results of fallible and cancellable operations. */
module Errors {
  datatype Error = StreamClosed | Protocol | Transfer | Busy | DeviceClosed | InvalidConfig

  datatype Result<+T> = Ok(value: T) | Err(error: Error)

  /** How an awaited transfer ends. A transfer that fails or is cancelled may or may not have
      taken effect on the device. */
  datatype Outcome = Completed | FailedTransfer | Cancelled

  /** How a whole operation ends; `Dropped` is one cancelled at some await. */
  datatype Attempt<+T> = Finished(result: Result<T>) | Dropped
}
