/** Failure-carrying results shared by the whole model. */
module Wrappers {

  datatype Option<+T> = None | Some(value: T)

  /** The error kinds the contract reports. The chaincode returns formatted
      Go errors; the model keeps only which check failed. */
  datatype Error =
    | Unauthorized    // issuer role, ownership or approval check failed
    | NotFound        // no record stored under the key
    | OwnerMismatch   // `from` is not the slot's current owner
    | SlotOccupied    // the patient already holds a slot on that date
    | IdCollision     // the freshly generated id already names a slot
    | CodecError      // malformed date or vaccine type
    | EventRejected   // the host refused SetEvent
    | Aborted         // the transaction panicked; none of its writes persist

  datatype Result<+T> = Success(value: T) | Failure(error: Error)
}
