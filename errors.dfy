/**
 * The errors `post` can return. The service hands each one back unchanged; the
 * model records which collaborator produced it and carries that collaborator's
 * message as it was given.
 */
module Errors {

  datatype Error =
    | TimestampError(detail: string)  // the wire timestamp did not convert
    | DeliveryError(detail: string)   // the sink refused the record
}
