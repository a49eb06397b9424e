/** Failure-carrying results shared by every module. */
module Wrappers {

  datatype Option<+T> = None | Some(value: T)

  /** What one control-plane operation answers. The four errors are the exception
      classes the operations raise: ControlPlaneNotFoundError, ControlPlaneConflictError,
      ControlPlaneIntegrityError and ValueError. */
  datatype Reply<+T> = Ok(value: T) | NotFound | Conflict | Integrity | Invalid
}
