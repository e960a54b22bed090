/** The sentinel errors of the package, plus the opaque errors that the host OS reports. */
module Errors {

  datatype Error =
    | ErrNotAbsolutePath
    | ErrNil
    | ErrEmpty
    | ErrNotMultipleCommands
    | ErrFileDoesNotExist
    | ErrNotRegularFile
    | ErrNotDir
      /** An error produced by the OS or by the Go runtime, propagated unchanged. */
    | OsErr(code: nat)
}
