/** `std::io::Error`: its kind (only `WouldBlock` is told apart by the source) and its message. */
module Io {
  datatype ErrorKind = WouldBlock | Other

  datatype IoError = IoError(kind: ErrorKind, message: string)
}
