// Small datatypes shared by all modules.
module Results {

  datatype Option<+T> = None | Some(value: T)

  // The status codes of lib/return-status.hpp that the modelled functions return.
  datatype Status =
    | DecryptError
    | ExpectationFailed
    | ExportError
    | GenericError
    | IncorrectBufferSize
    | InvalidState
    | InvalidValue
    | NotFound
    | Outdated
    | ProtobufMissingError
    | ProtobufUnpackError
    | ReceiveError
    | ShouldntHappen
    | VerificationFailed

  datatype Result<+T> = Ok(value: T) | Err(error: Status)

  newtype Byte = x: int | 0 <= x < 0x100
}
