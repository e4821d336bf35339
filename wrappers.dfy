/** Option/Result/Outcome wrappers and the error kinds the system raises. */
module Wrappers {

  datatype Option<+T> = None | Some(value: T)

  /** The exception classes of the system, as values. */
  datatype Error =
    | FieldOutOfRange(field: string)   // DMRPFieldOutOfRangeException
    | BadPacket                        // DMRPBadPacketException / DMRPBadPacket
    | UnknownPacketType                // DMRPUnknownPacketTypeException
    | FactoryError                     // FactoryException raised by the base not_found
    | L2BadData                        // DMRPL2BadDataException
    | EmbLcAssemblerError              // EmbLCAssemblerException
    | CallLcDecoderError               // CallLCDecoderException
    | AppError                         // AppException
    | ValueError                       // Python's ValueError
    | TypeError                        // Python's TypeError

  datatype Result<+T> = Ok(value: T) | Err(error: Error)

  datatype Outcome = Pass | Fail(error: Error)
}
