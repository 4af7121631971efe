/** The .NET exceptions the clients throw, catch or report, as values. */
module Exceptions {

  datatype Exception =
    | ArgumentNull(paramName: string)
    | Argument(message: string)
    | ArgumentOutOfRange
    | InvalidOperation(message: string)
    | InvalidData(message: string)
    | ObjectDisposed(objectName: string)
    | NullReference
    | OperationCanceled
    /** A failure of the WebSocket transport (connection refused, reset). */
    | Transport
    /** A failure inside the JSON library. */
    | Json
    /** An exception thrown by a user-supplied event handler. */
    | HandlerFailed(handler: nat)
}
