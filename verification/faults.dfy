/** The exceptions the modelled code can raise, as values. */
module Faults {

  datatype Fault =
    | TransportFault          // an IOException raised by the connection or one of its streams
    | BadResponseCode(code: int)  // the IOException thrown for a status outside 2xx
    | IndexOutOfBounds        // a buffered read given an offset or length outside its buffer
    | JsonFault               // a Gson exception: an unusable document, or an IOException met while Gson read
    | NullReference           // a NullPointerException on a field Gson left null
}
