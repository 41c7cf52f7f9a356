/**
 * serde_json as the logger uses it: a text encoding of the log and its
 * decoder. The logger relies on one guarantee of it, stated here as
 * `RoundTrips`; the model keeps the codec abstract and assumes exactly that
 * guarantee where it needs it. Module `Json` gives a codec that has it.
 */
module Serde {
  import opened Wrappers
  import opened Observations

  /** Why a text is not the encoding of a log (a `serde_json::Error`). */
  datatype DecodeError = Syntax

  /** `serde_json::to_string` and `serde_json::from_str` at the log's type. */
  datatype Codec = Codec(
    encode: seq<Observation> -> string,
    decode: string -> Result<seq<Observation>, DecodeError>)
  {
    /** Decoding an encoding gives the log back, and no log encodes to the empty text. */
    ghost predicate RoundTrips() {
      forall log :: decode(encode(log)) == Ok(log) && encode(log) != []
    }
  }
}
