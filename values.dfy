/** The Python values that cross the boundary of the obfuscator core. */
module Values {

  /** One byte of a Python `bytes` object. */
  newtype Byte = b: int | 0 <= b < 256

  /** A Python exception, by class and message. `Raised` stands for any other exception
      class a library call may raise (a pandas `ParserError`, a `JSONDecodeError`, ...). */
  datatype Exception =
    | TypeError(message: string)
    | IndexError(message: string)
    | Raised(kind: string, message: string)

  /** The message Python gives when a list is indexed past its end. */
  const LIST_INDEX_OUT_OF_RANGE := "list index out of range"

  /** The dataset the handler works on: a `str`, a `bytes` object, or any other Python
      value (`OtherValue`), which the decoder must reject. */
  datatype Payload =
    | Str(text: string)
    | Bytes(data: seq<Byte>)
    | OtherValue

  /** What `json.loads` returns: a `str` or another JSON value (a dict, list, number,
      bool or None), never `bytes`. */
  type JsonLoaded = p: Payload | !p.Bytes? witness OtherValue
}
