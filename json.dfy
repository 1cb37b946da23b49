/**
 * JSON values as the bridge and the extension see them, and the
 * `json.dumps` / `json.loads` pair, which lives in a foreign library and
 * is therefore taken as a parameter: an encoder and a decoder that are
 * inverse to each other on every value.
 */
module JsonValues {

  /** One octet of a byte stream (stdin, stdout or a TCP socket). */
  newtype byte = b: int | 0 <= b < 256

  datatype Option<T> = None | Some(value: T)

  /** A JSON value. Floating-point numbers are not modelled; numbers are integers. */
  datatype Json =
    | Null
    | Bool(b: bool)
    | Num(n: int)
    | Str(s: string)
    | Arr(items: seq<Json>)
    | Obj(members: map<string, Json>)

  /**
   * The text codec: `dumps` renders a value as bytes, `loads` parses bytes
   * and fails (None) on malformed text, where `json.loads` raises ValueError.
   */
  datatype Codec = Codec(dumps: Json -> seq<byte>, loads: seq<byte> -> Option<Json>)

  /** Parsing what was rendered gives the value back. */
  ghost predicate Inverse(c: Codec)
  {
    forall j :: c.loads(c.dumps(j)) == Some(j)
  }
}
