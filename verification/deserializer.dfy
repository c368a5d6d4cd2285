/** Decoding of the server's integer-valued boolean attributes. The
    attribute is first read as a string; that read may fail. */
module Deserializer {
  import opened Common
  import opened Decimal

  /** The error type of the deserializer; never produced here. */
  datatype DeError = DeError(message: string)

  /** `deserialize_integer_bool`: `read` is the outcome of reading the
      attribute as a string (`None` when that read failed). Only the
      exact string `"1"` means true; any other string, and a failed read,
      mean false. It always succeeds. */
  function DeserializeIntegerBool(read: Option<string>): (r: Result<bool, DeError>)
    ensures r.Ok?
    ensures r.value <==> read == Some("1")
  {
    match read
    case Some(s) => Ok(s == "1")
    case None => Ok(false)
  }

  /** Text that only resembles `"1"` is false. */
  lemma OnlyExactOneIsTrue()
    ensures DeserializeIntegerBool(Some("0")) == Ok(false)
    ensures DeserializeIntegerBool(Some("")) == Ok(false)
    ensures DeserializeIntegerBool(Some("true")) == Ok(false)
    ensures DeserializeIntegerBool(Some(" 1")) == Ok(false)
    ensures DeserializeIntegerBool(Some("1")) == Ok(true)
    ensures DeserializeIntegerBool(None) == Ok(false)
  {
  }

  /** Among the decimal renderings of numbers, only that of 1 decodes to
      true. */
  lemma DecodeDecimal(n: nat)
    ensures DeserializeIntegerBool(Some(NatToString(n))) == Ok(n == 1)
  {
  }
}
