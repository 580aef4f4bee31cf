/** The serializer the context store hands values through. PHP's
    `serialize`/`unserialize`, with the property-value conversions around
    them, are foreign calls: they are given here as a pair of functions,
    encode total and decode able to fail. */
module Codec {
  import opened Wrappers
  import opened Values

  /** Why a stored value could not be restored. */
  datatype DecodeError =
    | Malformed(reason: string)        // unserialize itself threw
    | IncompleteClass(className: string) // it produced __PHP_Incomplete_Class

  datatype Codec = Codec(encode: Value -> string, decode: string -> Result<Value, DecodeError>)

  /** The recovery hook: given the error, the key, the raw encoded value and
      whether the key belongs to the hidden partition, it yields the value
      to store in place of the one that failed. */
  type Handler = (DecodeError, string, string, bool) -> Value

  /** `raw` decodes to a complete value. */
  predicate Restores(c: Codec, raw: string) {
    c.decode(raw).Success? && !c.decode(raw).value.Incomplete?
  }

  /** The error restoring `raw` raises: the decoder's own, or the one
      thrown for an incomplete-class value. */
  function RestoreError(c: Codec, raw: string): (e: DecodeError)
    requires !Restores(c, raw)
    ensures c.decode(raw).Failure? ==> e == c.decode(raw).error
    ensures c.decode(raw).Success? ==> e == IncompleteClass(c.decode(raw).value.className)
  {
    match c.decode(raw)
    case Failure(err) => err
    case Success(v) => IncompleteClass(v.className)
  }

  /** Restores one entry during hydration: a complete decoded value is kept;
      on a failure the hook, when installed, supplies the value, and
      without one the error propagates. */
  function DecodeEntry(c: Codec, handler: Option<Handler>, key: string, raw: string, hidden: bool)
    : (r: Result<Value, DecodeError>)
    ensures r.Failure? <==> !Restores(c, raw) && handler.None?
    ensures Restores(c, raw) ==> r == c.decode(raw)
    ensures r.Success? && !Restores(c, raw) ==> r.value == handler.value(RestoreError(c, raw), key, raw, hidden)
    ensures r.Failure? ==> r.error == RestoreError(c, raw)
    ensures r.Success? ==> !r.value.Incomplete? || !Restores(c, raw)
  {
    if Restores(c, raw) then c.decode(raw)
    else match handler
      case None => Failure(RestoreError(c, raw))
      case Some(h) => Success(h(RestoreError(c, raw), key, raw, hidden))
  }

  /** `v` survives an encode/decode round trip as itself. */
  predicate Encodable(c: Codec, v: Value) {
    c.decode(c.encode(v)) == Success(v) && !v.Incomplete?
  }
}
