/** The decoder for a record's `priority` field, which the provider sends
    either as a JSON string or as a JSON number. */
module Priority {
  import opened Numbers

  /** The raw JSON value handed to the decoder, told apart only as far as
      `encoding/json` tells the shapes apart when decoding into a Go string
      and into a Go `uint64`. */
  datatype RawValue =
    | JString(text: string)  // a JSON string, whatever characters it holds
    | JNull                  // the literal `null`
    | JInteger(value: int)   // a number literal without fraction or exponent (and not "-0")
    | JOther                 // any other number literal, `true`, `false`, an array or an object

  datatype Option<T> = None | Some(value: T)

  /** Whether `json.Unmarshal` into a Go string reports no error. A `null`
      is accepted too: it leaves the string as it was. */
  predicate DecodesAsString(raw: RawValue) {
    raw.JString? || raw.JNull?
  }

  /** The value `json.Unmarshal` stores into a Go `uint64`, or None when it
      reports an error (negative, too large, fractional or not a number). */
  function DecodeAsUint64(raw: RawValue): Option<Uint64> {
    if raw.JInteger? && 0 <= raw.value < Modulus64 then Some(raw.value) else None
  }

  /** The priority left behind by `UnmarshalJSON` on `raw` when `current` was
      stored before. The string attempt comes first, so a string gives 0 even
      when it spells a number; only then is a number taken, and a shape that
      neither attempt accepts keeps the old value. */
  function DecodedPriority(raw: RawValue, current: Int64): (p: Int64)
    ensures raw.JString? ==> p == 0
    ensures raw.JNull? ==> p == 0
    ensures raw.JInteger? && 0 <= raw.value < 0x8000_0000_0000_0000 ==> p == raw.value
    ensures raw.JInteger? && 0 <= raw.value < Modulus64 ==> (raw.value - p) % Modulus64 == 0
    ensures raw.JOther? || (raw.JInteger? && !(0 <= raw.value < Modulus64)) ==> p == current
  {
    if DecodesAsString(raw) then 0
    else match DecodeAsUint64(raw)
      case Some(n) => Int64OfUint64(n)
      case None => current
  }

  /** A string that reads as a number still gives priority 0. */
  lemma NumericStringGivesZero(n: nat, current: Int64)
    ensures DecodedPriority(JString(NatDigits(n)), current) == 0
    ensures n < 0x8000_0000_0000_0000 ==> DecodedPriority(JInteger(n), current) == n
  {
  }

  /** Decoding depends on the old value only for shapes that are neither a
      string, `null`, nor an unsigned 64-bit integer. */
  lemma DecodeIgnoresCurrent(raw: RawValue, a: Int64, b: Int64)
    requires DecodesAsString(raw) || DecodeAsUint64(raw).Some?
    ensures DecodedPriority(raw, a) == DecodedPriority(raw, b)
  {
  }

  /** The `PriorityValue` stored in a record field, updated in place through
      the pointer receiver of `UnmarshalJSON`. */
  class PriorityValue {
    var value: Int64

    constructor (v: Int64)
      ensures value == v
    {
      value := v;
    }

    /** Stores the decoded priority and never reports an error. */
    method UnmarshalJSON(b: RawValue) returns (err: Option<string>)
      modifies this
      ensures value == DecodedPriority(b, old(value))
      ensures err == None
    {
      if DecodesAsString(b) {
        value := 0;
        return None;
      }
      var n := DecodeAsUint64(b);
      if n.Some? {
        value := Int64OfUint64(n.value);
      }
      return None;
    }
  }
}
