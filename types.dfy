/**
 * The parts of the information-model types that the mocks depend on: the tag
 * of a data value and the tagged value itself. The library that defines them
 * is not part of this model; only their shape matters here.
 */
module Types {
  /** The declared type of a value; `None` means "no value", `Unknown` an unknown type. */
  datatype DataType = None | Unknown | Boolean | Integer | UnsignedInteger | Double | Timestamp | Opaque | String

  /** A timestamp as the information model stores it. */
  datatype Instant = Instant(year: nat, month: nat, day: nat, hours: nat, minutes: nat, seconds: nat, microseconds: nat)

  /**
   * A tagged value. Floating point numbers are represented by an opaque code:
   * nothing in the modelled code looks inside a double.
   */
  datatype DataVariant =
    | BoolValue(b: bool)
    | IntValue(i: int)
    | UIntValue(u: nat)
    | DoubleValue(bits: nat)
    | TimeValue(t: Instant)
    | OpaqueValue(bytes: seq<bv8>)
    | StringValue(s: string)

  /** The type tag of a value; a value never has the tag `None` or `Unknown`. */
  function ToDataType(v: DataVariant): (t: DataType)
    ensures t != DataType.None && t != DataType.Unknown
  {
    match v
    case BoolValue(_) => DataType.Boolean
    case IntValue(_) => DataType.Integer
    case UIntValue(_) => DataType.UnsignedInteger
    case DoubleValue(_) => DataType.Double
    case TimeValue(_) => DataType.Timestamp
    case OpaqueValue(_) => DataType.Opaque
    case StringValue(_) => DataType.String
  }

  /** A user-supplied `std::function`: only whether it is empty matters to the mocks. */
  datatype Callback = Empty | Given
}
