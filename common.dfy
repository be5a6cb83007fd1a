/**
 * Values shared by every module of the model: nullable references written as
 * `Option`, the outcome of an operation that may throw, the exceptions the
 * modelled code raises, and the 32-bit integers of the CLR.
 */
module Common {

  datatype Option<+T> = None | Some(value: T) {
    function GetOr(default: T): T {
      match this
      case Some(v) => v
      case None => default
    }
  }

  /** A .NET `string` reference: `None` is `null`. Equality is ordinal, as `string.Equals`. */
  type NString = Option<string>

  /** A 32-bit signed integer (`System.Int32`). */
  newtype int32 = x: int | -0x8000_0000 <= x < 0x8000_0000

  const Int32Min: int32 := -0x8000_0000

  /**
   * The exceptions the modelled code throws, or lets through from the
   * platform calls it makes, by .NET exception type.
   */
  datatype Exception =
    | ArgumentNull(paramName: string)
    | DuplicateKey(key: string)             // ArgumentException from Dictionary.Add
    | ArgumentOutOfRange(paramName: string)
    | NullReference
    | DivideByZero
    | ArithmeticOverflow                    // int.MinValue % -1
    | NotSupported(message: string)
    | InvalidOperation(message: string)
    | XsltError(message: string)
    | Serialization(member: string)         // missing or duplicate SerializationInfo member
    | MethodCallRequired(methodName: NString, rawMessage: NString, inner: Option<Exception>)

  /** Either the value an operation returns or the exception it throws. */
  datatype Result<+T> = Success(value: T) | Failure(error: Exception)

  /** `Some(e)` when an operation that returns nothing throws `e`. */
  type Outcome = Option<Exception>
}
