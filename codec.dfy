/** The decoded positional arguments of a chain event and the JavaScript conversions the
    handlers apply to them: `toString()`, `BigInt(x.toString())`, `Number(x.toString())`
    and `toBigInt()`. Reading a position past the end of the tuple yields `undefined`,
    and calling a method on it throws; those throws are the errors below. */
module Codec {
  import opened Results
  import opened Text

  /** Why decoding an event threw. */
  datatype DecodeError =
    | MissingArgument(position: nat)  // a method was called on `data[position]`, which is undefined
    | NotAnInteger(position: nat)     // `BigInt` rejected the text, or the value has no `toBigInt`
    | MissingSequence                 // `data.toHuman()` has no `sequence` field

  type Decoded<T> = Result<T, DecodeError>

  /** One decoded event argument: an integer codec (`u32`, `u128`, `Balance`) or a codec
      whose `toString()` is text (an account id, a byte string). */
  datatype Value = UInt(n: nat) | Str(s: string) {
    function ToString(): string {
      match this
      case UInt(n) => Decimal(n)
      case Str(s) => s
    }
  }

  /** JavaScript's `Number` result: a non-negative integer or NaN. */
  datatype JsNumber = Finite(n: nat) | NaN

  /** `BigInt(text)`: a run of decimal digits (the empty run is 0); anything else throws. */
  function ParseBigInt(text: string): Option<nat> {
    if IsDigits(text) then Some(DigitsValue(text)) else None
  }

  /** `Number(text)`: like `BigInt`, but NaN instead of a throw. */
  function ParseNumber(text: string): JsNumber {
    if IsDigits(text) then Finite(DigitsValue(text)) else NaN
  }

  function ArgAt(data: seq<Value>, position: nat): Decoded<Value> {
    if position < |data| then Ok(data[position]) else Err(MissingArgument(position))
  }

  /** `data[position].toString()` */
  function StringAt(data: seq<Value>, position: nat): Decoded<string> {
    var v :- ArgAt(data, position);
    Ok(v.ToString())
  }

  /** `BigInt(data[position].toString())` */
  function BigIntAt(data: seq<Value>, position: nat): Decoded<nat> {
    var v :- ArgAt(data, position);
    match ParseBigInt(v.ToString())
    case Some(n) => Ok(n)
    case None => Err(NotAnInteger(position))
  }

  /** `Number(data[position].toString())` */
  function NumberAt(data: seq<Value>, position: nat): Decoded<JsNumber> {
    var v :- ArgAt(data, position);
    Ok(ParseNumber(v.ToString()))
  }

  /** `(data[position] as Balance).toBigInt()`: only integer codecs have `toBigInt`. */
  function ToBigIntAt(data: seq<Value>, position: nat): Decoded<nat> {
    var v :- ArgAt(data, position);
    match v
    case UInt(n) => Ok(n)
    case Str(_) => Err(NotAnInteger(position))
  }

  /** `BigInt(x.toString())` of an integer codec is that integer: the decimal text reads back. */
  lemma BigIntOfInteger(data: seq<Value>, position: nat)
    requires position < |data| && data[position].UInt?
    ensures BigIntAt(data, position) == Ok(data[position].n)
    ensures NumberAt(data, position) == Ok(Finite(data[position].n))
  {
    DecimalRoundTrip(data[position].n);
  }
}
