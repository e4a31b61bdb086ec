/** Vocabulary shared by the scale driver: the protocol enumeration, the
    exceptions the driver raises or lets through, the weight sentinels and
    the parts of `decimal.Parse` the decoders rely on. */
module Types {

  datatype Option<+T> = None | Some(value: T)

  /** The C# enum `ProtocoloBalanca`. A C# enum variable may hold any
      integer, so a value outside the declared members is `Undefined`. */
  datatype ProtocoloBalanca = Toledo | Filizola | Undefined(code: int)

  /** `Enum.IsDefined(typeof(ProtocoloBalanca), p)`. */
  predicate IsDefined(p: ProtocoloBalanca) {
    !p.Undefined?
  }

  /** A protocol the driver has a decoder for. */
  type Vendor = p: ProtocoloBalanca | IsDefined(p) witness Toledo

  /** The exceptions of the driver, one variant per way a call can fail. */
  datatype Fault =
    | AlreadyOpen          // Conectar while connected: "A porta já está aberta"
    | UnsupportedProtocol  // Conectar with an undefined protocol value
    | NotOpen              // Desconectar while not connected: "A porta não está aberta"
    | ConnectionInactive   // LerPeso with no device: "A conexão não esta ativa."
    | ProtocolLocked       // changing the protocol while connected
    | TransportFailure     // the device could not be opened or read
    | OutOfRange           // ArgumentOutOfRangeException (Substring, Task.Delay)
    | FormatError          // decimal.Parse rejected the window
    | NullReference        // a member used through a null reference

  /** The outcome of a C# call that returns nothing or throws. */
  datatype Outcome = Pass | Fail(error: Fault)

  /** The outcome of a C# call that returns a value or throws. */
  datatype Result<+T> = Ok(value: T) | Err(error: Fault)

  // Weight sentinels in kg: `UltimoPesoLido` holds one of these instead of a weight.
  const Unstable: real := -1.0
  const Negative: real := -2.0
  const Overload: real := -10.0
  const ReadFailed: real := -9.0

  /** `decimal.Parse` of the current culture, `None` standing for a FormatException.
      Its grammar (signs, white space, separators, culture) is not modelled; the
      decoders use only what `IsDecimalParse` demands of it. */
  type DecimalParser = string -> Option<real>

  predicate IsDigit(c: char) {
    '0' <= c <= '9'
  }

  predicate AllDigits(s: string) {
    forall i :: 0 <= i < |s| ==> IsDigit(s[i])
  }

  predicate IsLetter(c: char) {
    'A' <= c <= 'Z' || 'a' <= c <= 'z'
  }

  predicate HasLetter(s: string) {
    exists i :: 0 <= i < |s| && IsLetter(s[i])
  }

  /** The value of a string of decimal digits, most significant first. */
  function DigitsValue(s: string): nat
    requires AllDigits(s)
    decreases |s|
  {
    if s == [] then 0 else DigitsValue(s[..|s| - 1]) * 10 + (s[|s| - 1] as int - '0' as int)
  }

  function Pow10(n: nat): nat {
    if n == 0 then 1 else 10 * Pow10(n - 1)
  }

  /** What any `decimal.Parse` does under `NumberStyles.Number` (its default):
      a non-empty run of digits is read as that integer, and a string with a
      Latin letter in it is rejected, since the style admits no exponent, no hex
      digits and no currency symbol. */
  ghost predicate IsDecimalParse(parse: DecimalParser) {
    (forall s :: s != [] && AllDigits(s) ==> parse(s) == Some(DigitsValue(s) as real)) &&
    (forall s :: HasLetter(s) ==> parse(s) == None)
  }

  /** A string of n digits is worth less than 10^n. */
  lemma {:induction false} DigitsValueBound(s: string)
    requires AllDigits(s)
    ensures DigitsValue(s) < Pow10(|s|)
    decreases |s|
  {
    if s != [] {
      var init := s[..|s| - 1];
      assert AllDigits(init) by {
        forall i | 0 <= i < |init| ensures IsDigit(init[i]) {
          assert init[i] == s[i];
        }
      }
      DigitsValueBound(init);
    }
  }

  /** The weight in kg that a five-digit window denotes: its integer value
      divided by 1000, so between 0 and 99.999 and never a sentinel. */
  lemma FiveDigitWeight(w: string)
    requires |w| == 5 && AllDigits(w)
    ensures 0.0 <= (DigitsValue(w) as real) / 1000.0 <= 99.999
    ensures (DigitsValue(w) as real) / 1000.0 !in {Unstable, Negative, Overload, ReadFailed}
  {
    DigitsValueBound(w);
    assert Pow10(5) == 100000;
  }
}
