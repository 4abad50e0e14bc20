/** Scalar values handed to the request builders, and how Go's `%v` verb
    renders each of them when it becomes a query or form parameter. */
module Values {

  /** Go's int64, the type of every integer parameter and id. */
  newtype int64 = x: int | -0x8000_0000_0000_0000 <= x < 0x8000_0000_0000_0000

  /** One byte of a request or response body. */
  newtype byte = x: int | 0 <= x < 256

  type Bytes = seq<byte>

  /** A Go pointer field or nil-able map: `None` is nil. */
  datatype Option<+T> = None | Some(value: T)

  /** The SDK's InputFile is a struct without fields. */
  datatype InputFile = InputFile

  /** A float64 parameter, carried as the text `%v` prints for it
      (the shortest representation that reads back as the same float). */
  datatype Float64 = Float64(formatted: string)

  /** The dynamic types that the endpoint builders pass to `setParam`. */
  datatype Value =
    | Int(i: int)
    | Bool(b: bool)
    | Str(s: string)
    | File(f: InputFile)
    | Float(x: Float64)

  predicate IsDigit(c: char) {
    '0' <= c <= '9'
  }

  predicate AllDigits(s: string) {
    forall k :: 0 <= k < |s| ==> IsDigit(s[k])
  }

  function DigitChar(d: nat): (c: char)
    requires d < 10
    ensures IsDigit(c) && c as int - '0' as int == d
  {
    ('0' as int + d) as char
  }

  /** The decimal digits of a natural number, most significant first, no leading zeros. */
  function Digits(n: nat): (s: string)
    ensures |s| > 0 && AllDigits(s)
    ensures n >= 10 ==> s[0] != '0'
    decreases n
  {
    if n < 10 then [DigitChar(n)] else Digits(n / 10) + [DigitChar(n % 10)]
  }

  /** `%d` (and `%v`) of an integer: an optional minus sign and the digits. */
  function Decimal(i: int): (s: string)
    ensures |s| > 0
    ensures i < 0 ==> s[0] == '-' && AllDigits(s[1..]) && (|s| > 2 ==> s[1] != '0')
    ensures i >= 0 ==> AllDigits(s) && (|s| > 1 ==> s[0] != '0')
  {
    if i < 0 then
      var d := Digits(-i);
      assert ("-" + d)[1..] == d;
      "-" + d
    else Digits(i)
  }

  /** The value of a string of decimal digits. */
  function DigitsValue(s: string): nat
    requires AllDigits(s)
  {
    if |s| == 0 then 0 else DigitsValue(s[..|s| - 1]) * 10 + (s[|s| - 1] as int - '0' as int)
  }

  /** Reads back what `Decimal` prints. */
  function ParseDecimal(s: string): Option<int> {
    if |s| > 0 && AllDigits(s) then Some(DigitsValue(s))
    else if |s| > 1 && s[0] == '-' && AllDigits(s[1..]) then Some(-(DigitsValue(s[1..]) as int))
    else None
  }

  lemma {:induction false} DigitsValueOfDigits(n: nat)
    ensures DigitsValue(Digits(n)) == n
    decreases n
  {
    if n >= 10 {
      var s := Digits(n);
      assert s[..|s| - 1] == Digits(n / 10);
      DigitsValueOfDigits(n / 10);
    }
  }

  /** Printing an integer in decimal loses nothing: it reads back as the same integer. */
  lemma DecimalRoundTrip(i: int)
    ensures ParseDecimal(Decimal(i)) == Some(i)
  {
    if i < 0 {
      var s := Decimal(i);
      assert !IsDigit(s[0]);
      assert s[1..] == Digits(-i);
      DigitsValueOfDigits(-i);
    } else {
      DigitsValueOfDigits(i);
    }
  }

  /** Distinct integers are rendered as distinct parameter texts. */
  lemma DecimalInjective(i: int, j: int)
    ensures Decimal(i) == Decimal(j) <==> i == j
  {
    DecimalRoundTrip(i);
    DecimalRoundTrip(j);
  }

  /** `fmt.Sprintf("%v", value)` for the values the builders pass. */
  function Render(v: Value): string {
    match v
    case Int(i) => Decimal(i)
    case Bool(b) => if b then "true" else "false"
    case Str(s) => s
    case File(_) => "{}"
    case Float(x) => x.formatted
  }

  /** What `%v` gives for each kind of value: decimal text that reads back as the
      integer, the words `true`/`false`, the string itself, and `{}` for an InputFile. */
  lemma RenderFormats(v: Value)
    ensures v.Int? ==> ParseDecimal(Render(v)) == Some(v.i)
    ensures v.Bool? ==> Render(v) == (if v.b then "true" else "false")
    ensures v.Str? ==> Render(v) == v.s
    ensures v.File? ==> Render(v) == "{}"
  {
    if v.Int? {
      DecimalRoundTrip(v.i);
    }
  }

  function IntOpt(o: Option<int64>): Option<Value> {
    if o.Some? then Some(Int(o.value as int)) else None
  }

  function BoolOpt(o: Option<bool>): Option<Value> {
    if o.Some? then Some(Bool(o.value)) else None
  }

  function StrOpt(o: Option<string>): Option<Value> {
    if o.Some? then Some(Str(o.value)) else None
  }

  function FileOpt(o: Option<InputFile>): Option<Value> {
    if o.Some? then Some(File(o.value)) else None
  }

  function FloatOpt(o: Option<Float64>): Option<Value> {
    if o.Some? then Some(Float(o.value)) else None
  }
}
