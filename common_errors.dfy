/** The platform's error envelope and the errors the client hands back (package `common`). */
module Common {
  import opened Values

  /** The JSON error envelope of the bot API. */
  datatype APIError = APIError(ok: bool, errorCode: int, description: string)

  /** A Go `error` value as this SDK produces or inspects it. */
  datatype Error =
    | ApiErrorRef(apiError: APIError)    // a `*APIError`, as `callAPI` returns it
    | ApiErrorValue(apiError: APIError)  // an `APIError` stored by value in the interface
    | Other(message: string)             // any other error (transport, I/O, decoding)

  const ErrorPrefix := "<APIError>\ncode = "
  const MessageSeparator := " \nmessage = "
  const ErrorSuffix := " \n"

  /** `APIError.Error()`: the code in decimal and the description, in a fixed frame. */
  function ErrorText(e: APIError): string {
    ErrorPrefix + Decimal(e.errorCode) + MessageSeparator + e.description + ErrorSuffix
  }

  /** `err.Error()` for every kind of error; both forms of APIError share the value method. */
  function Message(err: Error): string {
    match err
    case ApiErrorRef(e) => ErrorText(e)
    case ApiErrorValue(e) => ErrorText(e)
    case Other(m) => m
  }

  /** `IsAPIError`: the type assertion `e.(*APIError)`. */
  function IsAPIError(err: Error): bool {
    err.ApiErrorRef?
  }

  /** The type assertion succeeds for the pointer form only. */
  lemma IsAPIErrorExactlyPointers(e: APIError, m: string)
    ensures IsAPIError(ApiErrorRef(e))
    ensures !IsAPIError(ApiErrorValue(e))
    ensures !IsAPIError(Other(m))
  {
  }

  /** Position of the first space in `s`, or `|s|` when there is none. */
  function IndexOfSpace(s: string): (i: nat)
    ensures i <= |s|
    ensures forall k :: 0 <= k < i ==> s[k] != ' '
    ensures i < |s| ==> s[i] == ' '
  {
    if |s| == 0 || s[0] == ' ' then 0 else 1 + IndexOfSpace(s[1..])
  }

  /** Reads the code and the description back out of an error text. */
  function ParseErrorText(s: string): Option<(int, string)> {
    if |s| < |ErrorPrefix| || s[..|ErrorPrefix|] != ErrorPrefix then None
    else
      var rest := s[|ErrorPrefix|..];
      var i := IndexOfSpace(rest);
      var tail := rest[i..];
      if |tail| < |MessageSeparator| + |ErrorSuffix|
         || tail[..|MessageSeparator|] != MessageSeparator
         || tail[|tail| - |ErrorSuffix|..] != ErrorSuffix
      then None
      else
        match ParseDecimal(rest[..i])
        case None => None
        case Some(code) => Some((code, tail[|MessageSeparator|..|tail| - |ErrorSuffix|]))
  }

  lemma IndexOfSpaceAfterPrefix(d: string, t: string)
    requires forall k :: 0 <= k < |d| ==> d[k] != ' '
    requires |t| > 0 && t[0] == ' '
    ensures IndexOfSpace(d + t) == |d|
  {
    assert (d + t)[|d|] == ' ';
  }

  /** The error text carries the code and the description without loss. */
  lemma {:induction false} ErrorTextRoundTrip(e: APIError)
    ensures ParseErrorText(ErrorText(e)) == Some((e.errorCode, e.description))
  {
    var d := Decimal(e.errorCode);
    var tail := MessageSeparator + e.description + ErrorSuffix;
    var s := ErrorText(e);
    assert s == ErrorPrefix + (d + tail);
    assert s[..|ErrorPrefix|] == ErrorPrefix;
    var rest := s[|ErrorPrefix|..];
    assert rest == d + tail;
    IndexOfSpaceAfterPrefix(d, tail);
    assert rest[..|d|] == d;
    assert rest[|d|..] == tail;
    assert tail[..|MessageSeparator|] == MessageSeparator;
    assert tail[|tail| - |ErrorSuffix|..] == ErrorSuffix;
    assert tail[|MessageSeparator|..|tail| - |ErrorSuffix|] == e.description;
    DecimalRoundTrip(e.errorCode);
  }

  /** Two errors print the same text exactly when their codes and descriptions agree;
      the `ok` flag never shows. */
  lemma ErrorTextDeterminedByCodeAndDescription(a: APIError, b: APIError)
    ensures ErrorText(a) == ErrorText(b) <==> a.errorCode == b.errorCode && a.description == b.description
  {
    ErrorTextRoundTrip(a);
    ErrorTextRoundTrip(b);
  }
}
