/**
 * The error vocabulary of the LocalAuthentication framework and the messages
 * the package gives it (`LAError+Extension.swift`).
 *
 * The framework's integer raw values of `LAError.Code` are not part of this
 * model; every operation that needs them takes the framework's encoding
 * `enc: Code -> int` as a parameter, and the facts that need the raw values
 * to be distinct require `Injective(enc)`.
 */
module LAErrors {
  import opened Wrappers

  /** `LAError.Code`: the codes the framework can report. */
  datatype Code =
    | AuthenticationFailed
    | UserCancel
    | UserFallback
    | SystemCancel
    | PasscodeNotSet
    | BiometryNotAvailable
    | BiometryNotEnrolled
    | BiometryLockout
    | AppCancel
    | InvalidContext
    | NotInteractive
    | WatchNotAvailable
    | BiometryNotPaired
    | BiometryDisconnected
    | InvalidDimensions
    | CompanionNotAvailable
  {
    /** The eleven codes that `readableErrorMessage` names in its switch. */
    predicate IsNamed() {
      !(WatchNotAvailable? || BiometryNotPaired? || BiometryDisconnected?
        || InvalidDimensions? || CompanionNotAvailable?)
    }
  }

  /** Every code, in declaration order. */
  const AllCodes: seq<Code> := [
    AuthenticationFailed, UserCancel, UserFallback, SystemCancel,
    PasscodeNotSet, BiometryNotAvailable, BiometryNotEnrolled, BiometryLockout,
    AppCancel, InvalidContext, NotInteractive, WatchNotAvailable,
    BiometryNotPaired, BiometryDisconnected, InvalidDimensions, CompanionNotAvailable
  ]

  lemma AllCodesComplete(c: Code)
    ensures c in AllCodes
  {
  }

  /** The framework gives every code its own raw value. */
  ghost predicate Injective(enc: Code -> int) {
    forall a, b :: enc(a) == enc(b) ==> a == b
  }

  /** The first code of `cs` whose raw value is `raw`. */
  function Find(enc: Code -> int, raw: int, cs: seq<Code>): (r: Option<Code>)
    ensures r.Some? ==> r.value in cs && enc(r.value) == raw
    ensures r.Some? ==> exists i :: 0 <= i < |cs| && cs[i] == r.value && forall j :: 0 <= j < i ==> enc(cs[j]) != raw
    ensures r.None? ==> forall c :: c in cs ==> enc(c) != raw
  {
    if cs == [] then None
    else if enc(cs[0]) == raw then Some(cs[0])
    else Find(enc, raw, cs[1..])
  }

  /**
   * `LAError.Code(rawValue:)`: the code whose raw value is `raw`, or
   * `None` when `raw` is the raw value of no code.
   */
  function FromRaw(enc: Code -> int, raw: int): (r: Option<Code>)
    ensures r.Some? ==> enc(r.value) == raw
    ensures r.None? <==> forall c :: enc(c) != raw
  {
    var r := Find(enc, raw, AllCodes);
    if r.Some? then r
    else
      assert forall c :: enc(c) != raw by {
        forall c ensures enc(c) != raw { AllCodesComplete(c); }
      }
      r
  }

  /** Converting a code's raw value back gives the code. */
  lemma FromRawRoundTrip(enc: Code -> int, c: Code)
    requires Injective(enc)
    ensures FromRaw(enc, enc(c)) == Some(c)
  {
    var r := FromRaw(enc, enc(c));
    assert r.Some?;
    assert enc(r.value) == enc(c);
  }

  const UnknownError := "Unknown error"
  const CouldNotEvaluate := "Could not evaluate policy"

  // The messages of the eleven named codes.
  const AuthenticationFailedMessage := "Authentication failed"
  const UserCancelMessage := "User canceled"
  const SystemCancelMessage := "System canceled"
  const PasscodeNotSetMessage := "Please goto the settings & turn on passcode"
  const BiometryNotAvailableMessage := "TouchI or FaceID not available"
  const BiometryNotEnrolledMessage := "TouchID or FaceID not anrolled"
  const BiometryLockoutMessage := "TouchID or FaceID lockout please goto the Settings & Turn On Passcode"
  const AppCancelMessage := "App canceled"
  const InvalidContextMessage := "Invalid context"
  const UserFallbackMessage := "User fallback"
  const NotInteractiveMessage := "Not interactive"

  /**
   * `LAError.Code.readableErrorMessage`: a fixed message for each named
   * code, "Could not evaluate policy" for every other code.
   */
  function Message(c: Code): (m: string)
    ensures m != ""
    ensures m != UnknownError
    ensures m == CouldNotEvaluate <==> !c.IsNamed()
  {
    match c
    case AuthenticationFailed => AuthenticationFailedMessage
    case UserCancel => UserCancelMessage
    case SystemCancel => SystemCancelMessage
    case PasscodeNotSet => PasscodeNotSetMessage
    case BiometryNotAvailable => BiometryNotAvailableMessage
    case BiometryNotEnrolled => BiometryNotEnrolledMessage
    case BiometryLockout => BiometryLockoutMessage
    case AppCancel => AppCancelMessage
    case InvalidContext => InvalidContextMessage
    case UserFallback => UserFallbackMessage
    case NotInteractive => NotInteractiveMessage
    case _ => CouldNotEvaluate
  }

  /** The named codes have pairwise distinct messages. */
  lemma NamedMessagesDistinct(a: Code, b: Code)
    requires a.IsNamed() && b.IsNamed() && a != b
    ensures Message(a) != Message(b)
  {
  }

  /**
   * `LAError.getErrorMessage(errorCode:)`: "Unknown error" when there is no
   * code or the code is no raw value of the framework's, otherwise that
   * code's message.
   */
  function GetErrorMessage(enc: Code -> int, errorCode: Option<int>): (m: string)
    ensures m != ""
    ensures m == UnknownError <==> errorCode.None? || forall c :: enc(c) != errorCode.value
    ensures m != UnknownError ==> exists c :: enc(c) == errorCode.value && m == Message(c)
  {
    match errorCode
    case None => UnknownError
    case Some(raw) =>
      match FromRaw(enc, raw)
      case None => UnknownError
      case Some(c) => Message(c)
  }

  /** A recognised raw code gets its code's message. */
  lemma GetErrorMessageOfCode(enc: Code -> int, c: Code)
    requires Injective(enc)
    ensures GetErrorMessage(enc, Some(enc(c))) == Message(c)
  {
    FromRawRoundTrip(enc, c);
  }

  /** An error as the framework hands it over (`NSError`): a domain and a code. */
  datatype NSError = NSError(domain: string, code: int)

  /** The framework's error domain; an error of this domain bridges to `LAError`. */
  const LAErrorDomain := "com.apple.LocalAuthentication"

  /** `LAError`: a framework error, viewed through its `NSError`. */
  datatype LAError = LAError(nsError: NSError)

  /** `error as? LAError`: only an error of the framework's domain is an `LAError`. */
  function AsLAError(error: Option<NSError>): (r: Option<LAError>)
    ensures r.Some? <==> error.Some? && error.value.domain == LAErrorDomain
    ensures r.Some? ==> r.value.nsError == error.value
  {
    match error
    case Some(e) => if e.domain == LAErrorDomain then Some(LAError(e)) else None
    case None => None
  }

  /**
   * `LAError.readableErrorMessage`: the message of the error's code. A raw
   * code that names none of the cases reaches the switch's `default` arm.
   */
  function LAErrorMessage(enc: Code -> int, e: LAError): (m: string)
    ensures m != "" && m != UnknownError
    ensures FromRaw(enc, e.nsError.code).Some? ==> m == GetErrorMessage(enc, Some(e.nsError.code))
    ensures FromRaw(enc, e.nsError.code).None? ==> m == CouldNotEvaluate
  {
    match FromRaw(enc, e.nsError.code)
    case Some(k) => Message(k)
    case None => CouldNotEvaluate
  }
}
