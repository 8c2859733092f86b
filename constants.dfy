/** The fixed texts of the legacy `BioAuth` facade (`BioAuth+Const.swift`). */
module BioAuthConstants {

  /** `notEnrolled`: the message for a device without enrolled biometrics. */
  const NotEnrolled := "The operation couldn’t be completed. (TouchID or FaceID Not Enrolled error 0.)"

  /** `myLocalizedReasonString`: the prompt text of `initBioAuth`. */
  const MyLocalizedReasonString := "Authenticate using your biometric data"

  /** `successText`: the message of a successful `initBioAuth`. */
  const SuccessText := "User authenticated successfully"

  /** The first line of every `errorMsg`. */
  const ErrorMsgPrefix := "User did not authenticate successfully\n"

  /** `errorMsg`: the fixed first line followed by the error text. */
  function ErrorMsg(errStr: string): (m: string)
    ensures |m| == |ErrorMsgPrefix| + |errStr|
    ensures m[..|ErrorMsgPrefix|] == ErrorMsgPrefix
    ensures m[|ErrorMsgPrefix|..] == errStr
  {
    ErrorMsgPrefix + errStr
  }

  /** Different error texts give different messages. */
  lemma ErrorMsgInjective(a: string, b: string)
    requires ErrorMsg(a) == ErrorMsg(b)
    ensures a == b
  {
    assert a == ErrorMsg(a)[|ErrorMsgPrefix|..];
  }
}
