/**
 * The package holds three probe-then-evaluate flows: the controller's
 * `permitAndAuth`, the minimal `BiometricAuthenticator`, and the legacy
 * `initBioAuth`. On the same framework answers they agree on success.
 */
module Flows {
  import opened LAErrors
  import opened Platform
  import opened AuthControllers
  import opened Authenticators
  import opened LegacyBioAuth

  /** Each flow reports success exactly when the probe passes and the evaluation succeeds. */
  lemma FlowsAgreeOnSuccess(a: Answers, enc: Code -> int, c: Context, reason: string)
    ensures PermitCompleted(true) in PermitAndAuthEvents(a, c) <==> InitBioAuthResult(a, enc, c).Success?
    ensures var es := AuthenticatorEvents(a, c, reason);
            es[|es| - 1].success <==> InitBioAuthResult(a, enc, c).Success?
  {
  }
}
