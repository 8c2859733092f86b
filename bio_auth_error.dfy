/** The errors of the legacy `initBioAuth` flow (`BioAuthError.swift`). */
module BioAuthErrors {

  /** `BioAuthError`: both cases carry a human-readable reason. */
  datatype BioAuthError =
    | AuthAccessFailed(reason: string)  // the evaluation was refused or failed
    | AuthFailed(reason: string)        // the device could not evaluate the policy
  {
    /** `localizedDescription`: the reason, whichever the case. */
    function LocalizedDescription(): (s: string)
      ensures s == reason
    {
      match this
      case AuthAccessFailed(r) => r
      case AuthFailed(r) => r
    }
  }

  /** The description cannot tell the two cases apart. */
  lemma DescriptionIgnoresCase(r: string)
    ensures AuthAccessFailed(r).LocalizedDescription() == AuthFailed(r).LocalizedDescription() == r
  {
  }
}
