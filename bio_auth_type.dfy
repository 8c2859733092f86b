/** `BioAuthType`: which biometry the device offers, and the titles built from it. */
module BioAuthTypes {
  import Wrappers
  import opened Platform
  import opened LegacyBioAuth

  /** `BioAuthType`, a string-backed enumeration. */
  datatype BioAuthType = Touch | Face | None
  {
    /** `rawValue`. */
    function RawValue(): (s: string)
      ensures FromRawValue(s) == Wrappers.Some(this)
    {
      match this
      case Touch => "Touch ID"
      case Face => "Face ID"
      case None => "BioAuth not supported"
    }
  }

  /** `BioAuthType(rawValue:)`: the case whose raw value is `s`, if any. */
  function FromRawValue(s: string): (r: Wrappers.Option<BioAuthType>)
    ensures r.Some? ==> s in {"Touch ID", "Face ID", "BioAuth not supported"}
  {
    if s == "Touch ID" then Wrappers.Some(Touch)
    else if s == "Face ID" then Wrappers.Some(Face)
    else if s == "BioAuth not supported" then Wrappers.Some(None)
    else Wrappers.None
  }

  /** The raw values are pairwise distinct. */
  lemma RawValuesDistinct(t: BioAuthType, u: BioAuthType)
    requires t.RawValue() == u.RawValue()
    ensures t == u
  {
    assert FromRawValue(t.RawValue()) == Wrappers.Some(t);
  }

  /**
   * `BioAuthType.type`: `None` unless the shared context can evaluate the
   * biometrics policy; otherwise the device's biometry, with every biometry
   * other than Touch ID and Face ID reported as `None`.
   */
  function CurrentType(b: BioAuth, d: Device): (t: BioAuthType)
    reads b, d
    ensures !b.IsAccessible(d) ==> t == None
    ensures t == Touch <==> b.IsAccessible(d) && d.answers.biometry == TouchID
    ensures t == Face <==> b.IsAccessible(d) && d.answers.biometry == FaceID
  {
    if !b.IsAccessible(d) then None
    else match d.answers.biometry
      case TouchID => Touch
      case FaceID => Face
      case _ => None
  }

  /** `BioAuthType.AuthTitle`. */
  datatype AuthTitle = AuthTitle(title: string, description: string)

  /** `NSAttributedString`, reduced to its text. */
  datatype AttributedText = AttributedText(text: string)

  /** `BioAuthType.AttrAuthTitleAndDesc`. */
  datatype AttrAuthTitleAndDesc = AttrAuthTitleAndDesc(title: AttributedText, description: AttributedText)

  /**
   * `getAuthTitle(normal:old:)`: `normal` applied to the raw value of the
   * current type; `legacy` is for platforms the package no longer supports.
   */
  function GetAuthTitle(b: BioAuth, d: Device, normal: string -> AuthTitle, legacy: string -> AuthTitle): (r: AuthTitle)
    reads b, d
    ensures !b.IsAccessible(d) || d.answers.biometry !in {TouchID, FaceID} ==> r == normal("BioAuth not supported")
    ensures b.IsAccessible(d) && d.answers.biometry == TouchID ==> r == normal("Touch ID")
    ensures b.IsAccessible(d) && d.answers.biometry == FaceID ==> r == normal("Face ID")
  {
    normal(CurrentType(b, d).RawValue())
  }

  /** `getAttrAuthTitleAndDesc(normal:old:)`: as `GetAuthTitle`, with attributed texts. */
  function GetAttrAuthTitleAndDesc(b: BioAuth, d: Device, normal: string -> AttrAuthTitleAndDesc,
                                   legacy: string -> AttrAuthTitleAndDesc): (r: AttrAuthTitleAndDesc)
    reads b, d
    ensures !b.IsAccessible(d) || d.answers.biometry !in {TouchID, FaceID} ==> r == normal("BioAuth not supported")
    ensures b.IsAccessible(d) && d.answers.biometry == TouchID ==> r == normal("Touch ID")
    ensures b.IsAccessible(d) && d.answers.biometry == FaceID ==> r == normal("Face ID")
  {
    normal(CurrentType(b, d).RawValue())
  }
}
