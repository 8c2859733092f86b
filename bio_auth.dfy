/**
 * The legacy `BioAuth` facade: `initBioAuth` (`BioAuth.swift`) and the
 * availability checks over its shared context (`BioAuth+Asserter.swift`).
 */
module LegacyBioAuth {
  import opened Wrappers
  import opened LAErrors
  import opened BioAuthErrors
  import opened BioAuthConstants
  import opened Platform

  /** What `initBioAuth` hands to `complete` when it runs on context `c`. */
  function InitBioAuthResult(a: Answers, enc: Code -> int, c: Context): (r: Result<Payload, BioAuthError>)
    ensures r.Success? <==> a.CanEvaluate(Biometrics) && a.reply.success
    ensures r.Success? ==> r.value == Payload(SuccessText, c)
    ensures r.Failure? ==> r.error.reason != ""
    ensures r.Failure? && r.error.AuthFailed? <==> !a.CanEvaluate(Biometrics)
    ensures r.Failure? && r.error.AuthFailed? ==>
              r.error.reason == GetErrorMessage(enc, if a.probeError.Some? then Some(a.probeError.value.code) else None)
    ensures r.Failure? && r.error.AuthAccessFailed? ==>
              (r.error.reason == UnknownError <==> AsLAError(a.reply.error).None?)
    ensures r.Failure? && r.error.AuthAccessFailed? && AsLAError(a.reply.error).Some? ==>
              r.error.reason == LAErrorMessage(enc, AsLAError(a.reply.error).value)
  {
    if !a.CanEvaluate(Biometrics) then
      var code := if a.probeError.Some? then Some(a.probeError.value.code) else None;
      Failure(AuthFailed(GetErrorMessage(enc, code)))
    else if a.reply.success then
      Success(Payload(SuccessText, c))
    else
      var reason := match AsLAError(a.reply.error)
        case Some(e) => LAErrorMessage(enc, e)
        case None => UnknownError;
      Failure(AuthAccessFailed(reason))
  }

  /**
   * The events of `initBioAuth` on its own new context `c`: a probe, an
   * evaluation only when the probe passes, and exactly one completion.
   */
  function InitBioAuthEvents(a: Answers, enc: Code -> int, c: Context): (es: seq<Event>)
    ensures |es| >= 1 && es[0] == Probed(c, Biometrics, a.CanEvaluate(Biometrics))
    ensures |es| == if a.CanEvaluate(Biometrics) then 3 else 2
    ensures Count(es, Completion) == 1
    ensures |es| >= 2 && es[|es| - 1] == BioAuthCompleted(InitBioAuthResult(a, enc, c))
    ensures Count(es, Evaluation) == if a.CanEvaluate(Biometrics) then 1 else 0
    ensures CallsOn(es, c, Biometrics, MyLocalizedReasonString)
  {
    var probe := [Probed(c, Biometrics, a.CanEvaluate(Biometrics))];
    var middle := if a.CanEvaluate(Biometrics) then [Evaluated(c, Biometrics, MyLocalizedReasonString)] else [];
    var last := BioAuthCompleted(InitBioAuthResult(a, enc, c));
    CountAppend(probe, middle, Evaluation);
    CountAppend(probe, middle, Completion);
    CountAppend(probe + middle, [last], Evaluation);
    CountAppend(probe + middle, [last], Completion);
    probe + middle + [last]
  }

  /** The state the `BioAuth` type keeps in statics: the shared `context`. */
  class BioAuth {
    var context: Context?

    constructor ()
      ensures context == null
    {
      context := null;
    }

    /** `isAccessible`: can the shared context evaluate the biometrics policy? */
    function IsAccessible(d: Device): (r: bool)
      reads this, d
      ensures context == null ==> !r
      ensures context != null ==> (r <==> d.answers.CanEvaluate(Biometrics))
    {
      context != null && d.answers.CanEvaluate(Biometrics)
    }

    /** `isAuthAvailable`: can the shared context evaluate the device-owner policy? */
    function IsAuthAvailable(d: Device): (r: bool)
      reads this, d
      ensures context == null ==> !r
      ensures context != null ==> (r <==> d.answers.CanEvaluate(DeviceOwnerAuthentication))
    {
      context != null && d.answers.CanEvaluate(DeviceOwnerAuthentication)
    }

    /**
     * `initBioAuth(complete:)`: runs on a context of its own, never the
     * shared one, and completes exactly once.
     */
    method InitBioAuth(d: Device)
      modifies d`log
      ensures exists c: Context :: fresh(c) && d.log == old(d.log) + InitBioAuthEvents(d.answers, d.encoding, c)
    {
      var c := new Context();
      ghost var expected := InitBioAuthResult(d.answers, d.encoding, c);
      var ok, authError := d.CanEvaluatePolicy(c, Biometrics);
      ghost var probe := [Probed(c, Biometrics, ok)];
      ghost var middle: seq<Event> := [];
      var result;
      if !ok {
        var code := if authError.Some? then Some(authError.value.code) else None;
        result := Failure(AuthFailed(GetErrorMessage(d.encoding, code)));
        assert result == expected;
      } else {
        var reply := d.EvaluatePolicy(c, Biometrics, MyLocalizedReasonString);
        middle := [Evaluated(c, Biometrics, MyLocalizedReasonString)];
        if reply.success {
          result := Success(Payload(SuccessText, c));
          assert result == expected;
        } else {
          var laError := AsLAError(reply.error);
          var reason := if laError.Some? then LAErrorMessage(d.encoding, laError.value) else UnknownError;
          result := Failure(AuthAccessFailed(reason));
          assert result == expected;
        }
      }
      assert d.log == old(d.log) + (probe + middle);
      d.Complete(BioAuthCompleted(result));
      assert d.log == old(d.log) + (probe + middle + [BioAuthCompleted(expected)]);
      assert d.log == old(d.log) + InitBioAuthEvents(d.answers, d.encoding, c);
    }
  }
}
