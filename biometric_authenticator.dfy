/** `BiometricAuthenticator`: the minimal probe-then-evaluate authenticator. */
module Authenticators {
  import opened Platform

  /**
   * The events of one `authenticate(reason:completion:)` on context `c`:
   * a probe, then either the probe's error or the evaluation's reply handed
   * to the completion, exactly once.
   */
  function AuthenticatorEvents(a: Answers, c: Context, reason: string): (es: seq<Event>)
    ensures |es| >= 1 && es[0] == Probed(c, Biometrics, a.CanEvaluate(Biometrics))
    ensures |es| == if a.CanEvaluate(Biometrics) then 3 else 2
    ensures Count(es, Completion) == 1
    ensures |es| >= 2 && es[|es| - 1] ==
              if a.CanEvaluate(Biometrics) then AuthenticatorCompleted(a.reply.success, a.reply.error)
              else AuthenticatorCompleted(false, a.probeError)
    ensures Count(es, Evaluation) == if a.CanEvaluate(Biometrics) then 1 else 0
    ensures CallsOn(es, c, Biometrics, reason)
  {
    var probe := [Probed(c, Biometrics, a.CanEvaluate(Biometrics))];
    var middle := if a.CanEvaluate(Biometrics) then [Evaluated(c, Biometrics, reason)] else [];
    var last := if a.CanEvaluate(Biometrics) then AuthenticatorCompleted(a.reply.success, a.reply.error)
                else AuthenticatorCompleted(false, a.probeError);
    CountAppend(probe, middle, Evaluation);
    CountAppend(probe, middle, Completion);
    CountAppend(probe + middle, [last], Evaluation);
    CountAppend(probe + middle, [last], Completion);
    probe + middle + [last]
  }

  class BiometricAuthenticator {
    /** The one context of this authenticator; never replaced. */
    const context: Context

    constructor ()
      ensures fresh(context)
    {
      context := new Context();
    }

    /** `authenticate(reason:completion:)`. */
    method Authenticate(reason: string, d: Device)
      modifies d`log
      ensures d.log == old(d.log) + AuthenticatorEvents(d.answers, context, reason)
    {
      var ok, error := d.CanEvaluatePolicy(context, Biometrics);
      if !ok {
        d.Complete(AuthenticatorCompleted(false, error));
        return;
      }
      var reply := d.EvaluatePolicy(context, Biometrics, reason);
      d.Complete(AuthenticatorCompleted(reply.success, reply.error));
    }
  }
}
