/**
 * `AuthController`: a lazily created context (`AuthController+Getter.swift`)
 * and the probe-then-evaluate sequence behind `permitAndAuth`
 * (`AuthController+Action.swift`).
 */
module AuthControllers {
  import opened Wrappers
  import opened LAErrors
  import opened Platform

  /** The prompt text of `performEval`. */
  const Reason := "Scan your face to log in."

  /** The error `authenticate` reports when it has no context. */
  const ContextUnavailable := LAError(NSError("LAContext not available", 0))

  /**
   * The completion handlers `authenticate` is given in this code: a caller's
   * own handler, observed through its argument, or the one `permitAndAuth`
   * passes, which reports only success or failure.
   */
  datatype Handler = Report | PermitAdapter

  /** Invoking handler `h` with result `r`. */
  function Deliver(h: Handler, r: AuthenticateResult): (e: Event)
    ensures !e.IsFrameworkCall()
    ensures h.Report? ==> e == AuthenticateCompleted(r)
    ensures h.PermitAdapter? ==> e == PermitCompleted(r.Success?)
  {
    match h
    case Report => AuthenticateCompleted(r)
    case PermitAdapter => PermitCompleted(r.Success?)
  }

  /**
   * What the reply block of `performEval` hands to its handler, if
   * anything: a success, the framework's own error unchanged (every arm of
   * its switch over the code does the same), and nothing at all when the
   * evaluation failed with an error that is not an `LAError`.
   */
  function EvalResult(reply: Reply): (r: Option<AuthenticateResult>)
    ensures reply.success ==> r == Some(Success(true))
    ensures r.None? <==> !reply.success && AsLAError(reply.error).None?
    ensures !reply.success && r.Some? ==>
              r.value.Failure? && Some(r.value.error.nsError) == reply.error
  {
    if reply.success then Some(Success(true))
    else match AsLAError(reply.error)
      case Some(e) => Some(Failure(e))
      case None => None
  }

  /** The events of `performEval` on context `c`. */
  function PerformEvalEvents(a: Answers, c: Context, h: Handler): (es: seq<Event>)
    ensures |es| >= 1 && es[0] == Evaluated(c, Biometrics, Reason)
    ensures Count(es, Evaluation) == 1
    ensures Count(es, Completion) <= 1
    ensures Count(es, Completion) == 0 <==> EvalResult(a.reply).None?
    ensures CallsOn(es, c, Biometrics, Reason)
    ensures es == [Evaluated(c, Biometrics, Reason)]
                  + (if EvalResult(a.reply).Some? then [Deliver(h, EvalResult(a.reply).value)] else [])
  {
    var tail := match EvalResult(a.reply)
      case Some(r) => [Deliver(h, r)]
      case None => [];
    CountAppend([Evaluated(c, Biometrics, Reason)], tail, Evaluation);
    CountAppend([Evaluated(c, Biometrics, Reason)], tail, Completion);
    [Evaluated(c, Biometrics, Reason)] + tail
  }

  /** The events of `canEval` on context `c`: a second probe, then maybe an evaluation. */
  function CanEvalEvents(a: Answers, c: Context, h: Handler): (es: seq<Event>)
    ensures |es| >= 1 && es[0] == Probed(c, Biometrics, a.CanEvaluate(Biometrics))
    ensures !a.CanEvaluate(Biometrics) ==> es == [Probed(c, Biometrics, false)]
    ensures Count(es, Evaluation) == (if a.CanEvaluate(Biometrics) then 1 else 0)
    ensures Count(es, Completion) <= 1
    ensures Count(es, Completion) == 0 <==>
              !a.CanEvaluate(Biometrics) || EvalResult(a.reply).None?
    ensures CallsOn(es, c, Biometrics, Reason)
  {
    var probe := [Probed(c, Biometrics, a.CanEvaluate(Biometrics))];
    var tail := if a.CanEvaluate(Biometrics) then PerformEvalEvents(a, c, h) else [];
    CountAppend(probe, tail, Evaluation);
    CountAppend(probe, tail, Completion);
    probe + tail
  }

  /**
   * The events of `authenticate` when the getter yields `c`: with no
   * context, an immediate failure and no call into the framework.
   */
  function AuthenticateEvents(a: Answers, c: Context?, h: Handler): (es: seq<Event>)
    ensures c == null ==> es == [Deliver(h, Failure(ContextUnavailable))]
    ensures Count(es, Completion) <= 1
    ensures Count(es, Evaluation) == if c != null && a.CanEvaluate(Biometrics) then 1 else 0
    ensures Count(es, Completion) == 0 <==>
              c != null && (!a.CanEvaluate(Biometrics) || EvalResult(a.reply).None?)
    ensures c != null ==> CallsOn(es, c, Biometrics, Reason)
    ensures c != null && !a.CanEvaluate(Biometrics) ==> es == [Probed(c, Biometrics, false)]
    ensures c != null && a.CanEvaluate(Biometrics) ==> es == [Probed(c, Biometrics, true)] + PerformEvalEvents(a, c, h)
  {
    if c == null then [Deliver(h, Failure(ContextUnavailable))]
    else CanEvalEvents(a, c, h)
  }

  /**
   * The events of `permitAndAuth` on context `c`: its own probe, then either
   * `complete(false)` or everything `authenticate` does through the adapter.
   */
  function PermitAndAuthEvents(a: Answers, c: Context): (es: seq<Event>)
    ensures !a.CanEvaluate(Biometrics) ==> es == [Probed(c, Biometrics, false), PermitCompleted(false)]
    ensures a.CanEvaluate(Biometrics) ==>
              es == [Probed(c, Biometrics, true), Probed(c, Biometrics, true), Evaluated(c, Biometrics, Reason)]
                    + PermitOutcome(a)
  {
    var probe := [Probed(c, Biometrics, a.CanEvaluate(Biometrics))];
    if !a.CanEvaluate(Biometrics) then
      probe + [PermitCompleted(false)]
    else
      AuthenticateForPermit(a, c);
      probe + AuthenticateEvents(a, c, PermitAdapter)
  }

  /**
   * `permitAndAuth` completes at most once: `true` exactly on a passed probe
   * and a successful evaluation, `false` on a failed probe or an `LAError`,
   * and not at all when the evaluation fails with any other error.
   */
  lemma PermitAndAuthReports(a: Answers, c: Context)
    ensures var es := PermitAndAuthEvents(a, c);
            && (PermitCompleted(true) in es <==> a.CanEvaluate(Biometrics) && a.reply.success)
            && (PermitCompleted(false) in es <==>
                  !a.CanEvaluate(Biometrics) || (!a.reply.success && AsLAError(a.reply.error).Some?))
  {
    if a.CanEvaluate(Biometrics) {
      var head := [Probed(c, Biometrics, true), Probed(c, Biometrics, true), Evaluated(c, Biometrics, Reason)];
      assert PermitCompleted(true) !in head && PermitCompleted(false) !in head;
    }
  }

  /** `permitAndAuth` evaluates at most once and completes at most once; it stays silent exactly on a non-`LAError` failure. */
  lemma PermitAndAuthCounts(a: Answers, c: Context)
    ensures var es := PermitAndAuthEvents(a, c);
            && Count(es, Completion) <= 1
            && Count(es, Evaluation) <= 1
            && (Count(es, Completion) == 0 <==>
                  a.CanEvaluate(Biometrics) && !a.reply.success && AsLAError(a.reply.error).None?)
  {
    if !a.CanEvaluate(Biometrics) {
      CountAppend([Probed(c, Biometrics, false)], [PermitCompleted(false)], Evaluation);
      CountAppend([Probed(c, Biometrics, false)], [PermitCompleted(false)], Completion);
    } else {
      var head := [Probed(c, Biometrics, true), Probed(c, Biometrics, true), Evaluated(c, Biometrics, Reason)];
      CountAppend(head, PermitOutcome(a), Evaluation);
      CountAppend(head, PermitOutcome(a), Completion);
    }
  }

  /** Every framework call `permitAndAuth` makes asks about `Biometrics` on the controller's context. */
  lemma PermitAndAuthUsesBiometrics(a: Answers, c: Context)
    ensures CallsOn(PermitAndAuthEvents(a, c), c, Biometrics, Reason)
  {
    if a.CanEvaluate(Biometrics) {
      assert forall e :: e in PermitOutcome(a) ==> !e.IsFrameworkCall();
    }
  }

  /** What `permitAndAuth`'s adapter reports once the evaluation has replied. */
  function PermitOutcome(a: Answers): (done: seq<Event>)
    ensures |done| <= 1
    ensures Count(done, Completion) == |done| && Count(done, Evaluation) == 0
    ensures PermitCompleted(true) in done <==> a.reply.success
    ensures PermitCompleted(false) in done <==> !a.reply.success && AsLAError(a.reply.error).Some?
    ensures done == [] <==> EvalResult(a.reply).None?
  {
    match EvalResult(a.reply)
    case Some(r) => [PermitCompleted(r.Success?)]
    case None => []
  }

  /** With the probe passing, `authenticate` through the adapter probes, evaluates and reports. */
  lemma AuthenticateForPermit(a: Answers, c: Context)
    requires a.CanEvaluate(Biometrics)
    ensures [Probed(c, Biometrics, true)] + AuthenticateEvents(a, c, PermitAdapter) ==
            [Probed(c, Biometrics, true), Probed(c, Biometrics, true), Evaluated(c, Biometrics, Reason)]
            + PermitOutcome(a)
  {
    var eval := PerformEvalEvents(a, c, PermitAdapter);
    assert eval == [Evaluated(c, Biometrics, Reason)] + PermitOutcome(a);
    assert AuthenticateEvents(a, c, PermitAdapter) == [Probed(c, Biometrics, true)] + eval;
  }

  class AuthController {
    /** `_context`: starts with a context; `nil` after a reset. */
    var storedContext: Context?

    constructor ()
      ensures storedContext != null && fresh(storedContext)
    {
      storedContext := new Context();
    }

    /** The `context` getter: the stored context, created and stored on first use. */
    method GetContext() returns (c: Context)
      modifies this`storedContext
      ensures old(storedContext) != null ==> c == old(storedContext)
      ensures old(storedContext) == null ==> fresh(c)
      ensures storedContext == c
    {
      if storedContext != null {
        c := storedContext;
      } else {
        c := new Context();
        storedContext := c;
      }
    }

    /** The `context` setter: stores `v` as it is, `null` included. */
    method SetContext(v: Context?)
      modifies this`storedContext
      ensures storedContext == v
    {
      storedContext := v;
    }

    /** `askBiometricAvailability`: the framework's answer for `Biometrics`. */
    method AskBiometricAvailability(d: Device) returns (available: bool)
      modifies this`storedContext, d`log
      ensures storedContext != null
      ensures old(storedContext) != null ==> storedContext == old(storedContext)
      ensures old(storedContext) == null ==> fresh(storedContext)
      ensures available == d.answers.CanEvaluate(Biometrics)
      ensures d.log == old(d.log) + [Probed(storedContext, Biometrics, available)]
    {
      var c := GetContext();
      var error;
      available, error := d.CanEvaluatePolicy(c, Biometrics);
    }

    /** `authenticate(completion:)`. */
    method Authenticate(d: Device, h: Handler)
      modifies this`storedContext, d`log
      ensures storedContext != null
      ensures old(storedContext) != null ==> storedContext == old(storedContext)
      ensures old(storedContext) == null ==> fresh(storedContext)
      ensures d.log == old(d.log) + AuthenticateEvents(d.answers, storedContext, h)
    {
      var c := GetContext();
      CanEval(c, d, h);
    }

    /** `canEval(context:completion:)`: probe again; evaluate only if it passes. */
    method CanEval(c: Context, d: Device, h: Handler)
      modifies d`log
      ensures d.log == old(d.log) + CanEvalEvents(d.answers, c, h)
    {
      var ok, error := d.CanEvaluatePolicy(c, Biometrics);
      if ok {
        PerformEval(c, d, h);
      }
    }

    /** `performEval(context:completion:)`. */
    method PerformEval(c: Context, d: Device, h: Handler)
      modifies d`log
      ensures d.log == old(d.log) + PerformEvalEvents(d.answers, c, h)
    {
      var reply := d.EvaluatePolicy(c, Biometrics, Reason);
      if reply.success {
        d.Complete(Deliver(h, Success(true)));
      } else {
        var err := AsLAError(reply.error);
        if err.Some? {
          d.Complete(Deliver(h, Failure(err.value)));
        }
      }
    }

    /** `permitAndAuth(complete:)`. */
    method PermitAndAuth(d: Device)
      modifies this`storedContext, d`log
      ensures storedContext != null
      ensures old(storedContext) != null ==> storedContext == old(storedContext)
      ensures old(storedContext) == null ==> fresh(storedContext)
      ensures d.log == old(d.log) + PermitAndAuthEvents(d.answers, storedContext)
    {
      ghost var log0 := d.log;
      var available := AskBiometricAvailability(d);
      ghost var probe := [Probed(storedContext, Biometrics, available)];
      if !available {
        d.Complete(PermitCompleted(false));
        assert d.log == log0 + [Probed(storedContext, Biometrics, false), PermitCompleted(false)];
        return;
      }
      Authenticate(d, PermitAdapter);
      AuthenticateForPermit(d.answers, storedContext);
      assert d.log == log0 + (probe + AuthenticateEvents(d.answers, storedContext, PermitAdapter));
    }
  }

  /** Two reads of the getter with no write between them give the same context. */
  method GetTwice(ac: AuthController) returns (first: Context, second: Context)
    modifies ac
    ensures first == second == ac.storedContext
    ensures old(ac.storedContext) != null ==> first == old(ac.storedContext)
  {
    first := ac.GetContext();
    second := ac.GetContext();
  }

  /** After the context is reset to `nil`, the getter yields a new one. */
  method ResetThenGet(ac: AuthController) returns (discarded: Context?, renewed: Context)
    modifies ac
    ensures discarded == old(ac.storedContext)
    ensures fresh(renewed) && renewed != discarded && ac.storedContext == renewed
  {
    discarded := ac.storedContext;
    ac.SetContext(null);
    renewed := ac.GetContext();
  }
}
