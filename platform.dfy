/**
 * The LocalAuthentication framework as this package sees it: an oracle that
 * answers capability probes and policy evaluations, and a log that records
 * every call made to it and every completion handler the package invokes.
 *
 * Nothing is claimed about sensors, enrolment or lockout: a `Device`'s
 * `answers` are arbitrary, and every contract holds whatever they are.
 */
module Platform {
  import opened Wrappers
  import opened LAErrors
  import opened BioAuthErrors

  /** `LAPolicy`: the two policies the package asks about. */
  datatype Policy =
    | DeviceOwnerAuthenticationWithBiometrics
    | DeviceOwnerAuthentication

  /** The policy behind every probe and evaluation except `isAuthAvailable`'s. */
  const Biometrics := DeviceOwnerAuthenticationWithBiometrics

  /** `LABiometryType`. */
  datatype BiometryType = NoBiometry | TouchID | FaceID | OpticID

  /** `LAContext`: an opaque handle, known only by its identity. */
  class Context {
    constructor ()
    {
    }
  }

  /** The `(success, error)` pair an evaluation hands to its reply block. */
  datatype Reply = Reply(success: bool, error: Option<NSError>)

  /**
   * What the framework answers while one call of the package runs: whether
   * each policy can be evaluated, the error a failed probe reports, the
   * device's biometry, and the reply an evaluation gets (the user's action).
   */
  datatype Answers = Answers(
    biometricsEvaluable: bool,
    ownerEvaluable: bool,
    probeError: Option<NSError>,
    biometry: BiometryType,
    reply: Reply)
  {
    /** `canEvaluatePolicy(_:error:)`. */
    function CanEvaluate(p: Policy): bool {
      match p
      case DeviceOwnerAuthenticationWithBiometrics => biometricsEvaluable
      case DeviceOwnerAuthentication => ownerEvaluable
    }
  }

  /** `AuthController.AuthenticateResult`. */
  type AuthenticateResult = Result<bool, LAError>

  /** `BioAuth.BAPayload`: the success message and the context that was used. */
  datatype Payload = Payload(msg: string, context: Context)

  /**
   * One observable step: a call into the framework, or the invocation of a
   * completion handler with its arguments.
   */
  datatype Event =
    | Probed(context: Context, policy: Policy, evaluable: bool)
    | Evaluated(context: Context, policy: Policy, reason: string)
    | AuthenticateCompleted(result: AuthenticateResult)
    | PermitCompleted(success: bool)
    | BioAuthCompleted(outcome: Result<Payload, BioAuthError>)
    | AuthenticatorCompleted(success: bool, error: Option<NSError>)
  {
    predicate IsFrameworkCall() {
      Probed? || Evaluated?
    }
  }

  /** Every framework call in `es` asks about `p` on `c`, and every prompt is `reason`. */
  predicate CallsOn(es: seq<Event>, c: Context, p: Policy, reason: string) {
    forall e :: e in es && e.IsFrameworkCall() ==>
      e.context == c && e.policy == p && (e.Evaluated? ==> e.reason == reason)
  }

  /** The kinds of events the model counts. */
  datatype Kind = Completion | Evaluation

  predicate IsKind(e: Event, k: Kind) {
    match k
    case Completion => !e.IsFrameworkCall()
    case Evaluation => e.Evaluated?
  }

  /** How many events of `es` are of kind `k`. */
  function Count(es: seq<Event>, k: Kind): (n: nat)
    ensures n <= |es|
    ensures n == 0 <==> forall e :: e in es ==> !IsKind(e, k)
  {
    if es == [] then 0
    else (if IsKind(es[0], k) then 1 else 0) + Count(es[1..], k)
  }

  lemma {:induction false} CountAppend(a: seq<Event>, b: seq<Event>, k: Kind)
    ensures Count(a + b, k) == Count(a, k) + Count(b, k)
  {
    if a == [] {
      assert a + b == b;
    } else {
      assert (a + b)[1..] == a[1..] + b;
      CountAppend(a[1..], b, k);
    }
  }

  /**
   * The framework and the observer of the package's completion handlers.
   * `encoding` is the framework's raw value of each `LAError.Code`.
   */
  class Device {
    const encoding: Code -> int
    var answers: Answers
    var log: seq<Event>

    constructor (encoding: Code -> int, answers: Answers)
      ensures this.encoding == encoding && this.answers == answers && log == []
    {
      this.encoding := encoding;
      this.answers := answers;
      log := [];
    }

    /**
     * `context.canEvaluatePolicy(p, error: &error)`: the answer, and the
     * error the framework fills in when the answer is no.
     */
    method CanEvaluatePolicy(c: Context, p: Policy) returns (ok: bool, error: Option<NSError>)
      modifies this`log
      ensures ok == answers.CanEvaluate(p)
      ensures error == if ok then None else answers.probeError
      ensures log == old(log) + [Probed(c, p, ok)]
    {
      ok := answers.CanEvaluate(p);
      error := if ok then None else answers.probeError;
      log := log + [Probed(c, p, ok)];
    }

    /** `context.evaluatePolicy(p, localizedReason: reason)`: the reply it gets. */
    method EvaluatePolicy(c: Context, p: Policy, reason: string) returns (reply: Reply)
      modifies this`log
      ensures reply == answers.reply
      ensures log == old(log) + [Evaluated(c, p, reason)]
    {
      reply := answers.reply;
      log := log + [Evaluated(c, p, reason)];
    }

    /** A completion handler is invoked. */
    method Complete(e: Event)
      requires !e.IsFrameworkCall()
      modifies this`log
      ensures log == old(log) + [e]
    {
      log := log + [e];
    }
  }
}
