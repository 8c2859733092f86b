# BioAuth, modelled in Dafny

BioAuth is a Swift package that puts an action behind Face ID / Touch ID
through Apple's LocalAuthentication framework. Its logic is a small amount of
decision-making around the framework:

- a controller (`AuthController`) that keeps a lazily created `LAContext`,
  probes whether the biometrics policy can be evaluated, probes again and
  evaluates it, and turns the reply into `Result<Bool, LAError>`
  (`permitAndAuth` reduces that to a `Bool`);
- a minimal `BiometricAuthenticator` with one fixed context, which forwards
  the framework's `(success, error)` pair;
- the legacy `BioAuth` facade: `initBioAuth`, which runs on a context of its
  own and reports a `BioAuthError`, and the availability checks
  `isAccessible` / `isAuthAvailable` over a shared static context;
- the pure mappings: `LAError` codes to messages, `BioAuthError` to its
  description, the `errorMsg` formatter, and `BioAuthType` with its raw
  values and titles.

The framework is replaced by an oracle, `Platform.Device`. Its `answers`
say whether each policy can be evaluated, which error a failed probe
reports, which biometry the device has, and which `(success, error)` reply
an evaluation receives. The answers are arbitrary, and every contract holds
whatever they are. The device's `log` records each probe (`Probed`), each
evaluation (`Evaluated`) and each call of a completion handler, with its
arguments. "Completes exactly once", "never evaluates" and "completes with
X" are therefore statements about the events a call appends. The
read-only queries `isAccessible`, `isAuthAvailable` and `type` also call
`canEvaluatePolicy` in Swift. In the model they are functions that read the
answers, and they log nothing. Each flow is a
method whose postcondition equates what it appends to the log with a pure
function (`PermitAndAuthEvents`, `AuthenticatorEvents`,
`InitBioAuthEvents`, ...). The properties of the flow are proved as
postconditions of those functions.

The integer raw values of `LAError.Code` belong to the framework and are
not fixed here. Operations that need them take the framework's encoding
`enc: Code -> int`. `FromRaw` (Swift's `LAError.Code(rawValue:)`) is a
search over all codes, and its round trip holds whenever `enc` is
injective.

An error of the framework's domain may carry a raw code that names none of
the cases. `LAError.readableErrorMessage` switches on `self.code`, and in
the model such a code reaches the switch's `default` arm: "Could not
evaluate policy". `performEval` likewise passes the error on through its
own `default` arm. Swift obtains `self.code` with the same conversion,
`LAError.Code(rawValue:)`, that `getErrorMessage(errorCode:)` guards on.
For `getErrorMessage` the model deliberately keeps the failing conversion
that its guard and doc comment (`LAError+Extension.swift:10-11, 17-21`)
describe, so there an unrecognised code gives "Unknown error". The two
readings cannot both hold in Swift; see the `LAErrors.GetErrorMessage`
line under "Left out".

The code has no single-flight rejection of a second evaluation, no
discarding of stale callbacks, no policy parameter and no "Unknown" error
variant: unrecognised codes only get a message. The doc
comments of `BioAuthType` at `BioAuthType.swift:11-21` describe the wrong
cases, for example `face` as "no biometric support". The model follows the
raw values.

Files: `wrappers.dfy` (Option, Result), `la_error.dfy`, `bio_auth_error.dfy`,
`constants.dfy`, `platform.dfy` (the oracle and the event log),
`auth_controller.dfy`, `biometric_authenticator.dfy`, `bio_auth.dfy`,
`bio_auth_type.dfy`, `flows.dfy`.

## Model

| member | source | states |
|---|---|---|
| `LAErrors.FromRaw` | Sources/BioAuth/util/LAError+Extension.swift:17-18 | The conversion gives a code whose raw value is the input. It gives none exactly when no code has that raw value. |
| `LAErrors.Find` | Sources/BioAuth/util/LAError+Extension.swift:18 | The search returns the first code of the list with the given raw value, or shows that no code in the list has it. |
| `LAErrors.FromRawRoundTrip` | Sources/BioAuth/util/LAError+Extension.swift:17-18 | With distinct raw values, converting a code's raw value gives back that code. |
| `LAErrors.Message` | Sources/BioAuth/util/LAError+Extension.swift:52-91 | `readableErrorMessage` is total and never empty. It never says "Unknown error". It says "Could not evaluate policy" exactly for the codes outside the eleven named ones. |
| `LAErrors.NamedMessagesDistinct` | Sources/BioAuth/util/LAError+Extension.swift:53-86 | The eleven named codes have pairwise distinct messages. |
| `LAErrors.GetErrorMessage` | Sources/BioAuth/util/LAError+Extension.swift:16-24 | The result is "Unknown error" exactly when the code is absent or is no code's raw value. Otherwise it is the message of a code with that raw value. It is never empty. |
| `LAErrors.GetErrorMessageOfCode` | Sources/BioAuth/util/LAError+Extension.swift:17-23 | A recognised raw code gets exactly its code's `readableErrorMessage`. |
| `LAErrors.AsLAError` | Sources/BioAuth/BioAuth.swift:65 | `as? LAError` succeeds exactly for an error of the framework's domain, and keeps the error unchanged. |
| `LAErrors.LAErrorMessage` | Sources/BioAuth/util/LAError+Extension.swift:34-37 | For a recognised code, an `LAError`'s readable message equals `getErrorMessage` of its code. For an unrecognised code it is the `default` arm's "Could not evaluate policy". It is never empty and never "Unknown error". |
| `BioAuthErrors.BioAuthError.LocalizedDescription` | Sources/BioAuth/util/BioAuthError.swift:26-31 | The description is the reason carried by either case. |
| `BioAuthErrors.DescriptionIgnoresCase` | Sources/BioAuth/util/BioAuthError.swift:27-30 | The same reason under either case gives the same description. |
| `BioAuthConstants.ErrorMsg` | Sources/BioAuth/BioAuth+Const.swift:44-48 | The message starts with the fixed line "User did not authenticate successfully\n". The rest of the message is exactly the error text. |
| `BioAuthConstants.ErrorMsgInjective` | Sources/BioAuth/BioAuth+Const.swift:46 | Different error texts give different messages. |
| `AuthControllers.Deliver` | Sources/BioAuth/AuthController/AuthController+Action.swift:33-46 | Calling a handler is one completion event. A caller's own handler receives the result itself. `permitAndAuth`'s handler reports `true` exactly for a success. |
| `AuthControllers.EvalResult` | Sources/BioAuth/AuthController/AuthController+Action.swift:169-221 | A successful evaluation gives `.success(true)`. A framework error gives `.failure` carrying that same error, whatever its code. Any other failure gives nothing. |
| `AuthControllers.PerformEvalEvents` | Sources/BioAuth/AuthController/AuthController+Action.swift:160-226 | `performEval` evaluates once, with the biometrics policy and "Scan your face to log in.". That evaluation is its only framework call. It then hands the handler the reply's result (`.success(true)` or `.failure(err)`), or nothing when the reply gives none. |
| `AuthControllers.CanEvalEvents` | Sources/BioAuth/AuthController/AuthController+Action.swift:121-129 | `canEval` probes first and evaluates only when the probe passes. A failed probe is its only event, so there is no completion at all. All of its framework calls use the biometrics policy on the given context. |
| `AuthControllers.AuthenticateEvents` | Sources/BioAuth/AuthController/AuthController+Action.swift:102-111 | Without a context, `authenticate` fails at once and never calls the framework. With a context, it probes. After a failed probe it does nothing more. Otherwise it continues exactly as `performEval`. It completes at most once. It evaluates once when it has a context and the probe passes, and never otherwise. It gives no completion exactly on a failed probe or a failure that is not an `LAError`. |
| `AuthControllers.PermitAndAuthEvents` | Sources/BioAuth/AuthController/AuthController+Action.swift:27-47 | After a failed probe, the only events are that probe and `complete(false)`. Otherwise the events are the probe, `canEval`'s second probe, one evaluation and at most one report from the adapter. |
| `AuthControllers.PermitOutcome` | Sources/BioAuth/AuthController/AuthController+Action.swift:33-46 | The adapter reports at most once. It reports `true` exactly on a successful evaluation. It reports `false` exactly on an `LAError` failure. It reports nothing exactly when the evaluation result is dropped. |
| `AuthControllers.AuthenticateForPermit` | Sources/BioAuth/AuthController/AuthController+Action.swift:27-47 | Once the first probe passes, `authenticate` through the adapter probes again, evaluates once and then reports the adapter's outcome. |
| `AuthControllers.PermitAndAuthReports` | Sources/BioAuth/AuthController/AuthController+Action.swift:27-47 | `permitAndAuth` completes `true` exactly when the probe passes and the evaluation succeeds. It completes `false` exactly on a failed probe or an `LAError` failure. |
| `AuthControllers.PermitAndAuthCounts` | Sources/BioAuth/AuthController/AuthController+Action.swift:27-47 | `permitAndAuth` evaluates at most once and completes at most once. It completes not at all exactly when the evaluation fails with an error that is not an `LAError`. |
| `AuthControllers.PermitAndAuthUsesBiometrics` | Sources/BioAuth/AuthController/AuthController+Action.swift:27-47 | Every probe and evaluation of `permitAndAuth` uses the biometrics policy on the controller's context. Every prompt is "Scan your face to log in.". |
| `AuthControllers.AuthController.constructor` | Sources/BioAuth/AuthController/AuthController.swift:36 | A new controller starts with a fresh, non-nil context. |
| `AuthControllers.AuthController.GetContext` | Sources/BioAuth/AuthController/AuthController+Getter.swift:21-28 | The getter never yields nil. It returns the stored context and leaves it unchanged. With none stored, it creates one fresh context, stores it and returns it. |
| `AuthControllers.AuthController.SetContext` | Sources/BioAuth/AuthController/AuthController+Getter.swift:29-31 | The setter stores exactly the new value, nil included, and changes nothing else. |
| `AuthControllers.GetTwice` | Sources/BioAuth/AuthController/AuthController+Getter.swift:22-27 | Two reads with no write between them give the same context. |
| `AuthControllers.ResetThenGet` | Sources/BioAuth/AuthController/AuthController+Getter.swift:24-31 | After the context is set to nil, the next read gives a fresh context. It differs from the discarded one. |
| `AuthControllers.AuthController.AskBiometricAvailability` | Sources/BioAuth/AuthController/AuthController+Action.swift:66-86 | The result is the framework's answer for the biometrics policy on the controller's context. That context is the stored one, or a fresh one when none was stored. The method makes one probe. |
| `AuthControllers.AuthController.Authenticate` | Sources/BioAuth/AuthController/AuthController+Action.swift:102-111 | The events appended are `AuthenticateEvents` on the controller's (never nil) context. |
| `AuthControllers.AuthController.CanEval` | Sources/BioAuth/AuthController/AuthController+Action.swift:121-129 | The events appended are `CanEvalEvents`. |
| `AuthControllers.AuthController.PerformEval` | Sources/BioAuth/AuthController/AuthController+Action.swift:160-226 | The events appended are `PerformEvalEvents`. |
| `AuthControllers.AuthController.PermitAndAuth` | Sources/BioAuth/AuthController/AuthController+Action.swift:27-47 | The events appended are `PermitAndAuthEvents` on the controller's context. |
| `Authenticators.AuthenticatorEvents` | Sources/BioAuth/BiometricAuthenticator/BiometricAuthenticator.swift:9-21 | The flow probes exactly once, first. Its events are the probe, then an evaluation only when the probe passes, then the completion. The completion runs exactly once. After a failed probe it gets `(false, probe error)` and nothing is evaluated. Otherwise there is exactly one evaluation, and the completion gets its `(success, error)` unchanged. The evaluation uses the caller's reason verbatim on the authenticator's context. |
| `Authenticators.BiometricAuthenticator.constructor` | Sources/BioAuth/BiometricAuthenticator/BiometricAuthenticator.swift:4-7 | The authenticator owns one fresh context, held in a constant field that is never replaced. |
| `Authenticators.BiometricAuthenticator.Authenticate` | Sources/BioAuth/BiometricAuthenticator/BiometricAuthenticator.swift:9-21 | The events appended are `AuthenticatorEvents` on the authenticator's one context. |
| `LegacyBioAuth.InitBioAuthResult` | Sources/BioAuth/BioAuth.swift:51-69 | The result is a success exactly when the probe passes and the evaluation succeeds. A success carries `successText` and the call's own context. `.authFailed` comes exactly from a failed probe and carries `getErrorMessage` of the probe error's code. `.authAccessFailed` carries the `LAError`'s `readableErrorMessage`, or "Unknown error" exactly when the error is not an `LAError`. Every reason is non-empty. |
| `LegacyBioAuth.InitBioAuthEvents` | Sources/BioAuth/BioAuth.swift:48-70 | The flow probes exactly once, first. Its events are the probe, then an evaluation only when the probe passes, then one completion with `InitBioAuthResult`. It evaluates once when the probe passes and never otherwise, with `myLocalizedReasonString`. Every framework call is on the call's own context with the biometrics policy. |
| `LegacyBioAuth.BioAuth.constructor` | Sources/BioAuth/BioAuth.swift:30 | The shared static context starts out nil. |
| `LegacyBioAuth.BioAuth.IsAccessible` | Sources/BioAuth/BioAuth+Asserter.swift:27-41 | The result is false with no shared context. Otherwise it is the framework's answer for the biometrics policy. It is a read-only query. |
| `LegacyBioAuth.BioAuth.IsAuthAvailable` | Sources/BioAuth/BioAuth+Asserter.swift:54-64 | The result is false with no shared context. Otherwise it is the framework's answer for the device-owner policy. It is a read-only query. |
| `LegacyBioAuth.BioAuth.InitBioAuth` | Sources/BioAuth/BioAuth.swift:48-70 | The method allocates a fresh context and appends `InitBioAuthEvents` on it. It does not touch the shared context. |
| `BioAuthTypes.BioAuthType.RawValue` | Sources/BioAuth/util/BioAuthType.swift:14-22 | Converting a raw value back with `init(rawValue:)` gives the same case. |
| `BioAuthTypes.FromRawValue` | Sources/BioAuth/util/BioAuthType.swift:10-23 | Only the three raw values "Touch ID", "Face ID" and "BioAuth not supported" convert to a case. |
| `BioAuthTypes.RawValuesDistinct` | Sources/BioAuth/util/BioAuthType.swift:14-22 | The three raw values are pairwise distinct. |
| `BioAuthTypes.CurrentType` | Sources/BioAuth/util/BioAuthType.swift:45-60 | The type is `.none` whenever `isAccessible` is false. It is `.touch` exactly when accessible with Touch ID. It is `.face` exactly when accessible with Face ID. Every other biometry gives `.none`. |
| `BioAuthTypes.GetAuthTitle` | Sources/BioAuth/util/BioAuthType.swift:81-88 | The title is `normal` applied to "Touch ID" or "Face ID" when the device is accessible with that biometry. It is `normal` applied to "BioAuth not supported" when the device is not accessible or has any other biometry. |
| `BioAuthTypes.GetAttrAuthTitleAndDesc` | Sources/BioAuth/util/BioAuthType.swift:105-111 | The title and description follow the same three cases as `getAuthTitle`, applied to the attributed closure. |
| `Flows.FlowsAgreeOnSuccess` | Sources/BioAuth/BioAuth.swift:51-69 | Given the same framework answers, `permitAndAuth`, `BiometricAuthenticator` and `initBioAuth` all report success in the same cases. |

## Left out

- Thread delivery: `DispatchQueue.main.async`, `@MainActor` and
  `nonisolated(unsafe)` are about threads. Completion handlers are modelled
  as events appended in order, synchronously.
- Nil handlers: `complete?` and `completion?` accept a nil handler, which
  would simply not be called. The model always has a handler.
- The framework itself: `canEvaluatePolicy`, `evaluatePolicy` and
  `biometryType` are answers of the oracle. No claim is made about sensors,
  enrolment, lockout or context invalidation.
- The device's answers stay fixed while one call runs. Inside
  `permitAndAuth`, the re-probe in `canEval` therefore repeats the first
  probe's answer. A device that changes between the two probes is not
  modelled; calling `authenticate` directly still reaches the dropped
  completion.
- The raw integer values of `LAError.Code` are the framework's and stay
  abstract (`enc`). The cases include the framework's codes that the
  message switch does not name (`watchNotAvailable`, `biometryNotPaired`,
  `biometryDisconnected`, `invalidDimensions`, `companionNotAvailable`).
  The deprecated `touchID…` names share raw values with their `biometry…`
  successors and are not separate cases.
- `performEval`'s switch over `err.code` is not written out. All of its
  arms do the same thing, so `EvalResult` passes the error on directly.
- The nil-context branches inside the methods: `askBiometricAvailability`
  at `AuthController+Action.swift:82-85` and `authenticate` at `104-109`.
  They are unreachable because the getter's result is never nil (its type
  in the model). `AuthenticateEvents` still states the nil case.
- `performEval2` (`AuthController+Action.swift:135-148`) is never called.
- The `#available` else-branches of `BioAuthType.swift` are dead under the
  package's minimum platforms. The `old` closures (`legacy` in the model)
  are therefore never called.
- BioAuthTypes.CurrentType: reads the biometry as one device-wide answer.
  It does not model the fresh context that `type` allocates for the query
  (`BioAuthType.swift:49-52`). That context is never probed. The framework
  sets `biometryType` only once `canEvaluatePolicy` has run on a context,
  and the default is `.none`. On a real device the source's `type`
  therefore yields `.none`, and so do `getAuthTitle` and
  `getAttrAuthTitleAndDesc`. This is a probable defect in the source. The
  model's `.touch` and `.face` results describe the evident intent: the
  biometry of a probed context.
- LAErrors.GetErrorMessage: keeps the conversion `LAError.Code(rawValue:)`
  partial, as its guard and doc comment describe. Swift imports
  `LAError.Code` as a non-frozen C enum, whose conversion accepts raw values
  that name no case. In Swift the guard therefore fails only for `nil`, and
  an unrecognised non-nil code would get "Could not evaluate policy" rather
  than "Unknown error".
- Console output (`print` in `askBiometricAvailability` and `canEval`) is
  not modelled.
- `NSAttributedString` is reduced to its text.
- The singletons `AuthController.shared` and `BiometricAuthenticator.shared`
  become explicit instances. The static state of `BioAuth` becomes the
  `BioAuth` class. `isAuthAvailable`, an instance property that reads the
  static context, is a function of that class.
- The constants `notEnrolled`, `myLocalizedReasonString` and `successText`
  are plain constants in `constants.dfy`; only the latter two are used by
  the flows.
