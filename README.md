# Medcare authentication gate, modelled in Dafny

Medcare is a medication-reminder app built with Expo and React Native. Before the
dashboard opens, the app shows an authentication screen (`AuthScreen`). This
project models that screen. It covers:

- its three pieces of state: `hasBiometrics`, `isAuthenticating` and `error`;
- `checkBiometrics`, run on mount, which offers biometrics only when the device
  has the hardware and a biometric is enrolled;
- `authenticate`, which asks the operating system for a biometric or PIN
  challenge and handles its answer;
- the prompt, instruction, icon, colour and label choices driven by the two
  flags.

Files:

- `haptics.dfy` (module `Haptics`): the two kinds of haptic notification.
- `auth_view.dfy` (module `AuthView`): the text and icon choices, as pure
  functions.
- `auth_gate.dfy` (module `AuthGate`): the state and the effect log, and the
  pure steps `CapabilityStep`, `BeginStep`, `ResolveStep` and `Apply`. Class
  `AuthScreen` holds the same state in mutable fields. Its methods
  `CheckBiometrics`, `Begin` and `Resolve` update those fields step by step,
  and each method's `ensures` ties the new state and the new log to `Apply`.
- `auth_trace.dfy` (module `AuthTrace`): `Run` applies any sequence of events.
  The lemmas here hold for every such sequence.

`authenticate` is split where it awaits the challenge:

- `Begin` covers the re-entry guard, the start of the attempt and the dispatch
  of the challenge.
- `Resolve` covers how the answer is handled.

The ghost flag `pending` records that a dispatched challenge has not answered
yet. `Resolve` may only be called while it is set. The outside world does not
run. The biometric service's answers are parameters. The haptic calls, the
router's `replace` and each dispatched challenge are appended, in order, to a
ghost log of `Effect`s.

An exception from the challenge shows its own message, "Something went wrong.
Please try again." (app/auth.tsx:56). It differs from the message shown when
the challenge rejects the attempt (app/auth.tsx:51).

## Model

| member | source | states |
|---|---|---|
| AuthView.PromptMessage | app/auth.tsx:36-38 | the challenge prompt names Face ID/Touch ID when biometrics are offered, and asks for the PIN otherwise |
| AuthView.InstructionText | app/auth.tsx:79-81 | the card's instruction offers biometrics or PIN when biometrics are available, and PIN only otherwise |
| AuthView.ButtonIcon | app/auth.tsx:94-101 | the button shows the fingerprint icon for biometrics and the keypad icon for PIN |
| AuthView.ButtonColors | app/auth.tsx:88-89 | the button gradient has two colours, green for biometrics and blue for PIN |
| AuthView.ButtonEnabled | app/auth.tsx:83-86 | the button is enabled exactly when no attempt is in flight; `AuthGate.DisabledTapIsNoOp` and `AuthGate.EnabledTapDispatches` tie it to the re-entry guard |
| AuthGate.DisabledTapIsNoOp | app/auth.tsx:29-29 | a tap while the button is disabled changes no state and requests nothing, as the guard at the top of `authenticate` ensures |
| AuthGate.EnabledTapDispatches | app/auth.tsx:29-42 | a tap on the enabled button dispatches exactly one challenge, with the options for the current method, and leaves it pending |
| AuthView.ButtonLabel | app/auth.tsx:102-104 | the label is "Verifying..." exactly while authenticating; when idle it is "Authenticate" for biometrics and "Enter PIN" for PIN |
| AuthView.ChoicesAgree | app/auth.tsx:79-104 | the prompt, instruction, icon, colours and idle label each tell the two methods apart, so they always agree on the method offered |
| AuthGate.ChallengeFor | app/auth.tsx:35-42 | every challenge keeps the device PIN fallback enabled and uses the fixed labels "Use Pin" and "Cancel"; only the prompt depends on `hasBiometrics` |
| AuthGate.CapabilityStep | app/auth.tsx:21-25 | `hasBiometrics` becomes hardware-present AND enrolled; the attempt flag and the error are unchanged |
| AuthGate.BeginStep | app/auth.tsx:28-42 | a call during an attempt changes nothing and requests nothing; otherwise the attempt starts, the error is cleared, and exactly one challenge with the current options is requested; no haptic and no navigation |
| AuthGate.ResolveStep | app/auth.tsx:44-58 | success plays the success haptic, then replaces the route with `/home`, and keeps the flag and the error; a user or system cancel ends the attempt with no effect; any other failure plays one error haptic and shows the failure message; an exception plays one error haptic and shows its own message; only success navigates, and no answer dispatches a challenge |
| AuthGate.Apply | app/auth.tsx:28-59 | every event keeps the invariant (an answer is awaited only during an attempt; no error is shown during an attempt); a challenge is dispatched only when none is pending; a tap while pending changes nothing; only an answer plays haptics or navigates; a navigation goes only to `/home` and leaves the screen authenticated |
| AuthGate.AuthScreen.constructor | app/auth.tsx:14-16 | a mounted screen starts with no biometrics, no attempt, no error and an empty log, and satisfies the invariant |
| AuthGate.AuthScreen.CheckBiometrics | app/auth.tsx:21-25 | sets `hasBiometrics` to hardware-present AND enrolled, keeps the invariant, and logs nothing |
| AuthGate.AuthScreen.Begin | app/auth.tsx:28-42 | returns the challenge options exactly when no attempt was in flight; when guarded it changes no state and logs nothing; the new state and log are those of `Apply` on a tap |
| AuthGate.AuthScreen.Resolve | app/auth.tsx:44-58 | the pending challenge is answered; the new state and log are those of `Apply` on the answer; the invariant is kept |
| AuthTrace.RunKeepsInv | app/auth.tsx:29-58 | after any sequence of events, an answer is awaited only during an attempt and no error is shown during an attempt |
| AuthTrace.ChallengesAlternate | app/auth.tsx:29-42 | over any run, the challenges dispatched plus one if a challenge was pending at the start equal the answers received plus one if a challenge is pending at the end |
| AuthTrace.AtMostOneInFlight | app/auth.tsx:29 | from a fresh mount, the challenges dispatched never exceed the answers received by more than one |
| AuthTrace.HapticsOnlyOnAnswers | app/auth.tsx:44-58 | over any run, the haptics played never outnumber the answers to pending challenges: taps and capability answers play none, and each answer plays at most one |
| AuthTrace.SuccessIsTerminal | app/auth.tsx:44-46 | once authenticated, no later event dispatches a challenge, plays a haptic or navigates; the flag stays set and the error unchanged |
| AuthTrace.SuccessNavigatesHome | app/auth.tsx:44-46 | a success answer plays the success haptic and then replaces the route with `/home`; the screen is left authenticated with no error |
| AuthTrace.AnswerOutcomes | app/auth.tsx:44-58 | for each answer to the pending challenge: a cancel is silent and leaves no error; another failure plays exactly one error haptic and shows the failure message; an exception plays exactly one error haptic and shows its own message; only success keeps the flag set and navigates |
| AuthTrace.NavigatesAtMostOnce | app/auth.tsx:44-46 | over any run that starts unauthenticated, there is at most one navigation; it goes to `/home` and the screen ends authenticated |
| AuthTrace.OnlyKnownErrors | app/auth.tsx:49-58 | the message on display is always null, the failure message or the exception message |

## Left out

- React's runtime is not modelled: asynchronous and batched `setState`, closures that capture a stale `isAuthenticating`, the `useEffect` mount timing and promise scheduling. State updates are sequential assignments. `authenticate` is split into `Begin` and `Resolve` at its `await`.
- A tap while the button is disabled is modelled as a call to `authenticate`. Its own guard then makes it a no-op, which matches the disabled button.
- The capability check is one event carrying both answers (`CapabilityAnswered`). It may arrive at any point, including during an attempt. If a capability query throws, `checkBiometrics` has no handler and the state does not change. That is modelled by the event never arriving.
- An answer that arrives while no challenge is pending has nobody awaiting it. `Apply` ignores it.
- `router.replace` or a haptic call throwing inside the success branch would reach the `catch` block. The model assumes they do not throw: haptics are fire-and-forget, and the router is outside the model.
- The haptic engine, the biometric service and the router are outside the model. Their calls are recorded as `Effect`s, and their answers are parameters.
- Unmounting after navigation is not modelled. The screen stays, with its button disabled, and `AuthTrace.SuccessIsTerminal` shows that nothing further happens on it.
- app/home.tsx is not part of this model. It is presentational, with floating-point ring geometry, hard-coded inputs and unreachable list branches.
- app/medications/add.tsx is not part of this model. It is an unfinished form whose tables are only rendered.
- Styling, gradients and layout are not modelled, except the button colours chosen by `hasBiometrics`.
- The splash screen (app/(tabs)/index.tsx) is not part of this model. It waits 2000 ms and then replaces the route with `/auth`. It is a timer around a router call, outside the authentication screen.
- The root layout's app-state listener (app/(tabs)/_layout.tsx) is not part of this model. It replaces the route with `/auth` when the app returns to `active` from an `inactive` or `background` state. It lives outside the authentication screen and drives only the router.
