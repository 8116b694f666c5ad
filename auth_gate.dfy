/** The authentication gate of the Medcare app: the screen's three state flags,
    the capability check run on mount, and the two halves of `authenticate`,
    split at the point where it waits for the operating system's challenge.

    Calls to the outside world (the biometric service, the haptic engine, the
    router) are not executed: their answers are parameters and their requests
    are recorded, in order, as `Effect`s. */
module AuthGate {
  import Haptics
  import AuthView

  datatype Option<T> = None | Some(value: T)

  /** What the operating system's challenge reports back: success, a failure
      with its error code, or an exception instead of a result. */
  datatype Outcome = Success | Failed(code: string) | Threw

  /** The options passed to the challenge. */
  datatype ChallengeOptions = ChallengeOptions(
    promptMessage: string,
    fallbackLabel: string,
    cancelLabel: string,
    disableDeviceFallback: bool)

  /** A request to the outside world, in the order the screen makes it. */
  datatype Effect =
    | Haptic(kind: Haptics.NotificationType)
    | Replace(path: string)
    | Dispatch(options: ChallengeOptions)

  /** The screen's React state. `error` is null or the message on display. */
  datatype Screen = Screen(hasBiometrics: bool, isAuthenticating: bool, error: Option<string>)

  /** A new screen state and the effects requested on the way to it. */
  datatype Step = Step(screen: Screen, effects: seq<Effect>)

  const HomeRoute := "/home"
  const FallbackLabel := "Use Pin"
  const CancelLabel := "Cancel"
  const UserCancel := "user_cancel"
  const SystemCancel := "system_cancel"
  const FailedMessage := "Authentication failed. Please try again."
  const ThrewMessage := "Something went wrong. Please try again."

  /** The state every mount starts from. */
  const InitialScreen := Screen(false, false, None)

  // ---------------------------------------------------------------------------
  // Views of an effect log

  function ChallengesIn(effects: seq<Effect>): (r: seq<ChallengeOptions>)
    ensures |r| <= |effects|
    ensures forall c :: c in r <==> Dispatch(c) in effects
  {
    if effects == [] then []
    else (if effects[0].Dispatch? then [effects[0].options] else []) + ChallengesIn(effects[1..])
  }

  function HapticsIn(effects: seq<Effect>): (r: seq<Haptics.NotificationType>)
    ensures |r| <= |effects|
    ensures forall k :: k in r <==> Haptic(k) in effects
  {
    if effects == [] then []
    else (if effects[0].Haptic? then [effects[0].kind] else []) + HapticsIn(effects[1..])
  }

  function RoutesIn(effects: seq<Effect>): (r: seq<string>)
    ensures |r| <= |effects|
    ensures forall p :: p in r <==> Replace(p) in effects
  {
    if effects == [] then []
    else (if effects[0].Replace? then [effects[0].path] else []) + RoutesIn(effects[1..])
  }

  lemma {:induction false} ChallengesDistribute(a: seq<Effect>, b: seq<Effect>)
    ensures ChallengesIn(a + b) == ChallengesIn(a) + ChallengesIn(b)
  {
    if a == [] {
      assert a + b == b;
    } else {
      assert (a + b)[0] == a[0] && (a + b)[1..] == a[1..] + b;
      ChallengesDistribute(a[1..], b);
    }
  }

  lemma {:induction false} HapticsDistribute(a: seq<Effect>, b: seq<Effect>)
    ensures HapticsIn(a + b) == HapticsIn(a) + HapticsIn(b)
  {
    if a == [] {
      assert a + b == b;
    } else {
      assert (a + b)[0] == a[0] && (a + b)[1..] == a[1..] + b;
      HapticsDistribute(a[1..], b);
    }
  }

  lemma {:induction false} RoutesDistribute(a: seq<Effect>, b: seq<Effect>)
    ensures RoutesIn(a + b) == RoutesIn(a) + RoutesIn(b)
  {
    if a == [] {
      assert a + b == b;
    } else {
      assert (a + b)[0] == a[0] && (a + b)[1..] == a[1..] + b;
      RoutesDistribute(a[1..], b);
    }
  }

  /** Each view of a log made of two parts is the view of the first part
      followed by the view of the second. */
  lemma ViewsDistribute(a: seq<Effect>, b: seq<Effect>)
    ensures ChallengesIn(a + b) == ChallengesIn(a) + ChallengesIn(b)
    ensures HapticsIn(a + b) == HapticsIn(a) + HapticsIn(b)
    ensures RoutesIn(a + b) == RoutesIn(a) + RoutesIn(b)
  {
    ChallengesDistribute(a, b);
    HapticsDistribute(a, b);
    RoutesDistribute(a, b);
  }

  // ---------------------------------------------------------------------------
  // Pure steps

  /** The options of every challenge: the device PIN fallback is always on and
      the two labels are fixed; only the prompt follows `hasBiometrics`. */
  function ChallengeFor(hasBiometrics: bool): (r: ChallengeOptions)
    ensures !r.disableDeviceFallback
    ensures r.fallbackLabel == FallbackLabel && r.cancelLabel == CancelLabel
    ensures r.promptMessage == AuthView.PromptMessage(hasBiometrics)
  {
    ChallengeOptions(
      promptMessage := AuthView.PromptMessage(hasBiometrics),
      fallbackLabel := FallbackLabel,
      cancelLabel := CancelLabel,
      disableDeviceFallback := false)
  }

  /** The two error codes that end an attempt silently. */
  predicate IsCancel(code: string) {
    code == UserCancel || code == SystemCancel
  }

  /** The capability check: biometrics are offered only when the device has the
      hardware AND a biometric is enrolled. */
  function CapabilityStep(s: Screen, hasHardware: bool, isEnrolled: bool): (r: Screen)
    ensures r.hasBiometrics <==> hasHardware && isEnrolled
    ensures r.isAuthenticating == s.isAuthenticating && r.error == s.error
  {
    s.(hasBiometrics := hasHardware && isEnrolled)
  }

  /** `authenticate` up to the challenge: a call while an attempt is in flight
      does nothing; otherwise the attempt starts with the error cleared and
      exactly one challenge is requested. */
  function BeginStep(s: Screen): (r: Step)
    ensures r.screen.isAuthenticating && r.screen.hasBiometrics == s.hasBiometrics
    ensures s.isAuthenticating ==> r.screen == s && r.effects == []
    ensures !s.isAuthenticating ==> r.screen.error == None
    ensures ChallengesIn(r.effects) == if s.isAuthenticating then [] else [ChallengeFor(s.hasBiometrics)]
    ensures HapticsIn(r.effects) == [] && RoutesIn(r.effects) == []
  {
    if s.isAuthenticating then Step(s, [])
    else
      var started := s.(isAuthenticating := true);
      var cleared := started.(error := None);
      Step(cleared, [Dispatch(ChallengeFor(s.hasBiometrics))])
  }

  /** `authenticate` after the challenge answers. Success plays the success
      haptic, then replaces the route with `/home`, and leaves the in-flight
      flag set. A cancel ends the attempt silently. Any other failure, and an
      exception, play the error haptic and show their own message. */
  function ResolveStep(s: Screen, o: Outcome): (r: Step)
    ensures r.screen.hasBiometrics == s.hasBiometrics
    ensures r.screen.isAuthenticating <==> o.Success? && s.isAuthenticating
    ensures ChallengesIn(r.effects) == []
    ensures RoutesIn(r.effects) == if o.Success? then [HomeRoute] else []
    ensures o.Success? ==> r.effects == [Haptic(Haptics.Success), Replace(HomeRoute)]
    ensures o.Success? ==> r.screen.error == s.error
    ensures o.Failed? && IsCancel(o.code) ==> r.effects == [] && r.screen.error == s.error
    ensures o.Failed? && !IsCancel(o.code) ==>
              HapticsIn(r.effects) == [Haptics.Error] && r.screen.error == Some(FailedMessage)
    ensures o.Threw? ==> HapticsIn(r.effects) == [Haptics.Error] && r.screen.error == Some(ThrewMessage)
  {
    match o
    case Success =>
      Step(s, [Haptic(Haptics.Success), Replace(HomeRoute)])
    case Failed(code) =>
      if IsCancel(code) then Step(s.(isAuthenticating := false), [])
      else Step(s.(error := Some(FailedMessage)).(isAuthenticating := false), [Haptic(Haptics.Error)])
    case Threw =>
      Step(s.(error := Some(ThrewMessage)).(isAuthenticating := false), [Haptic(Haptics.Error)])
  }

  // ---------------------------------------------------------------------------
  // Sessions: the screen plus whether a challenge awaits its answer

  /** `pending` holds while a dispatched challenge has not answered yet. */
  datatype Session = Session(screen: Screen, pending: bool)

  /** What can happen to a mounted screen: the capability answers arrive, the
      user taps the button, or the pending challenge answers. */
  datatype Event =
    | CapabilityAnswered(hasHardware: bool, isEnrolled: bool)
    | Tap
    | Answer(outcome: Outcome)

  datatype Transition = Transition(session: Session, effects: seq<Effect>)

  /** The screen's invariant: an answer is awaited only during an attempt, and
      no error is on display during an attempt. */
  predicate Inv(sess: Session) {
    && (sess.pending ==> sess.screen.isAuthenticating)
    && (sess.screen.isAuthenticating ==> sess.screen.error == None)
  }

  /** An attempt succeeded: the flag is left set and nothing is pending, so
      the button stays disabled and every later tap is ignored. */
  predicate Authenticated(sess: Session) {
    sess.screen.isAuthenticating && !sess.pending
  }

  const InitialSession := Session(InitialScreen, false)

  /** One event. An answer arrives only for a pending challenge; one that
      arrives with nothing pending has nobody awaiting it and changes nothing. */
  function Apply(sess: Session, ev: Event): (t: Transition)
    ensures Inv(sess) ==> Inv(t.session)
    ensures |ChallengesIn(t.effects)| <= 1
    ensures Inv(sess) && ChallengesIn(t.effects) != [] ==> !sess.pending && t.session.pending
    ensures Inv(sess) && sess.pending && ev.Tap? ==> t == Transition(sess, [])
    ensures !ev.Answer? ==> HapticsIn(t.effects) == [] && RoutesIn(t.effects) == []
    ensures |HapticsIn(t.effects)| <= if ev.Answer? && sess.pending then 1 else 0
    ensures Inv(sess) && RoutesIn(t.effects) != [] ==> RoutesIn(t.effects) == [HomeRoute] && Authenticated(t.session)
  {
    match ev
    case CapabilityAnswered(hasHardware, isEnrolled) =>
      Transition(sess.(screen := CapabilityStep(sess.screen, hasHardware, isEnrolled)), [])
    case Tap =>
      var r := BeginStep(sess.screen);
      Transition(Session(r.screen, sess.pending || !sess.screen.isAuthenticating), r.effects)
    case Answer(o) =>
      if !sess.pending then Transition(sess, [])
      else
        var r := ResolveStep(sess.screen, o);
        Transition(Session(r.screen, false), r.effects)
  }

  /** The disabled button backs the re-entry guard: a tap on it changes
      nothing and requests nothing. */
  lemma DisabledTapIsNoOp(sess: Session)
    requires Inv(sess) && !AuthView.ButtonEnabled(sess.screen.isAuthenticating)
    ensures Apply(sess, Tap) == Transition(sess, [])
  {
  }

  /** A tap on the enabled button dispatches exactly one challenge, with the
      options for the current method, and leaves it pending. */
  lemma EnabledTapDispatches(sess: Session)
    requires Inv(sess) && AuthView.ButtonEnabled(sess.screen.isAuthenticating)
    ensures Apply(sess, Tap).effects == [Dispatch(ChallengeFor(sess.screen.hasBiometrics))]
    ensures Apply(sess, Tap).session.pending
  {
  }

  // ---------------------------------------------------------------------------
  // The screen as an object with mutable state

  class AuthScreen {
    var hasBiometrics: bool
    var isAuthenticating: bool
    var error: Option<string>

    /** A dispatched challenge awaits its answer. */
    ghost var pending: bool
    /** Every request made to the outside world, oldest first. */
    ghost var effects: seq<Effect>

    function View(): Screen
      reads this
    {
      Screen(hasBiometrics, isAuthenticating, error)
    }

    ghost function Current(): Session
      reads this
    {
      Session(View(), pending)
    }

    ghost predicate Valid()
      reads this
    {
      Inv(Current())
    }

    /** Mounting the screen: the three `useState` initial values. */
    constructor ()
      ensures Valid() && View() == InitialScreen && !pending && effects == []
    {
      hasBiometrics := false;
      isAuthenticating := false;
      error := None;
      pending := false;
      effects := [];
    }

    /** `checkBiometrics`, given the answers of the two capability queries. */
    method CheckBiometrics(hasHardware: bool, isEnrolled: bool)
      requires Valid()
      modifies this
      ensures Valid()
      ensures hasBiometrics <==> hasHardware && isEnrolled
      ensures Current() == Apply(old(Current()), CapabilityAnswered(hasHardware, isEnrolled)).session
      ensures effects == old(effects)
    {
      hasBiometrics := hasHardware && isEnrolled;
    }

    /** `authenticate` up to the challenge. Returns the challenge's options when
        one was dispatched, and nothing when an attempt was already in flight. */
    method Begin() returns (request: Option<ChallengeOptions>)
      requires Valid()
      modifies this
      ensures Valid()
      ensures request.Some? <==> !old(isAuthenticating)
      ensures request.Some? ==> request.value == ChallengeFor(hasBiometrics)
      ensures request.None? ==> Current() == old(Current()) && effects == old(effects)
      ensures Current() == Apply(old(Current()), Tap).session
      ensures effects == old(effects) + Apply(old(Current()), Tap).effects
    {
      if isAuthenticating {
        return None;
      }
      isAuthenticating := true;
      error := None;
      var options := ChallengeFor(hasBiometrics);
      effects := effects + [Dispatch(options)];
      pending := true;
      request := Some(options);
    }

    /** `authenticate` once the pending challenge answers with `outcome`. */
    method Resolve(outcome: Outcome)
      requires Valid() && pending
      modifies this
      ensures Valid() && !pending
      ensures Current() == Apply(old(Current()), Answer(outcome)).session
      ensures effects == old(effects) + Apply(old(Current()), Answer(outcome)).effects
    {
      pending := false;
      match outcome
      case Success =>
        effects := effects + [Haptic(Haptics.Success)];
        effects := effects + [Replace(HomeRoute)];
      case Failed(code) =>
        if IsCancel(code) {
          isAuthenticating := false;
        } else {
          effects := effects + [Haptic(Haptics.Error)];
          error := Some(FailedMessage);
          isAuthenticating := false;
        }
      case Threw =>
        effects := effects + [Haptic(Haptics.Error)];
        error := Some(ThrewMessage);
        isAuthenticating := false;
    }
  }
}
