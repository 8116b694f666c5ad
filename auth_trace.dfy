/** Properties of the authentication gate over any sequence of events: taps,
    capability answers and challenge answers, in any order. */
module AuthTrace {
  import opened AuthGate

  /** The session after `events` and every effect requested on the way. */
  function Run(sess: Session, events: seq<Event>): Transition
    decreases |events|
  {
    if events == [] then Transition(sess, [])
    else
      var first := Apply(sess, events[0]);
      var rest := Run(first.session, events[1..]);
      Transition(rest.session, first.effects + rest.effects)
  }

  /** How many of `events` answer a pending challenge. */
  function Answered(sess: Session, events: seq<Event>): nat
    decreases |events|
  {
    if events == [] then 0
    else
      (if events[0].Answer? && sess.pending then 1 else 0)
      + Answered(Apply(sess, events[0]).session, events[1..])
  }

  function Count(b: bool): nat {
    if b then 1 else 0
  }

  /** The invariant holds after every sequence of events: no error is shown
      during an attempt, and an answer is awaited only during one. */
  lemma {:induction false} RunKeepsInv(sess: Session, events: seq<Event>)
    requires Inv(sess)
    ensures Inv(Run(sess, events).session)
    decreases |events|
  {
    if events != [] {
      RunKeepsInv(Apply(sess, events[0]).session, events[1..]);
    }
  }

  /** Challenges and answers alternate: every challenge dispatched is answered
      before the next one, so at most one is ever in flight. */
  lemma {:induction false} ChallengesAlternate(sess: Session, events: seq<Event>)
    requires Inv(sess)
    ensures var t := Run(sess, events);
      |ChallengesIn(t.effects)| + Count(sess.pending) == Answered(sess, events) + Count(t.session.pending)
    decreases |events|
  {
    if events != [] {
      var first := Apply(sess, events[0]);
      ChallengesAlternate(first.session, events[1..]);
      ViewsDistribute(first.effects, Run(first.session, events[1..]).effects);
    }
  }

  /** From the freshly mounted screen, the challenges dispatched never exceed
      the answers received by more than one. */
  lemma AtMostOneInFlight(events: seq<Event>)
    ensures |ChallengesIn(Run(InitialSession, events).effects)| <= Answered(InitialSession, events) + 1
  {
    ChallengesAlternate(InitialSession, events);
  }

  /** Haptics are played only in answer to a challenge, and at most one per
      answer. */
  lemma {:induction false} HapticsOnlyOnAnswers(sess: Session, events: seq<Event>)
    ensures |HapticsIn(Run(sess, events).effects)| <= Answered(sess, events)
    decreases |events|
  {
    if events != [] {
      var first := Apply(sess, events[0]);
      HapticsOnlyOnAnswers(first.session, events[1..]);
      ViewsDistribute(first.effects, Run(first.session, events[1..]).effects);
    }
  }

  /** Once authenticated, nothing more happens: no challenge, no haptic, no
      navigation; the attempt flag stays set and the error unchanged. Only a
      late capability answer may still change `hasBiometrics`. */
  lemma {:induction false} SuccessIsTerminal(sess: Session, events: seq<Event>)
    requires Inv(sess) && Authenticated(sess)
    ensures var t := Run(sess, events);
      t.effects == [] && Authenticated(t.session) && t.session.screen.error == sess.screen.error
    decreases |events|
  {
    if events != [] {
      SuccessIsTerminal(Apply(sess, events[0]).session, events[1..]);
    }
  }

  /** A success answer to the pending challenge plays the success haptic, then
      navigates to `/home`, and leaves the screen authenticated. */
  lemma SuccessNavigatesHome(sess: Session)
    requires Inv(sess) && sess.pending
    ensures var t := Apply(sess, Answer(Success));
      t.effects == [Haptic(Haptics.Success), Replace(HomeRoute)] && Authenticated(t.session)
      && t.session.screen.error == None
  {
  }

  /** How each answer to the pending challenge ends the attempt. A cancel is
      silent and leaves no error; any other failure and an exception each play
      exactly one error haptic and show their own message; only success keeps
      the attempt flag set, and only success navigates. */
  lemma AnswerOutcomes(sess: Session, o: Outcome)
    requires Inv(sess) && sess.pending
    ensures var t := Apply(sess, Answer(o));
      && !t.session.pending
      && t.session.screen.hasBiometrics == sess.screen.hasBiometrics
      && (t.session.screen.isAuthenticating <==> o.Success?)
      && (RoutesIn(t.effects) != [] <==> o.Success?)
      && ChallengesIn(t.effects) == []
      && (o.Failed? && IsCancel(o.code) ==> t.effects == [] && t.session.screen.error == None)
      && (o.Failed? && !IsCancel(o.code) ==>
            t.effects == [Haptic(Haptics.Error)] && t.session.screen.error == Some(FailedMessage))
      && (o.Threw? ==> t.effects == [Haptic(Haptics.Error)] && t.session.screen.error == Some(ThrewMessage))
  {
  }

  /** Over any sequence of events the screen navigates at most once, only to
      `/home`, and only by becoming authenticated. */
  lemma {:induction false} NavigatesAtMostOnce(sess: Session, events: seq<Event>)
    requires Inv(sess) && !Authenticated(sess)
    ensures var t := Run(sess, events);
      RoutesIn(t.effects) == [] || (RoutesIn(t.effects) == [HomeRoute] && Authenticated(t.session))
    decreases |events|
  {
    if events != [] {
      var first := Apply(sess, events[0]);
      var rest := Run(first.session, events[1..]);
      ViewsDistribute(first.effects, rest.effects);
      if Authenticated(first.session) {
        SuccessIsTerminal(first.session, events[1..]);
        assert rest.effects == [];
      } else {
        NavigatesAtMostOnce(first.session, events[1..]);
      }
    }
  }

  /** The message on display, if any, is one of the two the screen sets. */
  predicate KnownError(s: Screen) {
    s.error == None || s.error == Some(FailedMessage) || s.error == Some(ThrewMessage)
  }

  lemma {:induction false} OnlyKnownErrors(sess: Session, events: seq<Event>)
    requires KnownError(sess.screen)
    ensures KnownError(Run(sess, events).session.screen)
    decreases |events|
  {
    if events != [] {
      var first := Apply(sess, events[0]);
      assert KnownError(first.session.screen);
      OnlyKnownErrors(first.session, events[1..]);
    }
  }
}
