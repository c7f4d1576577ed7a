/**
 * Properties of the reels feed controller that relate several events:
 * at most one index change per cooldown, the swipe-versus-tap gestures, the
 * sound toggle and load sequences, the bookmark rollback and the overlay
 * paths.
 */
module FeedProperties {
  import opened Wrappers
  import opened Vlogs
  import opened Feed

  /** Running `a` then `b` is running `a + b`. */
  lemma {:induction false} RunAppend(s: FeedState, a: seq<Event>, b: seq<Event>)
    requires WellFormed(s)
    ensures Run(s, a + b) == Run(Run(s, a), b)
    decreases |a|
  {
    if a == [] {
      assert a + b == b;
    } else {
      assert (a + b)[0] == a[0];
      assert (a + b)[1..] == a[1..] + b;
      RunAppend(Step(s, a[0]), a[1..], b);
    }
  }

  /** Running one event is taking one step. */
  lemma RunSingle(s: FeedState, e: Event)
    requires WellFormed(s)
    ensures Run(s, [e]) == Step(s, e)
  {
    assert [e][1..] == [];
  }

  /** An input event is always enabled and goes to the input handlers. */
  lemma StepInput(s: FeedState, e: Event)
    requires WellFormed(s) && IsInputEvent(e)
    ensures Step(s, e) == InputStep(s, e)
  {
  }

  // ---------------------------------------------------------------------
  // One transition in flight
  // ---------------------------------------------------------------------

  /** Event `e` is the 300 ms callback that ends the transition. */
  predicate ClearsTransition(s: FeedState, e: Event) {
    e.TimerFired? && e.k < |s.timers| && s.timers[e.k] == EndTransition
  }

  /**
   * Any single event moves the index by at most one; a move happens only
   * outside a transition and starts one; a transition starts only with a
   * move; and nothing but its end-of-transition callback ends it.
   */
  lemma StepMovesAtMostOne(s: FeedState, e: Event)
    requires WellFormed(s)
    ensures var r := Step(s, e);
      && (r.index == s.index || r.index == s.index + 1 || r.index == s.index - 1)
      && (r.index != s.index ==> !s.transitioning && r.transitioning)
      && (!s.transitioning && r.transitioning ==> r.index != s.index)
      && (s.transitioning && !ClearsTransition(s, e) ==> r.transitioning)
  {
    if !Enabled(s, e) || IsOverlayEvent(e) {
    } else if IsInputEvent(e) {
      InputMovesAtMostOne(s, e);
    } else {
      match e
      case TimerFired(k) =>
        var r := FireTimer(s, k);
        assert r.transitioning != s.transitioning ==> s.timers[k] == EndTransition;
      case _ =>
    }
  }

  /** StepMovesAtMostOne for the input handlers: each does at most one goToNext or goToPrev. */
  lemma InputMovesAtMostOne(s: FeedState, e: Event)
    requires WellFormed(s) && IsInputEvent(e)
    ensures var r := InputStep(s, e);
      && (r.index == s.index || r.index == s.index + 1 || r.index == s.index - 1)
      && (r.index != s.index ==> !s.transitioning && r.transitioning)
      && (!s.transitioning && r.transitioning ==> r.index != s.index)
      && (s.transitioning ==> r.transitioning)
  {
    match e
    case TouchStart(x, y) =>
      assert InputStep(s, e) == HandleTouchStart(s, x, y);
    case TouchMove(y) =>
      assert InputStep(s, e) == HandleTouchMove(s, y);
    case TouchEnd(y) =>
      assert InputStep(s, e) == HandleTouchEnd(s, y);
      var d := s.touchY - y;
      if !Blocked(s) && Abs(d) > SwipeCommit {
        if d > 0 { assert InputStep(s, e) == GoToNext(s); } else { assert InputStep(s, e) == GoToPrev(s); }
      }
    case OverlayClick =>
      assert InputStep(s, e) == HandleOverlayClick(s);
    case KeyPress(key) =>
      assert InputStep(s, e) == HandleKeyDown(s, key);
      KeyMovesAtMostOne(s, key);
    case WheelTurn(deltaY) =>
      assert InputStep(s, e) == HandleWheel(s, deltaY);
  }

  /** The key handler does at most one goToNext or goToPrev. */
  lemma KeyMovesAtMostOne(s: FeedState, key: string)
    requires WellFormed(s)
    ensures var r := HandleKeyDown(s, key);
      && (r.index == s.index || r.index == s.index + 1 || r.index == s.index - 1)
      && (r.index != s.index ==> !s.transitioning && r.transitioning)
      && (!s.transitioning && r.transitioning ==> r.index != s.index)
      && (s.transitioning ==> r.transitioning)
  {
    if !Blocked(s) {
      match KeyActionOf(key)
      case Forward =>
      case Back =>
      case Leave =>
      case FlipSound =>
      case NoAction =>
    }
  }

  /** No event of `es`, in the state it meets, is the end-of-transition callback. */
  predicate NoClearing(s: FeedState, es: seq<Event>)
    requires WellFormed(s)
    decreases |es|
  {
    es == [] || (!ClearsTransition(s, es[0]) && NoClearing(Step(s, es[0]), es[1..]))
  }

  /**
   * Within one cooldown window (no end-of-transition callback runs), however
   * many swipes, wheel turns and key presses arrive, the index changes at most
   * once and by one; during a transition it does not change at all.
   */
  lemma {:induction false} OneMovePerCooldown(s: FeedState, es: seq<Event>)
    requires WellFormed(s) && NoClearing(s, es)
    ensures var r := Run(s, es);
      && (s.transitioning ==> r.index == s.index && r.transitioning)
      && (r.index == s.index || r.index == s.index + 1 || r.index == s.index - 1)
      && (r.index != s.index ==> r.transitioning)
    decreases |es|
  {
    if es != [] {
      var t := Step(s, es[0]);
      StepMovesAtMostOne(s, es[0]);
      OneMovePerCooldown(t, es[1..]);
    }
  }

  // ---------------------------------------------------------------------
  // Swipe versus tap
  // ---------------------------------------------------------------------

  /** The touchmove events of a gesture, one per sampled vertical position. */
  function Moves(ys: seq<int>): (es: seq<Event>)
    ensures |es| == |ys|
  {
    if ys == [] then [] else [TouchMove(ys[0])] + Moves(ys[1..])
  }

  /** Some sampled position lies farther than the slop from the start. */
  predicate BeyondSlop(y0: int, ys: seq<int>) {
    exists i :: 0 <= i < |ys| && Abs(y0 - ys[i]) > SwipeSlop
  }

  /** A gesture passes the slop iff its first move does or one of the later ones does. */
  lemma BeyondSlopCons(y0: int, ys: seq<int>)
    requires ys != []
    ensures BeyondSlop(y0, ys) <==> Abs(y0 - ys[0]) > SwipeSlop || BeyondSlop(y0, ys[1..])
  {
    if BeyondSlop(y0, ys[1..]) {
      var i :| 0 <= i < |ys[1..]| && Abs(y0 - ys[1..][i]) > SwipeSlop;
      assert Abs(y0 - ys[i + 1]) > SwipeSlop;
    }
    if BeyondSlop(y0, ys) {
      var i :| 0 <= i < |ys| && Abs(y0 - ys[i]) > SwipeSlop;
      if i > 0 {
        assert ys[1..][i - 1] == ys[i];
      }
    }
  }

  /** The moves of a gesture only mark it as a swipe, exactly when some move passes the slop. */
  lemma {:induction false} MovesOnlyMarkSwipe(s: FeedState, ys: seq<int>)
    requires WellFormed(s) && !Blocked(s)
    ensures Run(s, Moves(ys)) == s.(swiping := s.swiping || BeyondSlop(s.touchY, ys))
    decreases |ys|
  {
    if ys == [] {
      assert Run(s, Moves(ys)) == s;
    } else {
      var es := Moves(ys);
      assert es[0] == TouchMove(ys[0]) && es[1..] == Moves(ys[1..]);
      var t := HandleTouchMove(s, ys[0]);
      assert Step(s, es[0]) == t;
      assert t == s.(swiping := s.swiping || Abs(s.touchY - ys[0]) > SwipeSlop);
      assert Run(s, es) == Run(t, Moves(ys[1..]));
      MovesOnlyMarkSwipe(t, ys[1..]);
      BeyondSlopCons(s.touchY, ys);
    }
  }

  /** A whole touch gesture: finger down at (x, y), moves, finger up at endY. */
  function Gesture(x: int, y: int, ys: seq<int>, endY: int): seq<Event> {
    [TouchStart(x, y)] + Moves(ys) + [TouchEnd(endY)]
  }

  /** Where a gesture leaves the feed: the start recorded, the swipe mark set from the moves, and the release handled. */
  lemma GestureOutcome(s: FeedState, x: int, y: int, ys: seq<int>, endY: int)
    requires WellFormed(s) && !Blocked(s)
    ensures Run(s, Gesture(x, y, ys, endY)) ==
      HandleTouchEnd(s.(touchX := x, touchY := y, swiping := BeyondSlop(y, ys)), endY)
  {
    var start := [TouchStart(x, y)];
    var t0 := s.(touchX := x, touchY := y, swiping := false);
    RunSingle(s, TouchStart(x, y));
    StepInput(s, TouchStart(x, y));
    assert Run(s, start) == t0;
    RunAppend(s, start, Moves(ys));
    MovesOnlyMarkSwipe(t0, ys);
    var t1 := t0.(swiping := BeyondSlop(y, ys));
    assert Run(s, start + Moves(ys)) == t1;
    RunAppend(s, start + Moves(ys), [TouchEnd(endY)]);
    RunSingle(t1, TouchEnd(endY));
    StepInput(t1, TouchEnd(endY));
    assert Run(t1, [TouchEnd(endY)]) == HandleTouchEnd(t1, endY);
  }

  /**
   * A tap (no move beyond the slop, released within the commit distance)
   * navigates nowhere; the click that follows toggles the sound.
   */
  lemma TapTogglesSound(s: FeedState, x: int, y: int, ys: seq<int>, endY: int)
    requires WellFormed(s) && !Blocked(s)
    requires !BeyondSlop(y, ys) && Abs(y - endY) <= SwipeCommit
    ensures Run(s, Gesture(x, y, ys, endY)).index == s.index
    ensures Run(s, Gesture(x, y, ys, endY) + [OverlayClick]) ==
      ToggleSound(s.(touchX := x, touchY := y, swiping := false))
  {
    var g := s.(touchX := x, touchY := y, swiping := false);
    GestureOutcome(s, x, y, ys, endY);
    assert Run(s, Gesture(x, y, ys, endY)) == g;
    RunAppend(s, Gesture(x, y, ys, endY), [OverlayClick]);
    RunSingle(g, OverlayClick);
    StepInput(g, OverlayClick);
  }

  /**
   * A swipe whose release is more than 50 px above its start performs
   * exactly one goToNext; the click it may produce is swallowed (no sound
   * toggle) and clears the swipe mark.
   */
  lemma SwipeUpGoesForward(s: FeedState, x: int, y: int, ys: seq<int>, endY: int)
    requires WellFormed(s) && !Blocked(s)
    requires BeyondSlop(y, ys) && y - endY > SwipeCommit
    ensures Run(s, Gesture(x, y, ys, endY) + [OverlayClick]) ==
      GoToNext(s.(touchX := x, touchY := y, swiping := true)).(swiping := false)
  {
    var g := s.(touchX := x, touchY := y, swiping := true);
    GestureOutcome(s, x, y, ys, endY);
    var r := GoToNext(g);
    assert Run(s, Gesture(x, y, ys, endY)) == r;
    RunAppend(s, Gesture(x, y, ys, endY), [OverlayClick]);
    RunSingle(r, OverlayClick);
    StepInput(r, OverlayClick);
    assert r.swiping;
  }

  /** The mirror image: released more than 50 px below the start, exactly one goToPrev. */
  lemma SwipeDownGoesBack(s: FeedState, x: int, y: int, ys: seq<int>, endY: int)
    requires WellFormed(s) && !Blocked(s)
    requires BeyondSlop(y, ys) && endY - y > SwipeCommit
    ensures Run(s, Gesture(x, y, ys, endY) + [OverlayClick]) ==
      GoToPrev(s.(touchX := x, touchY := y, swiping := true)).(swiping := false)
  {
    var g := s.(touchX := x, touchY := y, swiping := true);
    GestureOutcome(s, x, y, ys, endY);
    var r := GoToPrev(g);
    assert Run(s, Gesture(x, y, ys, endY)) == r;
    RunAppend(s, Gesture(x, y, ys, endY), [OverlayClick]);
    RunSingle(r, OverlayClick);
    StepInput(r, OverlayClick);
    assert r.swiping;
  }

  // ---------------------------------------------------------------------
  // Sound
  // ---------------------------------------------------------------------

  /** Two toggles restore the wish and the indicator; the embed got both sandwiches in order. */
  lemma ToggleTwiceRestores(s: FeedState)
    requires WellFormed(s)
    ensures var r := ToggleSound(ToggleSound(s));
      && r.soundOn == s.soundOn && r.muted == s.muted
      && (s.embed ==> r.sent == s.sent + [PlayVideo, AudioCommand(!s.soundOn), PlayVideo, AudioCommand(s.soundOn)])
  {
  }

  /**
   * Sound off, the user toggles it on, then the embed reports it has loaded:
   * when the 500 ms callback runs, `unMute` and then `playVideo` go out, in
   * that order.
   */
  lemma UnmuteFollowsLoad(s: FeedState)
    requires WellFormed(s) && s.embed && !s.soundOn
    ensures var t := HandleVideoLoad(ToggleSound(s));
      && t.soundOn && |t.timers| > 0 && t.timers[|t.timers| - 1] == UnmuteAfterLoad
      && FireTimer(t, |t.timers| - 1).sent == t.sent + [UnMute, PlayVideo]
  {
  }

  /** Once the embed is gone, no callback sends anything more. */
  lemma NoCommandsAfterEmbedGone(s: FeedState, k: nat)
    requires WellFormed(s) && k < |s.timers| && !s.embed
    ensures FireTimer(s, k).sent == s.sent
  {
  }

  // ---------------------------------------------------------------------
  // Interest marks
  // ---------------------------------------------------------------------

  /**
   * Marking an unmarked item and having its bookmark write fail leaves every
   * mark as it was before, and nothing awaiting the store.
   */
  lemma FailedBookmarkRollsBack(s: FeedState, user: Option<string>)
    requires WellFormed(s) && user.Some?
    requires !IsMarked(s.interested, s.items[s.index].id)
    ensures var t := ToggleInterest(s, user);
      && |t.inflight| == |s.inflight| + 1
      && var r := BookmarkSettled(t, |s.inflight|, false);
      && r.inflight == s.inflight
      && forall id :: IsMarked(r.interested, id) == IsMarked(s.interested, id)
  {
    var id := s.items[s.index].id;
    var t := ToggleInterest(s, user);
    assert t.inflight == s.inflight + [id];
    assert RemoveAt(t.inflight, |s.inflight|) == s.inflight;
  }

  // ---------------------------------------------------------------------
  // Overlay
  // ---------------------------------------------------------------------

  /**
   * While an overlay is open, touch and wheel events change nothing and a key
   * press acts only when it is Escape, which closes the overlay.
   */
  lemma OverlaySuspendsInput(s: FeedState, e: Event)
    requires WellFormed(s) && Blocked(s) && IsInputEvent(e) && !e.OverlayClick?
    ensures Step(s, e) == (if e == KeyPress("Escape") then s.(chatMode := Closed) else s)
  {
  }

  /**
   * The overlay screens as a state machine: what each of their buttons does.
   * The mentor panel opens on the current item, its back arrows return one
   * screen, the free question hands the mentor to the host and closes,
   * closing the payment resets its step, "next" schedules the completion,
   * and the guide pages move by one.
   */
  lemma OverlayTransitions(s: FeedState, e: Event)
    requires WellFormed(s) && Enabled(s, e) && IsOverlayEvent(e)
    ensures e == AskClick ==> Step(s, e) == s.(mentor := Some(s.items[s.index]), chatMode := Select)
    ensures e == SelectBackClick ==> Step(s, e) == s.(chatMode := Closed)
    ensures e == OneOnOneChoice ==> Step(s, e) == s.(chatMode := OneOnOneInfo)
    ensures e == FreeQuestionChoice ==>
      Step(s, e) == s.(requests := s.requests + [StartChat(s.mentor.value)], chatMode := Closed)
    ensures e == InfoBackClick ==> Step(s, e) == s.(chatMode := Select)
    ensures e.PayClick? ==>
      var m := s.mentor.value;
      Step(s, e) == s.(stored := s.stored + [OneOnOneIntent(m.id, m.username, m.role, UserIdOrAnonymous(e.user), OneOnOneAmount, OneOnOneStatus)],
              chatMode := Payment, paymentStep := 1)
    ensures e == PaymentCloseClick ==> Step(s, e) == s.(chatMode := Closed, paymentStep := 1)
    ensures e == PaymentNextClick ==> Step(s, e) == s.(paymentStep := 2, timers := s.timers + [CompletePayment])
    ensures e == GuideNextClick ==> Step(s, e) == s.(guideStep := s.guideStep + 1)
    ensures e == GuidePrevClick ==> Step(s, e) == s.(guideStep := s.guideStep - 1)
    ensures e == GuideCloseClick ==> Step(s, e) == s.(showGuide := false)
  {
    assert Step(s, e) == OverlayStep(s, e);
    match e {
    case AskClick =>
    case SelectBackClick =>
    case OneOnOneChoice =>
    case FreeQuestionChoice =>
    case InfoBackClick =>
    case PayClick(user) =>
    case PaymentCloseClick =>
    case PaymentNextClick =>
    case GuideNextClick =>
    case GuidePrevClick =>
    case GuideCloseClick =>
    }
  }

  /** The choice panel's back arrow closes what "ask" opened; only the remembered mentor stays. */
  lemma AskThenBack(s: FeedState)
    requires WellFormed(s) && s.chatMode == Closed
    ensures Run(s, [AskClick, SelectBackClick]) == s.(mentor := Some(s.items[s.index]))
  {
    TwoSteps(s, AskClick, SelectBackClick);
    OverlayTransitions(s, AskClick);
    OverlayTransitions(Step(s, AskClick), SelectBackClick);
  }

  /** The detail page's back arrow returns exactly to the choice panel it came from. */
  lemma OneOnOneThenBack(s: FeedState)
    requires WellFormed(s) && s.chatMode == Select
    ensures Run(s, [OneOnOneChoice, InfoBackClick]) == s
  {
    TwoSteps(s, OneOnOneChoice, InfoBackClick);
    OverlayTransitions(s, OneOnOneChoice);
    OverlayTransitions(Step(s, OneOnOneChoice), InfoBackClick);
  }

  /** The guide's previous page undoes its next page. */
  lemma GuideNextThenPrev(s: FeedState)
    requires WellFormed(s) && s.showGuide && s.guideStep < 3
    ensures Run(s, [GuideNextClick, GuidePrevClick]) == s
  {
    TwoSteps(s, GuideNextClick, GuidePrevClick);
    OverlayTransitions(s, GuideNextClick);
    OverlayTransitions(Step(s, GuideNextClick), GuidePrevClick);
  }

  /** Running two events is taking two steps. */
  lemma TwoSteps(s: FeedState, a: Event, b: Event)
    requires WellFormed(s)
    ensures Run(s, [a, b]) == Step(Step(s, a), b)
  {
    assert [a, b][1..] == [b];
    RunSingle(Step(s, a), b);
  }

  /** Ask, choose one-on-one, pay: the payment screen opens at step 1 for the item on screen, and the click is logged. */
  lemma CheckoutPath(s: FeedState, user: Option<string>)
    requires WellFormed(s) && s.chatMode == Closed
    ensures var r := Run(s, [AskClick, OneOnOneChoice, PayClick(user)]);
      var v := s.items[s.index];
      && r.chatMode == Payment && r.paymentStep == 1 && r.mentor == Some(v)
      && r.index == s.index && r.timers == s.timers
      && r.stored == s.stored + [OneOnOneIntent(v.id, v.username, v.role, UserIdOrAnonymous(user), OneOnOneAmount, OneOnOneStatus)]
  {
    var s1 := Step(s, AskClick);
    var s2 := Step(s1, OneOnOneChoice);
    var s3 := Step(s2, PayClick(user));
    assert Run(s, [AskClick, OneOnOneChoice, PayClick(user)]) == Run(s1, [OneOnOneChoice, PayClick(user)]);
    assert Run(s1, [OneOnOneChoice, PayClick(user)]) == Run(s2, [PayClick(user)]);
    assert Run(s2, [PayClick(user)]) == Run(s3, []);
  }

  /**
   * Closing the payment does not cancel its 1.5 s callback: press "next",
   * close, reopen the payment, and when the old callback runs the new payment
   * shows step 3 although its own "next" was never pressed.
   */
  lemma CompletionOutlivesClose(s: FeedState, user: Option<string>)
    requires WellFormed(s) && s.chatMode == Payment && s.paymentStep == 1
    ensures var r := Run(s, [PaymentNextClick, PaymentCloseClick] + [AskClick, OneOnOneChoice, PayClick(user)] + [TimerFired(|s.timers|)]);
      r.chatMode == Payment && r.paymentStep == 3
  {
    var pressed := [PaymentNextClick, PaymentCloseClick];
    var reopen := [AskClick, OneOnOneChoice, PayClick(user)];
    NextThenClose(s);
    var s2 := Run(s, pressed);
    CheckoutPath(s2, user);
    var s5 := Run(s2, reopen);
    CompletionFires(s5, |s.timers|);
    RunAppend(s, pressed, reopen);
    RunAppend(s, pressed + reopen, [TimerFired(|s.timers|)]);
  }

  /** "Next" on the first payment step, then close: the overlay is closed, the completion callback still pending. */
  lemma NextThenClose(s: FeedState)
    requires WellFormed(s) && s.chatMode == Payment && s.paymentStep == 1
    ensures var r := Run(s, [PaymentNextClick, PaymentCloseClick]);
      r.chatMode == Closed && r.timers == s.timers + [CompletePayment]
  {
    var s1 := Step(s, PaymentNextClick);
    assert s1.timers == s.timers + [CompletePayment] && s1.chatMode == Payment by {
      assert s1 == OverlayStep(s, PaymentNextClick);
    }
    var s2 := Step(s1, PaymentCloseClick);
    assert s2.timers == s1.timers && s2.chatMode == Closed by {
      assert s2 == OverlayStep(s1, PaymentCloseClick);
    }
    assert Run(s, [PaymentNextClick, PaymentCloseClick]) == Run(s1, [PaymentCloseClick]);
    assert Run(s1, [PaymentCloseClick]) == Run(s2, []);
  }

  /** The completion callback sets step 3 and leaves the overlay as it is. */
  lemma CompletionFires(s: FeedState, k: nat)
    requires WellFormed(s) && k < |s.timers| && s.timers[k] == CompletePayment
    ensures var r := Run(s, [TimerFired(k)]);
      r.chatMode == s.chatMode && r.paymentStep == 3
  {
    assert Run(s, [TimerFired(k)]) == Run(Step(s, TimerFired(k)), []);
  }
}
