/**
 * The ReelsView component as an object: its state, refs and logs are fields
 * that each browser callback updates in place, and the module-level
 * `globalSoundOn` is a separate object that outlives every mount. Each
 * method is proved to do exactly what the corresponding function of module
 * Feed says, so every property proved there holds of the object.
 */
module Reels {
  import opened Wrappers
  import opened Vlogs
  import Feed
  import Shuffle

  /** `let globalSoundOn = false`: the user's sound wish, shared by every mount of the feed. */
  class GlobalSound {
    var on: bool

    constructor ()
      ensures !on
    {
      on := false;
    }
  }

  class ReelsController {
    const items: seq<Vlog>
    const sound: GlobalSound
    var index: int
    var transitioning: bool
    var muted: bool
    var embed: bool
    var touchX: int
    var touchY: int
    var swiping: bool
    var chatMode: Feed.ChatMode
    var paymentStep: int
    var mentor: Option<Vlog>
    var showGuide: bool
    var guideStep: int
    var interested: map<string, bool>
    var sent: seq<Feed.Command>
    var timers: seq<Feed.Timer>
    var inflight: seq<string>
    var stored: seq<Feed.StoreWrite>
    var requests: seq<Feed.HostRequest>

    /** The object's state as a value of the specification. */
    ghost function Snapshot(): Feed.FeedState
      reads this, sound
    {
      Feed.FeedState(items, index, transitioning, muted, sound.on, embed, touchX, touchY, swiping,
                     chatMode, paymentStep, mentor, showGuide, guideStep, interested,
                     sent, timers, inflight, stored, requests)
    }

    ghost predicate Valid()
      reads this, sound
    {
      Feed.WellFormed(Snapshot())
    }

    /**
     * Mounting: shuffle a copy of the bundled items once, start on the first,
     * and let the layout effect align the mute indicator with the global wish.
     * The guide shows unless the device remembers it was seen.
     */
    constructor (vlogs: seq<Vlog>, js: seq<nat>, sound: GlobalSound, guideSeen: bool)
      requires |vlogs| > 0 && Shuffle.ValidChoices(js, |vlogs|)
      ensures items == Shuffle.Shuffled(vlogs, js)
      ensures |items| == |vlogs| && multiset(items) == multiset(vlogs)
      ensures Valid() && this.sound == sound
      ensures Snapshot() == Feed.Initial(items, sound.on, guideSeen)
    {
      var a := new Vlog[|vlogs|](i requires 0 <= i < |vlogs| => vlogs[i]);
      assert a[..] == vlogs;
      Shuffle.ShuffleInPlace(a, js);
      items := a[..];
      this.sound := sound;
      index := 0;
      transitioning := false;
      muted := !sound.on;
      embed := true;
      touchX, touchY, swiping := 0, 0, false;
      chatMode := Feed.Closed;
      paymentStep := 1;
      mentor := None;
      showGuide := !guideSeen;
      guideStep := 0;
      interested := map[];
      sent, timers, inflight, stored, requests := [], [], [], [], [];
      new;
      Shuffle.ShuffledIsPermutation(vlogs, js);
    }

    method GoToNext()
      requires Valid()
      modifies this
      ensures Valid()
      ensures Snapshot() == Feed.GoToNext(old(Snapshot()))
    {
      ghost var s0 := Snapshot();
      if index < |items| - 1 && !transitioning {
        transitioning := true;
        index := index + 1;
        timers := timers + [Feed.EndTransition];
        muted := !sound.on;  // the layout effect on currentIndex
      }
      assert Snapshot() == Feed.GoToNext(s0);
    }

    method GoToPrev()
      requires Valid()
      modifies this
      ensures Valid()
      ensures Snapshot() == Feed.GoToPrev(old(Snapshot()))
    {
      ghost var s0 := Snapshot();
      if index > 0 && !transitioning {
        transitioning := true;
        index := index - 1;
        timers := timers + [Feed.EndTransition];
        muted := !sound.on;  // the layout effect on currentIndex
      }
      assert Snapshot() == Feed.GoToPrev(s0);
    }

    method ToggleSound()
      requires Valid()
      modifies this, sound
      ensures Valid()
      ensures Snapshot() == Feed.ToggleSound(old(Snapshot()))
    {
      if !embed {
        return;
      }
      ghost var s0 := Snapshot();
      var wantSound := !sound.on;
      sound.on := wantSound;
      muted := !wantSound;
      sent := sent + [Feed.PlayVideo];
      sent := sent + [Feed.AudioCommand(wantSound)];
      timers := timers + [Feed.ReplayAfterToggle];
      assert sent == s0.sent + [Feed.PlayVideo, Feed.AudioCommand(wantSound)];
      assert Snapshot() == Feed.ToggleSound(s0);
    }

    method HandleVideoLoad()
      requires Valid()
      modifies this
      ensures Valid()
      ensures Snapshot() == Feed.HandleVideoLoad(old(Snapshot()))
    {
      if !embed {
        return;
      }
      sent := sent + [Feed.PlayVideo];
      if sound.on {
        timers := timers + [Feed.UnmuteAfterLoad];
      } else {
        sent := sent + [Feed.Mute];
      }
    }

    /** The component unmounts: the iframe ref is cleared, its pending callbacks are not cancelled. */
    method Unmount()
      requires Valid()
      modifies this
      ensures Valid()
      ensures Snapshot() == old(Snapshot()).(embed := false)
    {
      embed := false;
    }

    /** The pending callback at position `k` runs. */
    method FireTimer(k: nat)
      requires Valid() && k < |timers|
      modifies this
      ensures Valid()
      ensures Snapshot() == Feed.FireTimer(old(Snapshot()), k)
    {
      ghost var s0 := Snapshot();
      var t := timers[k];
      timers := Feed.RemoveAt(timers, k);
      assert Snapshot() == s0.(timers := Feed.RemoveAt(s0.timers, k));
      assert multiset(timers + [t]) == multiset(s0.timers);
      assert Snapshot().(timers := timers + [t]).timers == timers + [t];
      RunTimer(t);
      assert Snapshot() == Feed.FireTimer(s0, k);
    }

    /**
     * The body of a callback that has already left the pending list. The
     * object was valid with the callback still pending, and is valid again
     * once the callback has taken effect.
     */
    method RunTimer(t: Feed.Timer)
      requires Feed.WellFormed(Snapshot().(timers := timers + [t]))
      modifies this
      ensures Valid()
      ensures Snapshot() == Feed.RunTimer(old(Snapshot()), t)
    {
      ghost var s0 := Snapshot();
      Feed.RunTimerKeepsWellFormed(s0, t);
      match t {
      case ReplayAfterToggle =>
        if embed {
          sent := sent + [Feed.PlayVideo];
        }
      case UnmuteAfterLoad =>
        if embed {
          sent := sent + [Feed.UnMute, Feed.PlayVideo];
        }
      case EndTransition =>
        transitioning := false;
      case CompletePayment =>
        paymentStep := 3;
      }
      assert Snapshot() == Feed.RunTimer(s0, t);
    }

    method HandleTouchStart(x: int, y: int)
      requires Valid()
      modifies this
      ensures Valid()
      ensures Snapshot() == Feed.HandleTouchStart(old(Snapshot()), x, y)
    {
      if chatMode != Feed.Closed {
        return;
      }
      touchX, touchY := x, y;
      swiping := false;
    }

    method HandleTouchMove(y: int)
      requires Valid()
      modifies this
      ensures Valid()
      ensures Snapshot() == Feed.HandleTouchMove(old(Snapshot()), y)
    {
      if chatMode != Feed.Closed {
        return;
      }
      if Feed.Abs(touchY - y) > Feed.SwipeSlop {
        swiping := true;
      }
    }

    method HandleTouchEnd(y: int)
      requires Valid()
      modifies this
      ensures Valid()
      ensures Snapshot() == Feed.HandleTouchEnd(old(Snapshot()), y)
    {
      if chatMode != Feed.Closed {
        return;
      }
      var diffY := touchY - y;
      if Feed.Abs(diffY) > Feed.SwipeCommit {
        if diffY > 0 {
          GoToNext();
        } else {
          GoToPrev();
        }
      }
    }

    method HandleOverlayClick()
      requires Valid()
      modifies this, sound
      ensures Valid()
      ensures Snapshot() == Feed.HandleOverlayClick(old(Snapshot()))
    {
      if swiping {
        swiping := false;
        return;
      }
      ToggleSound();
    }

    /** The four independent key tests of the source; at most one can match a given key. */
    method HandleKeyDown(key: string)
      requires Valid()
      modifies this, sound
      ensures Valid()
      ensures Snapshot() == Feed.HandleKeyDown(old(Snapshot()), key)
    {
      ghost var s0 := Snapshot();
      if chatMode != Feed.Closed {
        if key == "Escape" {
          chatMode := Feed.Closed;
        }
        return;
      }
      ghost var action := Feed.KeyActionOf(key);
      if key == "ArrowDown" || key == "j" {
        assert action == Feed.Forward;
        GoToNext();
      }
      if key == "ArrowUp" || key == "k" {
        assert action == Feed.Back;
        GoToPrev();
      }
      if key == "Escape" {
        assert action == Feed.Leave;
        requests := requests + [Feed.CloseFeed];
      }
      if key == " " {
        assert action == Feed.FlipSound;
        ToggleSound();
      }
      assert Snapshot() == Feed.HandleKeyDown(s0, key);
    }

    method HandleWheel(deltaY: int)
      requires Valid()
      modifies this
      ensures Valid()
      ensures Snapshot() == Feed.HandleWheel(old(Snapshot()), deltaY)
    {
      if chatMode != Feed.Closed {
        return;
      }
      if deltaY > 0 {
        GoToNext();
      } else if deltaY < 0 {
        GoToPrev();
      }
    }

    /** The interest button on the current item, with `auth.currentUser`'s uid if signed in. */
    method ToggleInterest(user: Option<string>)
      requires Valid()
      modifies this
      ensures Valid()
      ensures Snapshot() == Feed.ToggleInterest(old(Snapshot()), user)
    {
      var v := items[index];
      var newState := !Feed.IsMarked(interested, v.id);
      if user.None? {
        return;
      }
      interested := interested[v.id := newState];
      if newState {
        stored := stored + [Feed.BookmarkWrite(user.value, v.id, v)];
        inflight := inflight + [v.id];
      }
    }

    /** The bookmark write at position `k` settles, successfully or not. */
    method BookmarkSettled(k: nat, ok: bool)
      requires Valid() && k < |inflight|
      modifies this
      ensures Valid()
      ensures Snapshot() == Feed.BookmarkSettled(old(Snapshot()), k, ok)
    {
      var id := inflight[k];
      inflight := Feed.RemoveAt(inflight, k);
      if !ok {
        interested := interested[id := false];
      }
    }

    /** "Ask about this job": remember the current item as the mentor and open the choice panel. */
    method AskQuestion()
      requires Valid()
      modifies this
      ensures Valid()
      ensures Snapshot() == Feed.OverlayStep(old(Snapshot()), Feed.AskClick)
    {
      mentor := Some(items[index]);
      chatMode := Feed.Select;
    }

    /** The back arrow of the choice panel. */
    method SelectBack()
      requires Valid() && chatMode == Feed.Select
      modifies this
      ensures Valid()
      ensures Snapshot() == Feed.OverlayStep(old(Snapshot()), Feed.SelectBackClick)
    {
      chatMode := Feed.Closed;
    }

    method ChooseOneOnOne()
      requires Valid() && chatMode == Feed.Select
      modifies this
      ensures Valid()
      ensures Snapshot() == Feed.OverlayStep(old(Snapshot()), Feed.OneOnOneChoice)
    {
      chatMode := Feed.OneOnOneInfo;
    }

    /** The free question: hand the mentor to the host's `onStartChat`, then close. */
    method ChooseFreeQuestion()
      requires Valid() && chatMode == Feed.Select
      modifies this
      ensures Valid()
      ensures Snapshot() == Feed.OverlayStep(old(Snapshot()), Feed.FreeQuestionChoice)
    {
      requests := requests + [Feed.StartChat(mentor.value)];
      chatMode := Feed.Closed;
    }

    /** The back arrow of the one-on-one detail page. */
    method InfoBack()
      requires Valid() && chatMode == Feed.OneOnOneInfo
      modifies this
      ensures Valid()
      ensures Snapshot() == Feed.OverlayStep(old(Snapshot()), Feed.InfoBackClick)
    {
      chatMode := Feed.Select;
    }

    /** "Pay": log the click (fire-and-forget), open the payment screen at step 1. */
    method Pay(user: Option<string>)
      requires Valid() && chatMode == Feed.OneOnOneInfo
      modifies this
      ensures Valid()
      ensures Snapshot() == Feed.OverlayStep(old(Snapshot()), Feed.PayClick(user))
    {
      var m := mentor.value;
      stored := stored + [Feed.OneOnOneIntent(m.id, m.username, m.role, Feed.UserIdOrAnonymous(user), Feed.OneOnOneAmount, Feed.OneOnOneStatus)];
      chatMode := Feed.Payment;
      paymentStep := 1;
    }

    /** The payment's close button, or a click on its backdrop. */
    method ClosePayment()
      requires Valid() && chatMode == Feed.Payment
      modifies this
      ensures Valid()
      ensures Snapshot() == Feed.OverlayStep(old(Snapshot()), Feed.PaymentCloseClick)
    {
      chatMode := Feed.Closed;
      paymentStep := 1;
    }

    /** The payment's "next" on step 1: show processing, schedule completion in 1.5 s. */
    method PaymentNext()
      requires Valid() && chatMode == Feed.Payment && paymentStep == 1
      modifies this
      ensures Valid()
      ensures Snapshot() == Feed.OverlayStep(old(Snapshot()), Feed.PaymentNextClick)
    {
      paymentStep := 2;
      timers := timers + [Feed.CompletePayment];
    }

    method GuideNext()
      requires Valid() && showGuide && guideStep < 3
      modifies this
      ensures Valid()
      ensures Snapshot() == Feed.OverlayStep(old(Snapshot()), Feed.GuideNextClick)
    {
      guideStep := guideStep + 1;
    }

    method GuidePrev()
      requires Valid() && showGuide && guideStep > 0
      modifies this
      ensures Valid()
      ensures Snapshot() == Feed.OverlayStep(old(Snapshot()), Feed.GuidePrevClick)
    {
      guideStep := guideStep - 1;
    }

    /** "Start" on the last guide page or "skip" before it. */
    method CloseGuide()
      requires Valid() && showGuide
      modifies this
      ensures Valid()
      ensures Snapshot() == Feed.OverlayStep(old(Snapshot()), Feed.GuideCloseClick)
    {
      showGuide := false;
    }
  }
}
