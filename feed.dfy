/**
 * The reels feed controller of src/components/ReelsView.jsx, as a value.
 *
 * `FeedState` gathers everything the component keeps: its React state
 * (`currentIndex`, `isTransitioning`, `isMuted`, `chatMode`, `paymentStep`,
 * `selectedMentor`, `showGuide`, `guideStep`, `interested`), its refs
 * (`touchStartRef`, `isSwipingRef`, whether `iframeRef.current` is set), the
 * module-level `globalSoundOn` flag, and four logs of what it hands to the
 * outside world: player commands posted to the embed, pending `setTimeout`
 * callbacks, bookmark writes still awaiting the store, and store writes and
 * calls made to the host application.
 *
 * Every browser callback is one function from the old state to the new one;
 * `Step` dispatches an `Event` to them and `Run` folds a sequence of events.
 * The class in module Reels performs the same updates in place and is proved
 * against these functions.
 */
module Feed {
  import opened Wrappers
  import opened Vlogs

  /** Commands of the YouTube IFrame Player API that the component posts. */
  datatype Command = PlayVideo | Mute | UnMute

  /** The API's function name for a command. */
  function FuncName(c: Command): string {
    match c
    case PlayVideo => "playVideo"
    case Mute => "mute"
    case UnMute => "unMute"
  }

  const MessageHead: string := "{\"event\":\"command\",\"func\":\""
  const MessageTail: string := "\",\"args\":[]}"

  /** The text posted to the embed: `JSON.stringify({ event: 'command', func, args: [] })`. */
  function Message(c: Command): string {
    MessageHead + FuncName(c) + MessageTail
  }

  /** Distinct commands are distinct messages, so the receiver can tell them apart. */
  lemma MessageInjective(a: Command, b: Command)
    ensures Message(a) == Message(b) ==> a == b
  {
    if Message(a) == Message(b) {
      assert Message(a)[|MessageHead|] == FuncName(a)[0];
      assert Message(b)[|MessageHead|] == FuncName(b)[0];
    }
  }

  const EmbedBase: string := "https://www.youtube.com/embed/"
  const EmbedFlags: string :=
    "?autoplay=1&mute=1&controls=0&modestbranding=1&rel=0&iv_load_policy=3&playsinline=1&loop=1&playlist="
  const EmbedTail: string := "&showinfo=0&disablekb=1&fs=0&enablejsapi=1&origin="

  /**
   * The iframe's source for a video. It always starts muted and autoplaying
   * (sound is applied afterwards by commands), and loops by naming the same
   * video as its one-item playlist. The page origin is a parameter.
   */
  function EmbedUrl(videoId: string, origin: string): (url: string)
    ensures |url| == |EmbedBase| + 2 * |videoId| + |EmbedFlags| + |EmbedTail| + |origin|
    ensures url[..|EmbedBase|] == EmbedBase
    ensures url[|EmbedBase|..|EmbedBase| + |videoId|] == videoId
    ensures url[|EmbedBase| + |videoId|..|EmbedBase| + |videoId| + |EmbedFlags|] == EmbedFlags
    ensures url[|EmbedBase| + |videoId| + |EmbedFlags|..|EmbedBase| + 2 * |videoId| + |EmbedFlags|] == videoId
    ensures url[|EmbedBase| + 2 * |videoId| + |EmbedFlags|..|url| - |origin|] == EmbedTail
    ensures url[|url| - |origin|..] == origin
  {
    EmbedBase + videoId + EmbedFlags + videoId + EmbedTail + origin
  }

  /** On one page, different videos get different sources, so a new item reloads the embed. */
  lemma EmbedUrlInjective(v1: string, v2: string, origin: string)
    ensures EmbedUrl(v1, origin) == EmbedUrl(v2, origin) ==> v1 == v2
  {
    if EmbedUrl(v1, origin) == EmbedUrl(v2, origin) {
      assert |v1| == |v2|;
    }
  }

  /** The command that realises the user's sound wish. */
  function AudioCommand(wantSound: bool): (c: Command)
    ensures c != PlayVideo
    ensures c == UnMute <==> wantSound
  {
    if wantSound then UnMute else Mute
  }

  /** The `setTimeout` callbacks the component schedules, by what they do when they fire. */
  datatype Timer =
    | ReplayAfterToggle   // 50 ms after toggleSound: `playVideo` again if the embed is still there
    | UnmuteAfterLoad     // 500 ms after the embed loads with sound wanted: `unMute`, then `playVideo`
    | EndTransition       // 300 ms after an index change: `isTransitioning := false`
    | CompletePayment     // 1.5 s after the payment "next" button: `paymentStep := 3`

  /** `chatMode`: `null | 'select' | 'oneOnOneInfo' | 'payment'`. */
  datatype ChatMode = Closed | Select | OneOnOneInfo | Payment

  /** Documents handed to the store. */
  datatype StoreWrite =
    | BookmarkWrite(userId: string, vlogId: string, vlog: Vlog)
    | OneOnOneIntent(mentorId: string, mentorName: string, mentorRole: string, userId: string, amount: int, status: string)

  /** Calls into the host application's callbacks `onClose` and `onStartChat`. */
  datatype HostRequest = CloseFeed | StartChat(vlog: Vlog)

  /** The price recorded with a one-on-one click. */
  const OneOnOneAmount: int := 20000
  /** The status recorded with a one-on-one click. */
  const OneOnOneStatus: string := "clicked"

  datatype FeedState = FeedState(
    items: seq<Vlog>,               // shuffledVlogs, fixed after construction
    index: int,                     // currentIndex
    transitioning: bool,            // isTransitioning
    muted: bool,                    // isMuted (the on-screen indicator)
    soundOn: bool,                  // the module-level globalSoundOn
    embed: bool,                    // iframeRef.current is set
    touchX: int,                    // touchStartRef.current.x
    touchY: int,                    // touchStartRef.current.y
    swiping: bool,                  // isSwipingRef.current
    chatMode: ChatMode,
    paymentStep: int,
    mentor: Option<Vlog>,           // selectedMentor
    showGuide: bool,
    guideStep: int,
    interested: map<string, bool>,
    sent: seq<Command>,             // commands posted to the embed, oldest first
    timers: seq<Timer>,             // callbacks scheduled and not yet run
    inflight: seq<string>,          // ids whose bookmark write has not settled yet
    stored: seq<StoreWrite>,        // store writes issued, oldest first
    requests: seq<HostRequest>)     // host callbacks invoked, oldest first

  /** How many callbacks of kind `t` are pending. */
  function Pending(q: seq<Timer>, t: Timer): nat {
    multiset(q)[t]
  }

  /** The pending queue once the callback at position `k` has run. */
  function RemoveAt<T>(q: seq<T>, k: nat): (r: seq<T>)
    requires k < |q|
    ensures |r| == |q| - 1
    ensures multiset(r) == multiset(q) - multiset{q[k]}
  {
    assert q == q[..k] + [q[k]] + q[k + 1..];
    q[..k] + q[k + 1..]
  }

  /** Running the callback at `k` lowers the count of its own kind by one and leaves the others. */
  lemma RemoveAtPending(q: seq<Timer>, k: nat, t: Timer)
    requires k < |q|
    ensures Pending(RemoveAt(q, k), t) == Pending(q, t) - (if q[k] == t then 1 else 0)
  {
  }

  /**
   * What holds of the component in every reachable state: the index is on an
   * item, the mute indicator mirrors the global sound flag, a transition is in
   * flight exactly when its one end-of-transition callback is pending, the
   * payment and guide steps stay in range, and an open overlay has a mentor.
   */
  predicate WellFormed(s: FeedState) {
    && |s.items| > 0
    && 0 <= s.index < |s.items|
    && s.muted == !s.soundOn
    && Pending(s.timers, EndTransition) == (if s.transitioning then 1 else 0)
    && 1 <= s.paymentStep <= 3
    && (s.paymentStep == 2 ==> Pending(s.timers, CompletePayment) > 0)
    && 0 <= s.guideStep <= 3
    && (s.chatMode != Closed ==> s.mentor.Some?)
  }

  /**
   * The state right after mounting: first item, no transition, the indicator
   * already synchronised with the global flag by the layout effect, nothing
   * sent, no overlay, the guide shown unless it was seen before.
   */
  function Initial(items: seq<Vlog>, soundOn: bool, guideSeen: bool): (s: FeedState)
    requires |items| > 0
    ensures WellFormed(s)
    ensures s.index == 0 && !s.transitioning && s.muted == !soundOn
    ensures s.showGuide == !guideSeen && s.chatMode == Closed
  {
    FeedState(items, 0, false, !soundOn, soundOn, true, 0, 0, false, Closed, 1, None,
              !guideSeen, 0, map[], [], [], [], [], [])
  }

  // ---------------------------------------------------------------------
  // Navigation
  // ---------------------------------------------------------------------

  /**
   * goToNext: one step forward unless at the last item or mid-transition;
   * a step marks the transition in flight, schedules its end, and the layout
   * effect on `currentIndex` re-synchronises the mute indicator.
   */
  function GoToNext(s: FeedState): (r: FeedState)
    ensures WellFormed(s) ==> WellFormed(r)
    ensures r.index == s.index || r.index == s.index + 1
    ensures r.index != s.index <==> (s.index < |s.items| - 1 && !s.transitioning)
    ensures r.index != s.index ==>
      r.transitioning && r.timers == s.timers + [EndTransition] &&
      r == s.(index := s.index + 1, transitioning := true, muted := !s.soundOn, timers := r.timers)
    ensures r.index == s.index ==> r == s
  {
    if s.index < |s.items| - 1 && !s.transitioning then
      s.(index := s.index + 1, transitioning := true, muted := !s.soundOn,
         timers := s.timers + [EndTransition])
    else
      s
  }

  /** goToPrev: the mirror image of GoToNext, blocked at the first item. */
  function GoToPrev(s: FeedState): (r: FeedState)
    ensures WellFormed(s) ==> WellFormed(r)
    ensures r.index == s.index || r.index == s.index - 1
    ensures r.index != s.index <==> (s.index > 0 && !s.transitioning)
    ensures r.index != s.index ==>
      r.transitioning && r.timers == s.timers + [EndTransition] &&
      r == s.(index := s.index - 1, transitioning := true, muted := !s.soundOn, timers := r.timers)
    ensures r.index == s.index ==> r == s
  {
    if s.index > 0 && !s.transitioning then
      s.(index := s.index - 1, transitioning := true, muted := !s.soundOn,
         timers := s.timers + [EndTransition])
    else
      s
  }

  // ---------------------------------------------------------------------
  // Sound
  // ---------------------------------------------------------------------

  /**
   * toggleSound: without an embed nothing happens. Otherwise the global wish
   * flips, the indicator follows, and the "play sandwich" goes out: `playVideo`,
   * then `unMute` or `mute`, then one more `playVideo` from a 50 ms callback.
   */
  function ToggleSound(s: FeedState): (r: FeedState)
    ensures WellFormed(s) ==> WellFormed(r)
    ensures !s.embed ==> r == s
    ensures s.embed ==>
      r.soundOn == !s.soundOn && r.muted == !r.soundOn &&
      r.sent == s.sent + [PlayVideo, AudioCommand(r.soundOn)] &&
      r.timers == s.timers + [ReplayAfterToggle]
    ensures r == s.(soundOn := r.soundOn, muted := r.muted, sent := r.sent, timers := r.timers)
  {
    if !s.embed then
      s
    else
      var wantSound := !s.soundOn;
      s.(soundOn := wantSound, muted := !wantSound,
         sent := s.sent + [PlayVideo, AudioCommand(wantSound)],
         timers := s.timers + [ReplayAfterToggle])
  }

  /**
   * handleVideoLoad (the iframe's onLoad): always `playVideo` first; with sound
   * wanted, `unMute` and `playVideo` are deferred 500 ms, otherwise `mute` is
   * sent at once. Only the command log and the timer queue change.
   */
  function HandleVideoLoad(s: FeedState): (r: FeedState)
    ensures WellFormed(s) ==> WellFormed(r)
    ensures r == s.(sent := r.sent, timers := r.timers)
    ensures !s.embed ==> r == s
    ensures s.embed && s.soundOn ==>
      r.sent == s.sent + [PlayVideo] && r.timers == s.timers + [UnmuteAfterLoad]
    ensures s.embed && !s.soundOn ==>
      r.sent == s.sent + [PlayVideo, Mute] && r.timers == s.timers
  {
    if !s.embed then
      s
    else if s.soundOn then
      s.(sent := s.sent + [PlayVideo], timers := s.timers + [UnmuteAfterLoad])
    else
      s.(sent := s.sent + [PlayVideo, Mute])
  }

  /**
   * What a callback does once it has left the pending list. Deferred
   * commands are posted only if the embed is still there; the
   * end-of-transition callback is the only thing that clears
   * `isTransitioning`; the payment callback sets step 3 whatever the overlay
   * shows by then. Nothing else is touched.
   */
  function RunTimer(s: FeedState, t: Timer): (r: FeedState)
    ensures r.items == s.items && r.index == s.index && r.timers == s.timers
    ensures r.soundOn == s.soundOn && r.muted == s.muted && r.embed == s.embed
    ensures r.chatMode == s.chatMode && r.mentor == s.mentor && r.interested == s.interested
    ensures r.stored == s.stored && r.inflight == s.inflight && r.requests == s.requests
    ensures r.transitioning != s.transitioning ==> t == EndTransition && !r.transitioning
    ensures r.paymentStep != s.paymentStep ==> t == CompletePayment && r.paymentStep == 3
    ensures r.sent != s.sent ==> s.embed && (t == ReplayAfterToggle || t == UnmuteAfterLoad)
    ensures r == s.(transitioning := r.transitioning, paymentStep := r.paymentStep, sent := r.sent)
  {
    match t
    case ReplayAfterToggle =>
      if s.embed then s.(sent := s.sent + [PlayVideo]) else s
    case UnmuteAfterLoad =>
      if s.embed then s.(sent := s.sent + [UnMute, PlayVideo]) else s
    case EndTransition =>
      s.(transitioning := false)
    case CompletePayment =>
      s.(paymentStep := 3)
  }

  /** A callback taking effect restores well-formedness that held while it was still pending. */
  lemma RunTimerKeepsWellFormed(s: FeedState, t: Timer)
    requires WellFormed(s.(timers := s.timers + [t]))
    ensures WellFormed(RunTimer(s, t))
  {
    assert multiset(s.timers + [t]) == multiset(s.timers) + multiset{t};
  }

  /** The pending callback at position `k` runs: it leaves the list, then takes effect. */
  function FireTimer(s: FeedState, k: nat): (r: FeedState)
    requires k < |s.timers|
    ensures WellFormed(s) ==> WellFormed(r)
    ensures multiset(r.timers) == multiset(s.timers) - multiset{s.timers[k]}
    ensures r.index == s.index && r.soundOn == s.soundOn && r.chatMode == s.chatMode
    ensures r.transitioning != s.transitioning ==> s.timers[k] == EndTransition && !r.transitioning
    ensures s.timers[k] == ReplayAfterToggle ==>
      r.sent == s.sent + (if s.embed then [PlayVideo] else [])
    ensures s.timers[k] == UnmuteAfterLoad ==>
      r.sent == s.sent + (if s.embed then [UnMute, PlayVideo] else [])
    ensures s.timers[k] == CompletePayment ==> r.paymentStep == 3
    ensures r == s.(timers := RemoveAt(s.timers, k), transitioning := r.transitioning,
                    paymentStep := r.paymentStep, sent := r.sent)
  {
    RemoveAtPending(s.timers, k, EndTransition);
    RemoveAtPending(s.timers, k, CompletePayment);
    RunTimer(s.(timers := RemoveAt(s.timers, k)), s.timers[k])
  }

  // ---------------------------------------------------------------------
  // Input
  // ---------------------------------------------------------------------

  /** Touch, wheel and most keys are ignored while an overlay is open. */
  predicate Blocked(s: FeedState) {
    s.chatMode != Closed
  }

  function Abs(x: int): nat {
    if x < 0 then -x else x
  }

  /** A move farther than this (strictly, in pixels) marks the gesture as a swipe. */
  const SwipeSlop: int := 10
  /** A release farther than this (strictly, in pixels) from the start navigates. */
  const SwipeCommit: int := 50

  /** handleTouchStart: remember where the finger went down; not a swipe yet. */
  function HandleTouchStart(s: FeedState, x: int, y: int): (r: FeedState)
    ensures WellFormed(s) ==> WellFormed(r)
    ensures Blocked(s) ==> r == s
    ensures !Blocked(s) ==> r == s.(touchX := x, touchY := y, swiping := false)
  {
    if Blocked(s) then s else s.(touchX := x, touchY := y, swiping := false)
  }

  /** handleTouchMove: a move beyond the slop marks a swipe; nothing ever unmarks it. */
  function HandleTouchMove(s: FeedState, y: int): (r: FeedState)
    ensures WellFormed(s) ==> WellFormed(r)
    ensures Blocked(s) ==> r == s
    ensures r == s.(swiping := r.swiping)
    ensures s.swiping ==> r.swiping
    ensures !Blocked(s) ==> (r.swiping <==> s.swiping || Abs(s.touchY - y) > SwipeSlop)
  {
    if Blocked(s) then s
    else if Abs(s.touchY - y) > SwipeSlop then s.(swiping := true)
    else s
  }

  /**
   * handleTouchEnd: a release more than 50 px above the start (finger moved
   * up, `diffY > 0`) goes to the next item, more than 50 px below to the
   * previous one; anything shorter does nothing here (a tap is left to the
   * click handler). The swipe mark is not consulted.
   */
  function HandleTouchEnd(s: FeedState, y: int): (r: FeedState)
    ensures WellFormed(s) ==> WellFormed(r)
    ensures Blocked(s) ==> r == s
    ensures Abs(s.touchY - y) <= SwipeCommit ==> r == s
    ensures !Blocked(s) && s.touchY - y > SwipeCommit ==> r == GoToNext(s)
    ensures !Blocked(s) && y - s.touchY > SwipeCommit ==> r == GoToPrev(s)
  {
    if Blocked(s) then s
    else
      var diffY := s.touchY - y;
      if Abs(diffY) > SwipeCommit then
        if diffY > 0 then GoToNext(s) else GoToPrev(s)
      else
        s
  }

  /**
   * handleOverlayClick: the click that ends a swipe is swallowed and clears
   * the mark; a genuine tap toggles the sound. The code has no overlay guard
   * here: while an overlay is open its panel covers this element.
   */
  function HandleOverlayClick(s: FeedState): (r: FeedState)
    ensures WellFormed(s) ==> WellFormed(r)
    ensures s.swiping ==> r == s.(swiping := false)
    ensures !s.swiping ==> r == ToggleSound(s)
    ensures !r.swiping
  {
    if s.swiping then s.(swiping := false) else ToggleSound(s)
  }

  /** What a key does while no overlay is open. */
  datatype KeyAction = Forward | Back | Leave | FlipSound | NoAction

  /** The keyboard map: ArrowDown/j forward, ArrowUp/k back, Escape leaves, space toggles sound. */
  function KeyActionOf(key: string): (a: KeyAction)
    ensures a == Forward <==> key == "ArrowDown" || key == "j"
    ensures a == Back <==> key == "ArrowUp" || key == "k"
    ensures a == Leave <==> key == "Escape"
    ensures a == FlipSound <==> key == " "
  {
    if key == "ArrowDown" || key == "j" then Forward
    else if key == "ArrowUp" || key == "k" then Back
    else if key == "Escape" then Leave
    else if key == " " then FlipSound
    else NoAction
  }

  /**
   * handleKeyDown: with an overlay open only Escape acts, and it closes the
   * overlay (without resetting the payment step); otherwise the key map
   * decides, and Escape asks the host to close the feed.
   */
  function HandleKeyDown(s: FeedState, key: string): (r: FeedState)
    ensures WellFormed(s) ==> WellFormed(r)
    ensures Blocked(s) ==> r == (if key == "Escape" then s.(chatMode := Closed) else s)
    ensures !Blocked(s) ==> r.chatMode == Closed
    ensures !Blocked(s) && KeyActionOf(key) == Forward ==> r == GoToNext(s)
    ensures !Blocked(s) && KeyActionOf(key) == Back ==> r == GoToPrev(s)
    ensures !Blocked(s) && KeyActionOf(key) == Leave ==> r == s.(requests := s.requests + [CloseFeed])
    ensures !Blocked(s) && KeyActionOf(key) == FlipSound ==> r == ToggleSound(s)
    ensures !Blocked(s) && KeyActionOf(key) == NoAction ==> r == s
  {
    if Blocked(s) then
      if key == "Escape" then s.(chatMode := Closed) else s
    else
      match KeyActionOf(key)
      case Forward => GoToNext(s)
      case Back => GoToPrev(s)
      case Leave => s.(requests := s.requests + [CloseFeed])
      case FlipSound => ToggleSound(s)
      case NoAction => s
  }

  /** handleWheel: scrolling down goes forward, up goes back, a zero delta does nothing. */
  function HandleWheel(s: FeedState, deltaY: int): (r: FeedState)
    ensures WellFormed(s) ==> WellFormed(r)
    ensures Blocked(s) || deltaY == 0 ==> r == s
    ensures !Blocked(s) && deltaY > 0 ==> r == GoToNext(s)
    ensures !Blocked(s) && deltaY < 0 ==> r == GoToPrev(s)
  {
    if Blocked(s) then s
    else if deltaY > 0 then GoToNext(s)
    else if deltaY < 0 then GoToPrev(s)
    else s
  }

  // ---------------------------------------------------------------------
  // Interest marks (bookmarks)
  // ---------------------------------------------------------------------

  /** `interested[id]`, where a missing key reads as `undefined`, i.e. false. */
  function IsMarked(m: map<string, bool>, id: string): bool {
    id in m && m[id]
  }

  /**
   * toggleInterest on the current item: without a signed-in user nothing
   * changes. Otherwise the mark flips at once (optimistically); turning it on
   * also issues the bookmark write, which settles later.
   */
  function ToggleInterest(s: FeedState, user: Option<string>): (r: FeedState)
    requires 0 <= s.index < |s.items|
    ensures WellFormed(s) ==> WellFormed(r)
    ensures user.None? ==> r == s
    ensures user.Some? ==>
      var id := s.items[s.index].id;
      && IsMarked(r.interested, id) == !IsMarked(s.interested, id)
      && (forall other :: other != id ==> IsMarked(r.interested, other) == IsMarked(s.interested, other))
      && (if IsMarked(r.interested, id)
          then r.inflight == s.inflight + [id] &&
               r.stored == s.stored + [BookmarkWrite(user.value, id, s.items[s.index])]
          else r.inflight == s.inflight && r.stored == s.stored)
    ensures r == s.(interested := r.interested, inflight := r.inflight, stored := r.stored)
  {
    if user.None? then
      s
    else
      var v := s.items[s.index];
      var newState := !IsMarked(s.interested, v.id);
      var marked := s.(interested := s.interested[v.id := newState]);
      if newState then
        marked.(inflight := s.inflight + [v.id],
                stored := s.stored + [BookmarkWrite(user.value, v.id, v)])
      else
        marked
  }

  /** The bookmark write at position `k` settles; a failure rolls that id's mark back to false. */
  function BookmarkSettled(s: FeedState, k: nat, ok: bool): (r: FeedState)
    requires k < |s.inflight|
    ensures WellFormed(s) ==> WellFormed(r)
    ensures r.inflight == RemoveAt(s.inflight, k)
    ensures ok ==> r.interested == s.interested
    ensures !ok ==> !IsMarked(r.interested, s.inflight[k])
    ensures forall other :: other != s.inflight[k] ==> IsMarked(r.interested, other) == IsMarked(s.interested, other)
    ensures r == s.(interested := r.interested, inflight := r.inflight)
  {
    var rest := RemoveAt(s.inflight, k);
    if ok then s.(inflight := rest)
    else s.(inflight := rest, interested := s.interested[s.inflight[k] := false])
  }

  /** `auth.currentUser?.uid || 'anonymous'`: an absent or empty uid becomes "anonymous". */
  function UserIdOrAnonymous(user: Option<string>): (uid: string)
    ensures uid != ""
    ensures user.Some? && user.value != "" ==> uid == user.value
    ensures user.None? || user.value == "" ==> uid == "anonymous"
  {
    if user.Some? && user.value != "" then user.value else "anonymous"
  }

  // ---------------------------------------------------------------------
  // Events
  // ---------------------------------------------------------------------

  /** Everything that can happen to the component, one browser callback each. */
  datatype Event =
    | TouchStart(x: int, y: int)
    | TouchMove(y: int)
    | TouchEnd(y: int)
    | OverlayClick
    | KeyPress(key: string)
    | WheelTurn(deltaY: int)
    | EmbedLoaded                        // the iframe's onLoad
    | EmbedRemoved                       // unmount: iframeRef.current becomes null, timers live on
    | InterestClick(user: Option<string>)
    | BookmarkWriteDone(w: nat, ok: bool)
    | AskClick                           // "ask about this job"
    | SelectBackClick
    | OneOnOneChoice
    | FreeQuestionChoice
    | InfoBackClick
    | PayClick(user: Option<string>)
    | PaymentCloseClick                  // the close button or a click on the backdrop
    | PaymentNextClick
    | GuideNextClick
    | GuidePrevClick
    | GuideCloseClick                    // "start" on the last page or "skip" before it
    | TimerFired(k: nat)

  /** Whether the control behind an event exists in state `s`: buttons are rendered only in their screen. */
  predicate Enabled(s: FeedState, e: Event) {
    match e
    case BookmarkWriteDone(w, _) => w < |s.inflight|
    case TimerFired(k) => k < |s.timers|
    case SelectBackClick => s.chatMode == Select
    case OneOnOneChoice => s.chatMode == Select
    case FreeQuestionChoice => s.chatMode == Select
    case InfoBackClick => s.chatMode == OneOnOneInfo
    case PayClick(_) => s.chatMode == OneOnOneInfo
    case PaymentCloseClick => s.chatMode == Payment
    case PaymentNextClick => s.chatMode == Payment && s.paymentStep == 1
    case GuideNextClick => s.showGuide && s.guideStep < 3
    case GuidePrevClick => s.showGuide && s.guideStep > 0
    case GuideCloseClick => s.showGuide
    case _ => true
  }

  /** Events of the overlay screens: the mentor panels, the payment simulation and the guide. */
  predicate IsOverlayEvent(e: Event) {
    e.AskClick? || e.SelectBackClick? || e.OneOnOneChoice? || e.FreeQuestionChoice? ||
    e.InfoBackClick? || e.PayClick? || e.PaymentCloseClick? || e.PaymentNextClick? ||
    e.GuideNextClick? || e.GuidePrevClick? || e.GuideCloseClick?
  }

  /**
   * The overlay machine: `null -> 'select' -> 'oneOnOneInfo' -> 'payment'`
   * with back buttons, the free question leaving to the host's chat, "pay"
   * logging the click and starting at step 1, "next" going to step 2 and
   * scheduling step 3, closing the payment resetting the step; the guide pages
   * 0..3 with previous/next and close.
   */
  function OverlayStep(s: FeedState, e: Event): (r: FeedState)
    requires WellFormed(s) && Enabled(s, e) && IsOverlayEvent(e)
    ensures WellFormed(r)
    ensures r.index == s.index && r.transitioning == s.transitioning && r.soundOn == s.soundOn
    ensures r.sent == s.sent && r.items == s.items
  {
    match e
    case AskClick => s.(mentor := Some(s.items[s.index]), chatMode := Select)
    case SelectBackClick => s.(chatMode := Closed)
    case OneOnOneChoice => s.(chatMode := OneOnOneInfo)
    case FreeQuestionChoice => s.(requests := s.requests + [StartChat(s.mentor.value)], chatMode := Closed)
    case InfoBackClick => s.(chatMode := Select)
    case PayClick(user) =>
      var m := s.mentor.value;
      s.(stored := s.stored + [OneOnOneIntent(m.id, m.username, m.role, UserIdOrAnonymous(user), OneOnOneAmount, OneOnOneStatus)],
         chatMode := Payment, paymentStep := 1)
    case PaymentCloseClick => s.(chatMode := Closed, paymentStep := 1)
    case PaymentNextClick => s.(paymentStep := 2, timers := s.timers + [CompletePayment])
    case GuideNextClick => s.(guideStep := s.guideStep + 1)
    case GuidePrevClick => s.(guideStep := s.guideStep - 1)
    case GuideCloseClick => s.(showGuide := false)
  }

  /** Events from the user's finger, mouse and keyboard on the feed itself. */
  predicate IsInputEvent(e: Event) {
    e.TouchStart? || e.TouchMove? || e.TouchEnd? || e.OverlayClick? || e.KeyPress? || e.WheelTurn?
  }

  /** The input handlers. */
  function InputStep(s: FeedState, e: Event): (r: FeedState)
    requires WellFormed(s) && IsInputEvent(e)
    ensures WellFormed(r)
    ensures r.items == s.items
  {
    match e
    case TouchStart(x, y) => HandleTouchStart(s, x, y)
    case TouchMove(y) => HandleTouchMove(s, y)
    case TouchEnd(y) => HandleTouchEnd(s, y)
    case OverlayClick => HandleOverlayClick(s)
    case KeyPress(key) => HandleKeyDown(s, key)
    case WheelTurn(deltaY) => HandleWheel(s, deltaY)
  }

  /** The embed's life cycle, settled store writes, and timer callbacks. */
  function AsyncStep(s: FeedState, e: Event): (r: FeedState)
    requires WellFormed(s) && Enabled(s, e) && !IsInputEvent(e) && !IsOverlayEvent(e)
    ensures WellFormed(r)
    ensures r.items == s.items
  {
    match e
    case EmbedLoaded => HandleVideoLoad(s)
    case EmbedRemoved => s.(embed := false)
    case InterestClick(user) => ToggleInterest(s, user)
    case BookmarkWriteDone(w, ok) => BookmarkSettled(s, w, ok)
    case TimerFired(k) => FireTimer(s, k)
  }

  /** One event; an event whose control is not on screen changes nothing. */
  function Step(s: FeedState, e: Event): (r: FeedState)
    requires WellFormed(s)
    ensures WellFormed(r)
    ensures r.items == s.items
  {
    if !Enabled(s, e) then s
    else if IsOverlayEvent(e) then OverlayStep(s, e)
    else if IsInputEvent(e) then InputStep(s, e)
    else AsyncStep(s, e)
  }

  /** A sequence of events, oldest first. Every reachable state is well formed. */
  function Run(s: FeedState, es: seq<Event>): (r: FeedState)
    requires WellFormed(s)
    ensures WellFormed(r)
    ensures r.items == s.items
    decreases |es|
  {
    if es == [] then s else Run(Step(s, es[0]), es[1..])
  }
}
