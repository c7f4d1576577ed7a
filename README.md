# Reels job-discovery app: a verified model of its core

The app shows job postings as short videos. It has four main parts:

- **The reels feed** (`ReelsView`) shows one YouTube embed at a time from a list that is shuffled once when the feed opens.
  - Users navigate by swipe, wheel or keyboard. A 300 ms cooldown follows each move.
  - A tap toggles the sound. The wish is kept in a page-wide flag that outlives the feed and is applied by posting player commands to the embed.
  - A user can mark an item as interesting, which writes a bookmark.
  - From the feed, a user can open the mentor panels (a free question or a paid one-on-one with a simulated checkout) and page through a first-visit guide.
- **The dashboard** lists the saved jobs derived from the bundled vlogs. A free-text search and tag chips narrow the list.
- **The application shell** (`App`) routes between the dashboard, the chat layout, the reels overlay and the admin panel. It also holds the admin flag and opens chats.
- **The saved-videos screen** (`BookmarksView`) listens to the user's bookmark documents and sorts them newest first in place. It shows a card with a thumbnail for every bookmark that carries its vlog.

The model has these files:

- `feed.dfy`: the feed controller as a value, `Feed.FeedState`, with one function per browser callback.
  - It includes the timer callbacks, the command log, the store writes and the host callbacks.
  - `Feed.WellFormed` is the invariant that every handler keeps.
  - `Step` and `Run` replay sequences of events.
- `feed_properties.dfy`: lemmas that span several events. They cover the cooldown, swipe versus tap, the sound sequences, the bookmark rollback and the overlay paths.
- `reels.dfy`: the same component as a class. `GlobalSound` is the page-wide sound flag.
  - `ReelsController` keeps the state and refs as fields.
  - Each of its methods is proved to update the fields exactly as the matching `Feed` function says. Every `Feed` lemma therefore holds of the object.
  - The constructor shuffles in place (`shuffle.dfy`).
- `dashboard.dfy`: the dashboard's pure list functions.
- `app.dfy`: the shell as a class plus its pure screen selection.
- `bookmarks.dfy`: the saved-videos screen. It includes the in-place sort, and a map-of-collections store that compares where bookmarks are written with where they are read.

Environment inputs are parameters:

| what the source uses | how the model receives it |
|---|---|
| `Math.random` draws | a choice sequence `js` with `js[i] <= i` |
| the signed-in user | `Option<string>` |
| `localStorage` values | `Option<string>` or a `guideSeen` flag |
| the page origin | `origin` |
| `toLowerCase` | a function `lower` |
| timers | pending callbacks that fire in any order |
| store calls | writes whose outcome (`ok`) is a parameter |

## Model

| member | source | states |
|---|---|---|
| Shuffle.SwapExchanges | src/components/ReelsView.jsx:28 | The destructuring swap exchanges the two cells, keeps every other cell, and keeps the multiset. |
| Shuffle.ShuffleFromPermutes | src/components/ReelsView.jsx:26-29 | The remaining swaps of the loop preserve length and multiset, for any legal draws. |
| Shuffle.ShuffledIsPermutation | src/components/ReelsView.jsx:24-31 | The shuffled feed has the same length and the same multiset of vlogs as the bundle. |
| Shuffle.SwapCells | src/components/ReelsView.jsx:28 | The swap on the array leaves it equal to `Swapped` of its old contents. |
| Shuffle.ShuffleInPlace | src/components/ReelsView.jsx:24-31 | The in-place Fisher–Yates loop leaves the array equal to the `Shuffled` specification of its old contents and permutes it. |
| Feed.MessageInjective | src/components/ReelsView.jsx:80-87 | The JSON command messages posted to the embed are distinct for distinct commands. |
| Feed.AudioCommand | src/components/ReelsView.jsx:77 | The audio command is `unMute` exactly when sound is wanted, otherwise `mute`, and never `playVideo`. |
| Feed.EmbedUrl | src/components/ReelsView.jsx:295 | The embed source is the embed path, the video id, the player flags (`autoplay=1`, `mute=1`, `controls=0`, `playsinline=1`, `loop=1`, ending in `playlist=`), the video id again as the one-item playlist, the tail flags (including `enablejsapi=1`, ending in `origin=`), then the page origin. |
| Feed.EmbedUrlInjective | src/components/ReelsView.jsx:295 | On one page, different videos have different embed sources. |
| Feed.RemoveAt | src/components/ReelsView.jsx:93-99 | A callback that runs leaves the pending list: one entry fewer, multiset minus that entry. |
| Feed.RemoveAtPending | src/components/ReelsView.jsx:93-99 | Running a callback lowers the pending count of its own kind by one and leaves the other kinds' counts alone. |
| Feed.Initial | src/components/ReelsView.jsx:32-62 | After mounting: index 0, no transition, nothing open, the indicator synced with the global flag, the guide shown iff not seen before; the state is well formed. |
| Feed.GoToNext | src/components/ReelsView.jsx:137-143 | The index moves by exactly +1 iff not at the last item and not mid-transition. A move sets the transition and schedules its end. Otherwise nothing changes. Well-formedness is kept. |
| Feed.GoToPrev | src/components/ReelsView.jsx:145-151 | The mirror of GoToNext: −1 iff not at the first item and not mid-transition. |
| Feed.ToggleSound | src/components/ReelsView.jsx:70-100 | With no embed nothing changes. Otherwise the global flag flips and the indicator follows. Exactly `playVideo` then `unMute`/`mute` are appended, and one deferred replay is queued. Nothing else changes. |
| Feed.HandleVideoLoad | src/components/ReelsView.jsx:103-131 | Only the command log and the timers change. `playVideo` always goes first. With sound wanted, the unmute is deferred; otherwise `mute` is sent at once. |
| Feed.RunTimer | src/components/ReelsView.jsx:114-125 | A callback changes nothing but the command log, the transition flag and the payment step. Commands go out only if the embed is present. Only the end-of-transition callback clears the transition. Only the payment callback changes the step, and it sets 3. |
| Feed.FireTimer | src/components/ReelsView.jsx:93-99 | Running a pending callback removes it from the pending list and otherwise changes only the command log, the transition flag and the payment step. It sends exactly the deferred commands when the embed is present, and keeps well-formedness. |
| Feed.RunTimerKeepsWellFormed | src/components/ReelsView.jsx:93-99 | A callback taking effect restores the invariant that held while it was pending; the end-of-transition callback clears the transition it ended. |
| Feed.HandleTouchStart | src/components/ReelsView.jsx:153-160 | Blocked by an open overlay. Otherwise it records the start and clears the swipe mark. |
| Feed.HandleTouchMove | src/components/ReelsView.jsx:162-171 | Blocked by an open overlay. The swipe mark is set iff the move passes 10 px (strict), and a set mark is never cleared. |
| Feed.HandleTouchEnd | src/components/ReelsView.jsx:173-184 | Blocked by an open overlay. A release more than 50 px up is exactly GoToNext, more than 50 px down exactly GoToPrev; otherwise nothing. |
| Feed.HandleOverlayClick | src/components/ReelsView.jsx:187-199 | A click after a swipe is swallowed and clears the mark. Otherwise it is exactly ToggleSound. |
| Feed.KeyActionOf | src/components/ReelsView.jsx:229-232 | The key map, each action in both directions: ArrowDown/j forward, ArrowUp/k back, Escape leave, space sound. |
| Feed.HandleKeyDown | src/components/ReelsView.jsx:224-233 | With an overlay open, only Escape acts and closes it. Otherwise each key does exactly its mapped action, and Escape asks the host to close the feed. |
| Feed.HandleWheel | src/components/ReelsView.jsx:239-244 | Blocked by an open overlay. A positive delta is GoToNext, a negative one GoToPrev, zero nothing. |
| Feed.ToggleInterest | src/components/ReelsView.jsx:252 | Without a user nothing changes. Otherwise the current item's mark flips and other marks stay. A write is issued only when turning the mark on. |
| Feed.BookmarkSettled | src/components/ReelsView.jsx:252 | A settled write leaves the in-flight list. A failure sets that id's mark to false and leaves other marks alone. |
| Feed.UserIdOrAnonymous | src/components/ReelsView.jsx:251 | The logged user id is the uid, or "anonymous" when it is absent or empty. |
| Feed.OverlayStep | src/components/ReelsView.jsx:353-357 | Mentor panel, payment and guide buttons keep well-formedness (guide step within 0..3, payment step within 1..3, mentor set while open). They never move the feed, send a command or touch the sound. |
| Feed.InputStep | src/components/ReelsView.jsx:223-248 | The input handlers keep well-formedness and the item list. |
| Feed.AsyncStep | src/components/ReelsView.jsx:103-131 | Embed load and removal, interest clicks, settled writes and callbacks keep well-formedness and the item list. |
| Feed.Step | src/components/ReelsView.jsx:24-31 | Every event keeps well-formedness, and the shuffled list never changes after mounting. |
| Feed.Run | src/components/ReelsView.jsx:24-31 | Every reachable state is well formed and shows the same shuffled list. |
| FeedProperties.RunAppend | src/components/ReelsView.jsx:223-248 | Replaying events is compositional. |
| FeedProperties.StepMovesAtMostOne | src/components/ReelsView.jsx:137-151 | Any event moves the index by at most one. A move happens only outside a transition and starts one. Only the end-of-transition callback ends it. |
| FeedProperties.InputMovesAtMostOne | src/components/ReelsView.jsx:173-184 | Each input handler performs at most one navigation. |
| FeedProperties.KeyMovesAtMostOne | src/components/ReelsView.jsx:224-233 | A key press performs at most one navigation, and only outside a transition. |
| FeedProperties.OneMovePerCooldown | src/components/ReelsView.jsx:137-151 | Until the 300 ms callback runs, any burst of events changes the index at most once, by one, and not at all during a transition. |
| FeedProperties.BeyondSlopCons | src/components/ReelsView.jsx:168 | A gesture passes the slop iff its first move or a later one does. |
| FeedProperties.MovesOnlyMarkSwipe | src/components/ReelsView.jsx:162-171 | The moves of a gesture change only the swipe mark, which ends set iff some move passed 10 px. |
| FeedProperties.GestureOutcome | src/components/ReelsView.jsx:153-184 | A whole gesture equals the release handled from the recorded start, with the swipe mark taken from the moves. |
| FeedProperties.TapTogglesSound | src/components/ReelsView.jsx:187-199 | A tap does not navigate, and its click toggles the sound. |
| FeedProperties.SwipeUpGoesForward | src/components/ReelsView.jsx:173-199 | An upward swipe beyond 50 px does exactly one GoToNext, and its click is swallowed. |
| FeedProperties.SwipeDownGoesBack | src/components/ReelsView.jsx:173-199 | A downward swipe beyond 50 px does exactly one GoToPrev, and its click is swallowed. |
| FeedProperties.ToggleTwiceRestores | src/components/ReelsView.jsx:70-100 | Two toggles restore the flag and the indicator; both command sandwiches were sent in order. |
| FeedProperties.UnmuteFollowsLoad | src/components/ReelsView.jsx:112-125 | After sound is turned on, a load defers `unMute` then `playVideo`, in that order. |
| FeedProperties.NoCommandsAfterEmbedGone | src/components/ReelsView.jsx:94 | Once the embed is gone, no callback sends anything. |
| FeedProperties.FailedBookmarkRollsBack | src/components/ReelsView.jsx:252 | Marking and then a failed write restores every mark and the in-flight list. |
| FeedProperties.OverlaySuspendsInput | src/components/ReelsView.jsx:224-227 | With an overlay open, touch, wheel and keys change nothing, except Escape, which closes it. |
| FeedProperties.OverlayTransitions | src/components/ReelsView.jsx:353-936 | The overlay state machine, one exact new state per button. Ask opens the choice panel on the current item. The back arrows return one screen. The free question hands the mentor to the host and closes. Pay logs the click and opens step 1. Close resets the step to 1. Next goes to step 2 and schedules completion. The guide moves by one page or closes. |
| FeedProperties.AskThenBack | src/components/ReelsView.jsx:353-395 | Ask, then the back arrow, closes again; only the remembered mentor differs. |
| FeedProperties.OneOnOneThenBack | src/components/ReelsView.jsx:405-433 | One-on-one, then its back arrow, returns to exactly the state before. |
| FeedProperties.GuideNextThenPrev | src/components/ReelsView.jsx:928-936 | The guide's previous page undoes its next page exactly. |
| FeedProperties.CheckoutPath | src/components/ReelsView.jsx:538-542 | Ask, one-on-one, pay: the payment opens at step 1 for the item on screen, and the click with amount 20000 and status "clicked" is logged. |
| FeedProperties.NextThenClose | src/components/ReelsView.jsx:554-562 | Closing the payment after "next" leaves its completion callback pending. |
| FeedProperties.CompletionFires | src/components/ReelsView.jsx:755 | The completion callback sets step 3 and leaves the overlay as it is. |
| FeedProperties.CompletionOutlivesClose | src/components/ReelsView.jsx:752-756 | A payment reopened after closing shows step 3 when the old callback fires, though its own "next" was never pressed. |
| Reels.GlobalSound.constructor | src/components/ReelsView.jsx:21 | The page-wide sound wish starts off. |
| Reels.ReelsController.constructor | src/components/ReelsView.jsx:24-62 | The items are the in-place shuffle of the bundle (a permutation), and the object's state is `Feed.Initial` of them. |
| Reels.ReelsController.GoToNext | src/components/ReelsView.jsx:137-143 | The fields become `Feed.GoToNext` of the old state; validity is kept. |
| Reels.ReelsController.GoToPrev | src/components/ReelsView.jsx:145-151 | The fields become `Feed.GoToPrev` of the old state. |
| Reels.ReelsController.ToggleSound | src/components/ReelsView.jsx:70-100 | The fields and the global flag become `Feed.ToggleSound` of the old state. |
| Reels.ReelsController.HandleVideoLoad | src/components/ReelsView.jsx:103-131 | The fields become `Feed.HandleVideoLoad` of the old state. |
| Reels.ReelsController.Unmount | src/components/ReelsView.jsx:53 | Unmounting clears only the embed reference; pending callbacks stay. |
| Reels.ReelsController.FireTimer | src/components/ReelsView.jsx:93-99 | The fields become `Feed.FireTimer` of the old state. |
| Reels.ReelsController.RunTimer | src/components/ReelsView.jsx:114-125 | Given a state valid while the callback was pending, the fields become `Feed.RunTimer` of the old state, and the object is valid again. |
| Reels.ReelsController.HandleTouchStart | src/components/ReelsView.jsx:153-160 | The fields become `Feed.HandleTouchStart` of the old state. |
| Reels.ReelsController.HandleTouchMove | src/components/ReelsView.jsx:162-171 | The fields become `Feed.HandleTouchMove` of the old state. |
| Reels.ReelsController.HandleTouchEnd | src/components/ReelsView.jsx:173-184 | The fields become `Feed.HandleTouchEnd` of the old state. |
| Reels.ReelsController.HandleOverlayClick | src/components/ReelsView.jsx:187-199 | The fields become `Feed.HandleOverlayClick` of the old state. |
| Reels.ReelsController.HandleKeyDown | src/components/ReelsView.jsx:224-233 | The four independent key tests together give `Feed.HandleKeyDown` of the old state. |
| Reels.ReelsController.HandleWheel | src/components/ReelsView.jsx:239-244 | The fields become `Feed.HandleWheel` of the old state. |
| Reels.ReelsController.ToggleInterest | src/components/ReelsView.jsx:252 | The fields become `Feed.ToggleInterest` of the old state. |
| Reels.ReelsController.BookmarkSettled | src/components/ReelsView.jsx:252 | The fields become `Feed.BookmarkSettled` of the old state. |
| Reels.ReelsController.AskQuestion | src/components/ReelsView.jsx:353-357 | The current item becomes the mentor and the choice panel opens, as `Feed.OverlayStep` says. |
| Reels.ReelsController.SelectBack | src/components/ReelsView.jsx:395 | The choice panel closes. |
| Reels.ReelsController.ChooseOneOnOne | src/components/ReelsView.jsx:405 | The choice panel moves on to the one-on-one page. |
| Reels.ReelsController.ChooseFreeQuestion | src/components/ReelsView.jsx:411-413 | The mentor is handed to the host's chat start, then the panel closes. |
| Reels.ReelsController.InfoBack | src/components/ReelsView.jsx:433 | The one-on-one page returns to the choice panel. |
| Reels.ReelsController.Pay | src/components/ReelsView.jsx:538-542 | The click is logged and the payment opens at step 1. |
| Reels.ReelsController.ClosePayment | src/components/ReelsView.jsx:554-562 | The overlay closes and the step resets to 1. |
| Reels.ReelsController.PaymentNext | src/components/ReelsView.jsx:752-756 | Step 2, with completion scheduled. |
| Reels.ReelsController.GuideNext | src/components/ReelsView.jsx:936 | The guide goes to the next page (below 3). |
| Reels.ReelsController.GuidePrev | src/components/ReelsView.jsx:928 | The guide goes to the previous page (above 0). |
| Reels.ReelsController.CloseGuide | src/components/ReelsView.jsx:64-67 | The guide closes. |
| Dashboard.NatToString | src/components/Dashboard.jsx:23 | Decimal digits with no leading zero. |
| Dashboard.NatToStringRoundTrip | src/components/Dashboard.jsx:23 | Reading the printed digits back gives the number. |
| Dashboard.PostedDatesDistinct | src/components/Dashboard.jsx:23 | Different ages print differently. |
| Dashboard.JobType | src/components/Dashboard.jsx:21 | The type is the first tag, or "Full time" when that tag is missing or empty; it is never empty. |
| Dashboard.JobOf | src/components/Dashboard.jsx:15-28 | Each job field comes from its vlog; location "Remote", posted `index+2` days ago, not bookmarked. |
| Dashboard.AllJobs | src/components/Dashboard.jsx:15-28 | One job per vlog in the same order. Each job is `JobOf` its vlog and position: id, title, company, type, tags, description, video and posted date. |
| Dashboard.ContainsHasPosition | src/components/Dashboard.jsx:67-68 | A successful `includes` has a position where the needle occurs. |
| Dashboard.PositionGivesContains | src/components/Dashboard.jsx:67-68 | An occurrence at any position makes `includes` succeed. |
| Dashboard.ContainsMeansOccurs | src/components/Dashboard.jsx:67-68 | `includes` holds iff the needle occurs at some position (both directions). |
| Dashboard.FilteredJobs | src/components/Dashboard.jsx:62-75 | Every listed job is bookmarked, saved, and matches the search and the tags; the list is no longer than the jobs. |
| Dashboard.MarkAll | src/components/Dashboard.jsx:72-75 | Every job gets its flag set. |
| Dashboard.FilteredIsSubsequence | src/components/Dashboard.jsx:62-75 | The list is a subsequence of all jobs (flagged), in the same order. |
| Dashboard.FilteredIsComplete | src/components/Dashboard.jsx:63-71 | Every saved job that passes both filters is listed. |
| Dashboard.Saved | src/components/Dashboard.jsx:65 | The saved jobs alone, flagged. |
| Dashboard.NoCriteriaShowsAllSaved | src/components/Dashboard.jsx:67-69 | An empty query and no chips list exactly the saved jobs. |
| Dashboard.RemoveAll | src/components/Dashboard.jsx:55 | The filter removes every copy of the value and keeps every other value. |
| Dashboard.Toggle | src/components/Dashboard.jsx:54-58 | A present value is removed (every copy), an absent one appended at the end, and other values keep their membership. |
| Dashboard.RemoveAllKeepsOrder | src/components/Dashboard.jsx:55 | Removing keeps the others in relative order. |
| Dashboard.ToggleTwiceRestoresMembership | src/components/Dashboard.jsx:52-59 | Toggling twice restores the membership of every value. |
| Dashboard.AddThenRemoveRestores | src/components/Dashboard.jsx:52-59 | Adding and then removing an absent value gives back the exact list. |
| Dashboard.Initial | src/components/Dashboard.jsx:8-12 | Loading, with nothing saved, no query and no chips. |
| Dashboard.LoadBookmarks | src/components/Dashboard.jsx:34-50 | Without a user nothing changes and loading stays. Otherwise loading ends, and on success the fetched ids replace the list. |
| Dashboard.ToggleBookmark | src/components/Dashboard.jsx:52-59 | The job id's membership flips, other ids keep theirs, and nothing else changes. |
| Dashboard.ToggleTag | src/components/Dashboard.jsx:144-150 | The tag's membership flips, other tags keep theirs, and nothing else changes. |
| Dashboard.ClearTags | src/components/Dashboard.jsx:162 | After "Clear All" the tag filter passes every job. |
| Dashboard.FindVlog | src/components/Dashboard.jsx:80 | A vlog is found iff one has the id. The one found has that id, and no earlier vlog has it (the first match, as `find` returns). |
| Dashboard.JobClick | src/components/Dashboard.jsx:79-84 | A chat is started iff a vlog with the job's id exists. |
| Dashboard.ListedJobsOpenChats | src/components/Dashboard.jsx:79-84 | Every listed job, when clicked, starts a chat. |
| App.InitialAdmin | src/App.jsx:26-28 | Admin iff the stored value is exactly "true". |
| App.ChatId | src/App.jsx:57 | The chat id is the uid, an underscore, then the vlog id. |
| App.FirstUnderscore | src/App.jsx:57 | The first underscore of a string. |
| App.ChatIdInjective | src/App.jsx:57 | For uids without underscores, the chat id determines the (user, vlog) pair. |
| App.FirstUnderscoreAfter | src/App.jsx:57 | After an underscore-free uid, the first underscore is the separator. |
| App.ChatDocFor | src/App.jsx:58-67 | The merged chat document names the guest, the vlogger and the chat id. |
| App.ChatFor | src/App.jsx:69-76 | The opened chat carries the document's id and vlogger fields. |
| App.ScreenOf | src/App.jsx:104-264 | Spinner iff loading. The error page iff the error message is non-empty (JavaScript truthiness) or there is no user. The dashboard iff view is dashboard. The admin panel iff view is admin and the user is admin. Reels overlay iff view is reels. |
| App.AdminViewNeedsFlag | src/App.jsx:211-214 | The admin view without the flag falls through to the chat layout. |
| App.AppShell.constructor | src/App.jsx:20-29 | Dashboard view, loading, no user, and the admin flag read from the device. |
| App.AppShell.AuthStateChanged | src/App.jsx:34-39 | A user ends loading; a signed-out notice changes nothing. |
| App.AppShell.SignInFailed | src/App.jsx:41-48 | The message (possibly absent) is kept and loading ends. The error page shows iff the message is non-empty or no user has been reported; a failure after the listener set a user, with an empty message, keeps the main layout. |
| App.AppShell.StartChat | src/App.jsx:55-67 | Without a user nothing happens. Otherwise the chat document is written. View and chat are unchanged. |
| App.AppShell.ChatWriteSettled | src/App.jsx:60-77 | Only a successful write opens the chat and the chat view; a failed one changes neither. |
| App.AppShell.AdminClick | src/App.jsx:87-95 | An admin goes to the admin view. Anyone else gets the login modal, and the view stays. |
| App.AppShell.AdminLogin | src/App.jsx:97-102 | Admin, remembered, modal closed, admin view. |
| App.AppShell.AdminCancel | src/App.jsx:162 | The modal closes; nothing else changes. |
| App.AppShell.Logout | src/App.jsx:80-85 | The flag is cleared and forgotten, so a restart is not admin. |
| App.AppShell.SetView | src/App.jsx:170 | The view is set; nothing else changes. |
| App.AppShell.SelectChat | src/App.jsx:243 | The chosen chat opens; nothing else changes. |
| Bookmarks.ToRecord | src/components/BookmarksView.jsx:24-27 | The record copies the data; an `id` inside the data overrides the document id. |
| Bookmarks.Records | src/components/BookmarksView.jsx:24-27 | One record per document, in snapshot order. |
| Bookmarks.SortKey | src/components/BookmarksView.jsx:30-31 | The key is the timestamp's seconds, or 0 when it is missing. |
| Bookmarks.SwapLeft | src/components/BookmarksView.jsx:29-33 | An adjacent swap during a pass keeps the pass invariant. |
| Bookmarks.PassDone | src/components/BookmarksView.jsx:29-33 | Where a pass stops, the prefix is in order. |
| Bookmarks.Insert | src/components/BookmarksView.jsx:29-33 | One pass orders the prefix one longer and permutes the array. |
| Bookmarks.SortNewestFirst | src/components/BookmarksView.jsx:29-33 | The in-place sort orders by non-increasing key, is a permutation, and leaves equal-key input untouched. |
| Bookmarks.BookmarksScreen.constructor | src/components/BookmarksView.jsx:7-8 | Empty list, loading. |
| Bookmarks.BookmarksScreen.NoUser | src/components/BookmarksView.jsx:11-13 | No fetch; the end of loading is scheduled. |
| Bookmarks.BookmarksScreen.OnSnapshot | src/components/BookmarksView.jsx:21-35 | The list becomes a newest-first permutation of the snapshot's records (snapshot order when all keys are equal), and the end of loading is scheduled. |
| Bookmarks.BookmarksScreen.OnSnapshotError | src/components/BookmarksView.jsx:37-40 | The list stays; the end of loading is scheduled. |
| Bookmarks.BookmarksScreen.LoadingOff | src/components/BookmarksView.jsx:35 | Loading ends. |
| Bookmarks.Visible | src/components/BookmarksView.jsx:100-102 | The cards are exactly the records that carry a vlog; there are no more of them than records. |
| Bookmarks.VisibleCounts | src/components/BookmarksView.jsx:100-102 | Each record that carries a vlog gets as many cards as it has copies in the list, and the others get none. |
| Bookmarks.VisibleIsSubsequence | src/components/BookmarksView.jsx:100-102 | The cards keep the list's order: they are the records with some dropped. |
| Bookmarks.VisibleKeepsOrder | src/components/BookmarksView.jsx:29-33 | A newest-first list shows its cards newest first. |
| Bookmarks.AllVisibleIffAllCarryVlog | src/components/BookmarksView.jsx:69 | The card count equals the header total iff every record carries its vlog. |
| Bookmarks.ThumbnailUrl | src/components/BookmarksView.jsx:112 | The thumbnail is the image host prefix, the video id, then `/maxresdefault.jpg`. |
| Bookmarks.FallbackThumbnailUrl | src/components/BookmarksView.jsx:116 | The fallback is the same prefix and video id, then `/hqdefault.jpg`. |
| Bookmarks.ThumbnailsDistinct | src/components/BookmarksView.jsx:112-116 | Different videos never share a thumbnail, and the fallback differs from the failed image. |
| Bookmarks.AddDoc | src/components/BookmarksView.jsx:16-19 | Adding a document changes only its own collection. |
| Bookmarks.OwnedBy | src/components/BookmarksView.jsx:18 | The query keeps exactly the documents whose `userId` is the user. |
| Bookmarks.BookmarkDoc | src/components/ReelsView.jsx:252 | The feed's bookmark carries user, vlog id and vlog, but no `timestamp` and no `id` field. |
| Bookmarks.FeedBookmarksSortAsZero | src/components/BookmarksView.jsx:30-31 | A feed bookmark keeps its document id and sorts as 0. |
| Bookmarks.FeedBookmarksKeepSnapshotOrder | src/components/BookmarksView.jsx:29-33 | Records without timestamps all share one key, so the sort keeps their snapshot order. |
| Bookmarks.FeedBookmarkNotListedAsWritten | src/components/ReelsView.jsx:252 | As written, the feed's bookmark never reaches the query the screen listens to. |
| Bookmarks.StoreBookmark | src/components/BookmarksView.jsx:16-19 | The corrected write adds the bookmark to the collection the readers use. |
| Bookmarks.FeedBookmarkListed | src/components/BookmarksView.jsx:16-19 | After the corrected write, the bookmark is among the user's documents the screen receives. |

## Left out

- Presentation: markup, styling, icons, and the text of the guide and payment screens.
- `showChatModal` is only ever set to false, so every `showChatModal || chatMode` guard is modelled as `chatMode != null`.
- Feed.Run: real time. The 50, 300, 500 and 1500 ms delays are replaced by pending callbacks that may run in any order. Orderings that the real delays exclude are therefore also covered.
- Shuffle.ShuffleInPlace: does not model the uniformity of `Math.random`. Any legal sequence of draws is accepted.
- Feed.Message: the receiving YouTube player is not modelled. Only the outbound command log is kept.
- Dashboard.JobOf: does not model the salary text (`7.5 + index * 0.5`), which uses floating point.
- Dashboard.MatchSearch: does not model Unicode case mapping. `toLowerCase` is the parameter `lower`.
- Firestore and Firebase Auth are not modelled; their outcomes are parameters. These cover the auth listener, anonymous sign-in, `getDocs`, `onSnapshot`, `addDoc`, `setDoc` and `deleteDoc`, plus server timestamps and Firestore's default result order.
- The bookmark delete button (`handleDelete`) is not modelled. It only issues a `deleteDoc`, and the list changes through the next snapshot.
- `localStorage` is represented by the values passed in. This covers the admin flag and the guide-seen flag (`closeGuide` writes it for the next mount).
- Not modelled: `window.location.reload` and `origin`, `alert`, `console.error`, and the registration and removal of event listeners.
- Feed.HandleTouchStart: does not model fractional touch coordinates, which are modelled as integers.
- React scheduling is not modelled. Each handler sees the latest state, so the stale closures a listener can capture between renders are not represented.
- Bookmarks.SortNewestFirst: does not model full stability of the engine's sort. Equal-key input is proved unchanged, and the order among equal keys in mixed input is not stated.
- The mobile sidebar and the collapsed chat list in App are layout state and are not modelled.
- `src/data/vlogData` is not part of this model. The bundle is a parameter, assumed non-empty because the feed reads its current item unconditionally.
- Feed.Enabled: the ask, interest and overlay-tap events stay enabled while a mentor panel, the payment modal or the guide covers the feed. The model therefore admits more clicks than the page can receive, and every safety lemma still holds.
- The header close button (`onClick={onClose}`) is not a separate event. Its effect, the host's `onClose`, is the same `CloseFeed` request that Escape issues.
- The stored one-on-one intent carries the constant `status` "clicked" but no `createdAt` field, because `serverTimestamp()` is a value the store fills in.
- App.ChatIdInjective: holds for uids without underscores, as anonymous-auth uids are. For arbitrary strings, two different (user, vlog) pairs can share a chat id.

## Findings

| source | as written | input that shows it | evidently intended | confidence | as-written member | corrected member |
|---|---|---|---|---|---|---|
| src/components/ReelsView.jsx:252 | The interest button writes its bookmark to the top-level collection `bookmarks`. The saved-videos screen (src/components/BookmarksView.jsx:16-19) and the dashboard (src/components/Dashboard.jsx:38-39) query `artifacts/<appId>/public/data/bookmarks`. | A signed-in user marks any reel: the write lands in `["bookmarks"]`. The query on the five-segment path returns the same documents as before. | The bookmark is written to the collection the readers listen to, so it appears in the user's saved list. | high, not executed | Bookmarks.FeedBookmarkNotListedAsWritten | Bookmarks.FeedBookmarkListed |
