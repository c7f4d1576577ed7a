/**
 * The saved-jobs dashboard. Every job is derived from one bundled vlog; the
 * screen lists the jobs the user bookmarked, narrowed by a free-text search
 * and a set of tag chips. Its state is replaced wholesale by each handler,
 * so everything here is a function from old values to new ones.
 */
module Dashboard {
  import opened Wrappers
  import opened Vlogs

  // ---------------------------------------------------------------------
  // Jobs
  // ---------------------------------------------------------------------

  /** A job card. The salary text (float arithmetic) is not part of this model. */
  datatype Job = Job(
    id: string,
    title: string,
    company: string,
    location: string,
    jobType: string,
    tags: seq<string>,
    postedDate: string,
    description: string,
    videoId: string,
    avatar: Option<char>,   // `username[0]`, undefined for an empty name
    isBookmarked: bool)

  function DigitChar(d: nat): char
    requires d < 10
  {
    "0123456789"[d]
  }

  /** A natural number as a template literal prints it: decimal, no leading zeros. */
  function NatToString(n: nat): (r: string)
    ensures |r| > 0
    ensures forall i :: 0 <= i < |r| ==> '0' <= r[i] <= '9'
    ensures |r| > 1 ==> r[0] != '0'
    decreases n
  {
    if n < 10 then [DigitChar(n)] else NatToString(n / 10) + [DigitChar(n % 10)]
  }

  /** The number a string of decimal digits denotes. */
  function DecimalValue(s: string): nat
    requires forall i :: 0 <= i < |s| ==> '0' <= s[i] <= '9'
  {
    if |s| == 0 then 0 else 10 * DecimalValue(s[..|s| - 1]) + (s[|s| - 1] as int - '0' as int)
  }

  /** Printing a number loses nothing: reading the digits back gives the number. */
  lemma {:induction false} NatToStringRoundTrip(n: nat)
    ensures DecimalValue(NatToString(n)) == n
    decreases n
  {
    var r := NatToString(n);
    if n >= 10 {
      NatToStringRoundTrip(n / 10);
      assert r[..|r| - 1] == NatToString(n / 10);
    }
  }

  /** Different posting ages never print alike. */
  lemma PostedDatesDistinct(a: nat, b: nat)
    requires a != b
    ensures NatToString(a) != NatToString(b)
  {
    NatToStringRoundTrip(a);
    NatToStringRoundTrip(b);
  }

  /** The job type: the first tag, unless it is missing or empty (both falsy), then "Full time". */
  function JobType(tags: seq<string>): (t: string)
    ensures t != ""
    ensures t == "Full time" || (|tags| > 0 && t == tags[0])
    ensures |tags| > 0 && tags[0] != "" ==> t == tags[0]
  {
    if |tags| > 0 && tags[0] != "" then tags[0] else "Full time"
  }

  function JobOf(v: Vlog, index: nat): (j: Job)
    ensures j.id == v.id && j.title == v.role && j.company == v.username
    ensures j.tags == v.tags && j.videoId == v.videoId && j.description == v.description
    ensures j.jobType == JobType(v.tags) && j.location == "Remote" && !j.isBookmarked
    ensures j.postedDate == NatToString(index + 2) + " days ago"
    ensures j.avatar.Some? <==> |v.username| > 0
  {
    Job(v.id, v.role, v.username, "Remote", JobType(v.tags), v.tags,
        NatToString(index + 2) + " days ago", v.description, v.videoId,
        if |v.username| > 0 then Some(v.username[0]) else None, false)
  }

  /** One job per bundled vlog, in the bundle's order, none marked yet. */
  function AllJobs(vlogs: seq<Vlog>): (jobs: seq<Job>)
    ensures |jobs| == |vlogs|
    ensures forall i :: 0 <= i < |vlogs| ==>
      jobs[i].id == vlogs[i].id && jobs[i].title == vlogs[i].role && jobs[i].company == vlogs[i].username
      && jobs[i].postedDate == NatToString(i + 2) + " days ago" && !jobs[i].isBookmarked
    ensures forall i :: 0 <= i < |vlogs| ==> jobs[i] == JobOf(vlogs[i], i)
  {
    seq(|vlogs|, i requires 0 <= i < |vlogs| => JobOf(vlogs[i], i))
  }

  // ---------------------------------------------------------------------
  // Search and tag filter
  // ---------------------------------------------------------------------

  /** `String.prototype.includes`: the needle starts at some position of the haystack. */
  predicate Contains(hay: string, needle: string)
    decreases |hay|
  {
    needle <= hay || (|hay| > 0 && Contains(hay[1..], needle))
  }

  /** The same relation stated by position. */
  predicate OccursAt(hay: string, needle: string, i: int) {
    0 <= i && i + |needle| <= |hay| && hay[i..i + |needle|] == needle
  }

  lemma {:induction false} ContainsHasPosition(hay: string, needle: string)
    requires Contains(hay, needle)
    ensures exists i :: OccursAt(hay, needle, i)
    decreases |hay|
  {
    if needle <= hay {
      assert hay[0..|needle|] == needle;
      assert OccursAt(hay, needle, 0);
    } else {
      ContainsHasPosition(hay[1..], needle);
      var i :| OccursAt(hay[1..], needle, i);
      assert hay[1..][i..i + |needle|] == hay[i + 1..i + 1 + |needle|];
      assert OccursAt(hay, needle, i + 1);
    }
  }

  lemma {:induction false} PositionGivesContains(hay: string, needle: string, i: int)
    requires OccursAt(hay, needle, i)
    ensures Contains(hay, needle)
    decreases i
  {
    if i == 0 {
      assert hay[..|needle|] == needle;
    } else {
      assert hay[1..][i - 1..i - 1 + |needle|] == hay[i..i + |needle|];
      PositionGivesContains(hay[1..], needle, i - 1);
    }
  }

  /** The recursive search agrees with the positional definition, both ways. */
  lemma ContainsMeansOccurs(hay: string, needle: string)
    ensures Contains(hay, needle) <==> exists i :: OccursAt(hay, needle, i)
  {
    if Contains(hay, needle) {
      ContainsHasPosition(hay, needle);
    }
    if exists i :: OccursAt(hay, needle, i) {
      var i :| OccursAt(hay, needle, i);
      PositionGivesContains(hay, needle, i);
    }
  }

  /**
   * The search box: the lower-cased title or company contains the lower-cased
   * query. Case mapping is the caller's `lower`.
   */
  predicate MatchSearch(job: Job, query: string, lower: string -> string) {
    Contains(lower(job.title), lower(query)) || Contains(lower(job.company), lower(query))
  }

  /** The tag chips: no chip selected, or some selected tag is among the job's tags. */
  predicate MatchTags(job: Job, selected: seq<string>) {
    |selected| == 0 || exists i :: 0 <= i < |selected| && selected[i] in job.tags
  }

  predicate Keep(job: Job, bookmarked: seq<string>, query: string, selected: seq<string>, lower: string -> string) {
    job.id in bookmarked && MatchSearch(job, query, lower) && MatchTags(job, selected)
  }

  /** The listed jobs: the saved ones that pass both filters, each shown as bookmarked. */
  function FilteredJobs(jobs: seq<Job>, bookmarked: seq<string>, query: string, selected: seq<string>,
                        lower: string -> string): (r: seq<Job>)
    ensures |r| <= |jobs|
    ensures forall j :: j in r ==>
      j.isBookmarked && j.id in bookmarked && MatchSearch(j, query, lower) && MatchTags(j, selected)
  {
    if |jobs| == 0 then []
    else
      var rest := FilteredJobs(jobs[1..], bookmarked, query, selected, lower);
      if Keep(jobs[0], bookmarked, query, selected, lower) then [jobs[0].(isBookmarked := true)] + rest else rest
  }

  /** `a` is `b` with some elements dropped, the rest in the same order. */
  predicate IsSubsequence<T(==)>(a: seq<T>, b: seq<T>)
    decreases |b|
  {
    |a| == 0 || (|b| > 0 && ((a[0] == b[0] && IsSubsequence(a[1..], b[1..])) || IsSubsequence(a, b[1..])))
  }

  function MarkAll(jobs: seq<Job>): (r: seq<Job>)
    ensures |r| == |jobs|
    ensures forall i :: 0 <= i < |jobs| ==> r[i] == jobs[i].(isBookmarked := true)
  {
    seq(|jobs|, i requires 0 <= i < |jobs| => jobs[i].(isBookmarked := true))
  }

  /** The list keeps the order of the full job list: it is a subsequence of it (with the flag set). */
  lemma {:induction false} FilteredIsSubsequence(jobs: seq<Job>, bookmarked: seq<string>, query: string,
                                                 selected: seq<string>, lower: string -> string)
    ensures IsSubsequence(FilteredJobs(jobs, bookmarked, query, selected, lower), MarkAll(jobs))
    decreases |jobs|
  {
    var r := FilteredJobs(jobs, bookmarked, query, selected, lower);
    if |jobs| > 0 {
      FilteredIsSubsequence(jobs[1..], bookmarked, query, selected, lower);
      assert MarkAll(jobs)[1..] == MarkAll(jobs[1..]);
    }
  }

  /** Nothing is lost: every job that is saved and passes both filters is listed. */
  lemma {:induction false} FilteredIsComplete(jobs: seq<Job>, bookmarked: seq<string>, query: string,
                                              selected: seq<string>, lower: string -> string, i: nat)
    requires i < |jobs|
    requires Keep(jobs[i], bookmarked, query, selected, lower)
    ensures jobs[i].(isBookmarked := true) in FilteredJobs(jobs, bookmarked, query, selected, lower)
    decreases i
  {
    if i > 0 {
      FilteredIsComplete(jobs[1..], bookmarked, query, selected, lower, i - 1);
    }
  }

  /** The saved jobs alone, each marked: what the list shows with no search and no chips. */
  function Saved(jobs: seq<Job>, bookmarked: seq<string>): (r: seq<Job>)
    ensures forall j :: j in r ==> j.isBookmarked && j.id in bookmarked
  {
    if |jobs| == 0 then []
    else if jobs[0].id in bookmarked then [jobs[0].(isBookmarked := true)] + Saved(jobs[1..], bookmarked)
    else Saved(jobs[1..], bookmarked)
  }

  /** An empty search box (whose lower-case form is empty) and no chip narrow nothing. */
  lemma {:induction false} NoCriteriaShowsAllSaved(jobs: seq<Job>, bookmarked: seq<string>, query: string,
                                                   lower: string -> string)
    requires lower(query) == ""
    ensures FilteredJobs(jobs, bookmarked, query, [], lower) == Saved(jobs, bookmarked)
    decreases |jobs|
  {
    if |jobs| > 0 {
      NoCriteriaShowsAllSaved(jobs[1..], bookmarked, query, lower);
      assert lower(query) <= lower(jobs[0].title);
    }
  }

  // ---------------------------------------------------------------------
  // Toggles
  // ---------------------------------------------------------------------

  /** `xs.filter(y => y !== x)`. */
  function RemoveAll(xs: seq<string>, x: string): (r: seq<string>)
    ensures x !in r
    ensures forall y :: y != x ==> (y in r <==> y in xs)
    ensures x !in xs ==> r == xs
  {
    if |xs| == 0 then []
    else if xs[0] == x then RemoveAll(xs[1..], x)
    else [xs[0]] + RemoveAll(xs[1..], x)
  }

  /** The chip/bookmark toggle: a present value goes away (every copy), an absent one joins at the end. */
  function Toggle(xs: seq<string>, x: string): (r: seq<string>)
    ensures x in r <==> x !in xs
    ensures forall y :: y != x ==> (y in r <==> y in xs)
    ensures x !in xs ==> r == xs + [x]
  {
    if x in xs then RemoveAll(xs, x) else xs + [x]
  }

  /** Removing keeps the other values in their relative order. */
  lemma {:induction false} RemoveAllKeepsOrder(xs: seq<string>, x: string)
    ensures IsSubsequence(RemoveAll(xs, x), xs)
    decreases |xs|
  {
    if |xs| > 0 {
      RemoveAllKeepsOrder(xs[1..], x);
      if xs[0] != x {
        assert RemoveAll(xs, x)[1..] == RemoveAll(xs[1..], x);
      } else if |RemoveAll(xs, x)| > 0 {
        assert IsSubsequence(RemoveAll(xs, x), xs[1..]);
      }
    }
  }

  /** Toggling twice restores membership of every value. */
  lemma ToggleTwiceRestoresMembership(xs: seq<string>, x: string)
    ensures forall y :: y in Toggle(Toggle(xs, x), x) <==> y in xs
  {
  }

  lemma {:induction false} RemoveAllLast(xs: seq<string>, x: string)
    requires x !in xs
    ensures RemoveAll(xs + [x], x) == xs
    decreases |xs|
  {
    if |xs| == 0 {
      assert xs + [x] == [x];
      assert RemoveAll([x], x) == RemoveAll([x][1..], x);
    } else {
      assert (xs + [x])[1..] == xs[1..] + [x];
      RemoveAllLast(xs[1..], x);
    }
  }

  /** Adding then removing a value gives back exactly the list it started from. */
  lemma AddThenRemoveRestores(xs: seq<string>, x: string)
    requires x !in xs
    ensures Toggle(Toggle(xs, x), x) == xs
  {
    RemoveAllLast(xs, x);
  }

  // ---------------------------------------------------------------------
  // Component state
  // ---------------------------------------------------------------------

  datatype DashboardState = DashboardState(
    bookmarked: seq<string>,
    query: string,
    selectedTags: seq<string>,
    loading: bool)

  function Initial(): (s: DashboardState)
    ensures s.loading && s.bookmarked == [] && s.selectedTags == [] && s.query == ""
  {
    DashboardState([], "", [], true)
  }

  /**
   * The mount-time load. Without a signed-in user it returns before touching
   * anything, so the spinner stays. Otherwise `fetched` is the query's
   * outcome: the saved vlog ids, or `None` when it failed.
   */
  function LoadBookmarks(s: DashboardState, user: Option<string>, fetched: Option<seq<string>>): (r: DashboardState)
    ensures user.None? ==> r == s
    ensures user.Some? ==> !r.loading
    ensures r.bookmarked == (if user.Some? && fetched.Some? then fetched.value else s.bookmarked)
    ensures r.query == s.query && r.selectedTags == s.selectedTags
  {
    if user.None? then s
    else if fetched.Some? then s.(bookmarked := fetched.value, loading := false)
    else s.(loading := false)
  }

  /** The bookmark icon on a card: only the local list changes. */
  function ToggleBookmark(s: DashboardState, jobId: string): (r: DashboardState)
    ensures jobId in r.bookmarked <==> jobId !in s.bookmarked
    ensures forall id :: id != jobId ==> (id in r.bookmarked <==> id in s.bookmarked)
    ensures r.query == s.query && r.selectedTags == s.selectedTags && r.loading == s.loading
  {
    s.(bookmarked := Toggle(s.bookmarked, jobId))
  }

  /** A tag chip: the same toggle on the selected tags. */
  function ToggleTag(s: DashboardState, tag: string): (r: DashboardState)
    ensures tag in r.selectedTags <==> tag !in s.selectedTags
    ensures forall t :: t != tag ==> (t in r.selectedTags <==> t in s.selectedTags)
    ensures r.bookmarked == s.bookmarked && r.query == s.query && r.loading == s.loading
  {
    s.(selectedTags := Toggle(s.selectedTags, tag))
  }

  /** "Clear All": no chip is selected, so the tag filter lets every job through. */
  function ClearTags(s: DashboardState): (r: DashboardState)
    ensures forall j :: MatchTags(j, r.selectedTags)
    ensures r.bookmarked == s.bookmarked && r.query == s.query && r.loading == s.loading
  {
    s.(selectedTags := [])
  }

  /** What the list shows for the state and the bundled vlogs. */
  function Listed(s: DashboardState, vlogs: seq<Vlog>, lower: string -> string): seq<Job> {
    FilteredJobs(AllJobs(vlogs), s.bookmarked, s.query, s.selectedTags, lower)
  }

  // ---------------------------------------------------------------------
  // Opening a chat from a card
  // ---------------------------------------------------------------------

  /** `vlogs.find(v => v.id === id)`: the first vlog with that id, if any. */
  function FindVlog(vlogs: seq<Vlog>, id: string): (r: Option<Vlog>)
    ensures r.Some? <==> exists i :: 0 <= i < |vlogs| && vlogs[i].id == id
    ensures r.Some? ==> r.value.id == id && r.value in vlogs
    ensures r.Some? ==> exists i :: 0 <= i < |vlogs| && vlogs[i] == r.value &&
                         forall k :: 0 <= k < i ==> vlogs[k].id != id
    decreases |vlogs|
  {
    if |vlogs| == 0 then None
    else if vlogs[0].id == id then Some(vlogs[0])
    else
      var r := FindVlog(vlogs[1..], id);
      assert forall i :: 1 <= i < |vlogs| ==> vlogs[i] == vlogs[1..][i - 1];
      if r.Some? then
        var j :| 0 <= j < |vlogs[1..]| && vlogs[1..][j] == r.value &&
                 forall k :: 0 <= k < j ==> vlogs[1..][k].id != id;
        assert vlogs[j + 1] == r.value;
        assert forall k :: 0 <= k < j + 1 ==> vlogs[k].id != id;
        r
      else r
  }

  /** A card click starts a chat (the vlog handed to the host) only if some vlog has the job's id. */
  function JobClick(vlogs: seq<Vlog>, job: Job): (started: Option<Vlog>)
    ensures started.Some? <==> exists i :: 0 <= i < |vlogs| && vlogs[i].id == job.id
    ensures started.Some? ==> started.value.id == job.id
  {
    FindVlog(vlogs, job.id)
  }

  /** Every listed card comes from a bundled vlog, so clicking it always starts a chat. */
  lemma ListedJobsOpenChats(s: DashboardState, vlogs: seq<Vlog>, lower: string -> string, job: Job)
    requires job in Listed(s, vlogs, lower)
    ensures JobClick(vlogs, job).Some?
  {
    var all := AllJobs(vlogs);
    var r := Listed(s, vlogs, lower);
    FilteredIsSubsequence(all, s.bookmarked, s.query, s.selectedTags, lower);
    SubsequenceMember(r, MarkAll(all), job);
    var i :| 0 <= i < |all| && MarkAll(all)[i] == job;
    assert vlogs[i].id == job.id;
  }

  lemma {:induction false} SubsequenceMember<T>(a: seq<T>, b: seq<T>, x: T)
    requires IsSubsequence(a, b) && x in a
    ensures exists i :: 0 <= i < |b| && b[i] == x
    decreases |b|
  {
    if a[0] == b[0] && IsSubsequence(a[1..], b[1..]) {
      if x != a[0] {
        assert x in a[1..];
        SubsequenceMember(a[1..], b[1..], x);
        var i :| 0 <= i < |b[1..]| && b[1..][i] == x;
        assert b[i + 1] == x;
      }
      else {
        assert b[0] == x;
      }
    } else {
      SubsequenceMember(a, b[1..], x);
      var i :| 0 <= i < |b[1..]| && b[1..][i] == x;
      assert b[i + 1] == x;
    }
  }
}
