/**
 * The saved-videos screen: it listens to the signed-in user's bookmark
 * documents, turns each into a record, orders them newest first in place,
 * and shows a card (with a thumbnail) for every record that carries its vlog.
 * The document store is a map from collection paths to documents, so that
 * where each component writes and reads can be compared.
 */
module Bookmarks {
  import opened Wrappers
  import opened Vlogs
  import Feed
  import Dashboard

  // ---------------------------------------------------------------------
  // Documents and records
  // ---------------------------------------------------------------------

  /** The fields of a bookmark document this screen reads; absent fields are `None`. */
  datatype DocData = DocData(
    id: Option<string>,
    userId: Option<string>,
    vlogId: Option<string>,
    vlogData: Option<Vlog>,
    timestamp: Option<int>)   // `timestamp.seconds`

  datatype StoredDoc = StoredDoc(docId: string, data: DocData)

  /** A listed bookmark: `{id: doc.id, ...doc.data()}`. */
  datatype Bookmark = Bookmark(
    id: string,
    userId: Option<string>,
    vlogId: Option<string>,
    vlogData: Option<Vlog>,
    timestamp: Option<int>)

  /** The spread comes second, so an `id` field inside the data wins over the document id. */
  function ToRecord(d: StoredDoc): (b: Bookmark)
    ensures d.data.id.None? ==> b.id == d.docId
    ensures d.data.id.Some? ==> b.id == d.data.id.value
    ensures b.userId == d.data.userId && b.vlogId == d.data.vlogId
    ensures b.vlogData == d.data.vlogData && b.timestamp == d.data.timestamp
  {
    Bookmark(d.data.id.GetOr(d.docId), d.data.userId, d.data.vlogId, d.data.vlogData, d.data.timestamp)
  }

  function Records(docs: seq<StoredDoc>): (bs: seq<Bookmark>)
    ensures |bs| == |docs|
    ensures forall i :: 0 <= i < |docs| ==> bs[i] == ToRecord(docs[i])
  {
    seq(|docs|, i requires 0 <= i < |docs| => ToRecord(docs[i]))
  }

  /** `timestamp?.seconds || 0`: a missing timestamp sorts as 0. */
  function SortKey(b: Bookmark): (k: int)
    ensures b.timestamp.None? ==> k == 0
    ensures b.timestamp.Some? ==> k == b.timestamp.value
  {
    b.timestamp.GetOr(0)
  }

  // ---------------------------------------------------------------------
  // Newest first
  // ---------------------------------------------------------------------

  predicate NewestFirst(s: seq<Bookmark>) {
    forall i, j :: 0 <= i < j < |s| ==> SortKey(s[i]) >= SortKey(s[j])
  }

  predicate SameKeys(s: seq<Bookmark>) {
    forall i, j :: 0 <= i < j < |s| ==> SortKey(s[i]) == SortKey(s[j])
  }

  /**
   * The comparator `timeB - timeA` orders by descending key, and the sort
   * never moves an element past one with the same key. Here it is an
   * insertion sort by adjacent swaps.
   */
  method SortNewestFirst(a: array<Bookmark>)
    modifies a
    ensures NewestFirst(a[..])
    ensures multiset(a[..]) == multiset(old(a[..]))
    ensures SameKeys(old(a[..])) ==> a[..] == old(a[..])
  {
    var i := 0;
    while i < a.Length
      invariant 0 <= i <= a.Length
      invariant NewestFirst(a[..i])
      invariant multiset(a[..]) == multiset(old(a[..]))
      invariant SameKeys(old(a[..])) ==> a[..] == old(a[..])
    {
      Insert(a, i);
      i := i + 1;
    }
  }

  /** During a pass: the first `i + 1` records are in order if the one at `j` is left out... */
  predicate OrderedBesides(s: seq<Bookmark>, i: nat, j: nat)
    requires i < |s|
  {
    forall k, l :: 0 <= k < l <= i && k != j && l != j ==> SortKey(s[k]) >= SortKey(s[l])
  }

  /** ...and the one at `j` is newer than everything after it up to `i`. */
  predicate NewerThanRest(s: seq<Bookmark>, i: nat, j: nat)
    requires j <= i < |s|
  {
    forall l :: j < l <= i ==> SortKey(s[j]) > SortKey(s[l])
  }

  /** One swap with an older left neighbour keeps both facts, one place further left. */
  lemma SwapLeft(s: seq<Bookmark>, i: nat, j: nat)
    requires 0 < j <= i < |s|
    requires OrderedBesides(s, i, j) && NewerThanRest(s, i, j)
    requires SortKey(s[j - 1]) < SortKey(s[j])
    ensures OrderedBesides(s[j - 1 := s[j]][j := s[j - 1]], i, j - 1)
    ensures NewerThanRest(s[j - 1 := s[j]][j := s[j - 1]], i, j - 1)
  {
  }

  /** Where the pass stops, the first `i + 1` records are in order. */
  lemma PassDone(s: seq<Bookmark>, i: nat, j: nat)
    requires j <= i < |s|
    requires OrderedBesides(s, i, j) && NewerThanRest(s, i, j)
    requires j == 0 || SortKey(s[j - 1]) >= SortKey(s[j])
    ensures NewestFirst(s[..i + 1])
  {
    forall k, l | 0 <= k < l <= i
      ensures SortKey(s[k]) >= SortKey(s[l])
    {
      if l == j && k < j - 1 {
        assert SortKey(s[k]) >= SortKey(s[j - 1]);
      }
    }
  }

  /** One pass: the record at `i` moves left past every record with a smaller key. */
  method Insert(a: array<Bookmark>, i: nat)
    requires i < a.Length && NewestFirst(a[..i])
    modifies a
    ensures NewestFirst(a[..i + 1])
    ensures a[i + 1..] == old(a[i + 1..])
    ensures multiset(a[..]) == multiset(old(a[..]))
    ensures SameKeys(old(a[..])) ==> a[..] == old(a[..])
  {
    var j := i;
    while j > 0 && SortKey(a[j - 1]) < SortKey(a[j])
      invariant 0 <= j <= i
      invariant OrderedBesides(a[..], i, j) && NewerThanRest(a[..], i, j)
      invariant a[i + 1..] == old(a[i + 1..])
      invariant multiset(a[..]) == multiset(old(a[..]))
      invariant SameKeys(old(a[..])) ==> a[..] == old(a[..])
      decreases j
    {
      ghost var s := a[..];
      SwapLeft(s, i, j);
      a[j - 1], a[j] := a[j], a[j - 1];
      assert a[..] == s[j - 1 := s[j]][j := s[j - 1]];
      j := j - 1;
    }
    PassDone(a[..], i, j);
  }

  // ---------------------------------------------------------------------
  // The screen
  // ---------------------------------------------------------------------

  class BookmarksScreen {
    var bookmarks: seq<Bookmark>
    var loading: bool
    var pendingLoadingOff: nat   // zero-delay callbacks that will clear `loading`

    constructor ()
      ensures bookmarks == [] && loading && pendingLoadingOff == 0
    {
      bookmarks := [];
      loading := true;
      pendingLoadingOff := 0;
    }

    /** No signed-in user: nothing is fetched, the spinner is scheduled to stop. */
    method NoUser()
      modifies this
      ensures pendingLoadingOff == old(pendingLoadingOff) + 1
      ensures bookmarks == old(bookmarks) && loading == old(loading)
    {
      pendingLoadingOff := pendingLoadingOff + 1;
    }

    /**
     * A snapshot of the user's bookmark documents arrives: the records are
     * built, sorted in place newest first, and replace the list.
     */
    method OnSnapshot(docs: seq<StoredDoc>)
      modifies this
      ensures NewestFirst(bookmarks)
      ensures multiset(bookmarks) == multiset(Records(docs))
      ensures SameKeys(Records(docs)) ==> bookmarks == Records(docs)
      ensures pendingLoadingOff == old(pendingLoadingOff) + 1 && loading == old(loading)
    {
      var list := new Bookmark[|docs|](i requires 0 <= i < |docs| => ToRecord(docs[i]));
      assert list[..] == Records(docs);
      SortNewestFirst(list);
      bookmarks := list[..];
      pendingLoadingOff := pendingLoadingOff + 1;
    }

    /** The listener failed: the list stays, the spinner is scheduled to stop. */
    method OnSnapshotError()
      modifies this
      ensures pendingLoadingOff == old(pendingLoadingOff) + 1
      ensures bookmarks == old(bookmarks) && loading == old(loading)
    {
      pendingLoadingOff := pendingLoadingOff + 1;
    }

    /** A scheduled callback runs. */
    method LoadingOff()
      requires pendingLoadingOff > 0
      modifies this
      ensures !loading && pendingLoadingOff == old(pendingLoadingOff) - 1
      ensures bookmarks == old(bookmarks)
    {
      loading := false;
      pendingLoadingOff := pendingLoadingOff - 1;
    }
  }

  /** The cards: records without their vlog are skipped, though the header counts every record. */
  function Visible(bs: seq<Bookmark>): (r: seq<Bookmark>)
    ensures |r| <= |bs|
    ensures forall b :: b in r <==> b in bs && b.vlogData.Some?
  {
    if |bs| == 0 then []
    else if bs[0].vlogData.Some? then [bs[0]] + Visible(bs[1..])
    else Visible(bs[1..])
  }

  /** Each record with a vlog gets as many cards as it has copies in the list; the others get none. */
  lemma {:induction false} VisibleCounts(bs: seq<Bookmark>)
    ensures forall b :: multiset(Visible(bs))[b] == if b.vlogData.Some? then multiset(bs)[b] else 0
    decreases |bs|
  {
    if |bs| > 0 {
      VisibleCounts(bs[1..]);
      assert bs == [bs[0]] + bs[1..];
    }
  }

  /** The cards keep the list's order: they are the records with some skipped. */
  lemma {:induction false} VisibleIsSubsequence(bs: seq<Bookmark>)
    ensures Dashboard.IsSubsequence(Visible(bs), bs)
    decreases |bs|
  {
    if |bs| > 0 {
      VisibleIsSubsequence(bs[1..]);
    }
  }

  /** A newest-first list with its head removed is still newest first. */
  lemma TailNewestFirst(bs: seq<Bookmark>)
    requires |bs| > 0 && NewestFirst(bs)
    ensures NewestFirst(bs[1..])
  {
    forall i, j | 0 <= i < j < |bs[1..]|
      ensures SortKey(bs[1..][i]) >= SortKey(bs[1..][j])
    {
      assert bs[1..][i] == bs[i + 1] && bs[1..][j] == bs[j + 1];
    }
  }

  /** Putting a record no older than any of a newest-first list in front keeps it newest first. */
  lemma ConsNewestFirst(b: Bookmark, rest: seq<Bookmark>)
    requires NewestFirst(rest)
    requires forall c :: c in rest ==> SortKey(b) >= SortKey(c)
    ensures NewestFirst([b] + rest)
  {
    var s := [b] + rest;
    forall i, j | 0 <= i < j < |s|
      ensures SortKey(s[i]) >= SortKey(s[j])
    {
      assert s[j] == rest[j - 1];
      if i > 0 {
        assert s[i] == rest[i - 1];
      }
    }
  }

  /** A newest-first list shows its cards newest first. */
  lemma {:induction false} VisibleKeepsOrder(bs: seq<Bookmark>)
    ensures NewestFirst(bs) ==> NewestFirst(Visible(bs))
    decreases |bs|
  {
    if |bs| > 0 && NewestFirst(bs) {
      TailNewestFirst(bs);
      VisibleKeepsOrder(bs[1..]);
      var rest := Visible(bs[1..]);
      if bs[0].vlogData.Some? {
        forall c | c in rest
          ensures SortKey(bs[0]) >= SortKey(c)
        {
          var k :| 0 <= k < |bs[1..]| && bs[1..][k] == c;
          assert bs[k + 1] == c;
        }
        ConsNewestFirst(bs[0], rest);
      }
    }
  }

  /** Every record carries its vlog exactly when every record has a card. */
  lemma {:induction false} AllVisibleIffAllCarryVlog(bs: seq<Bookmark>)
    ensures |Visible(bs)| == |bs| <==> forall i :: 0 <= i < |bs| ==> bs[i].vlogData.Some?
  {
    if |bs| > 0 {
      AllVisibleIffAllCarryVlog(bs[1..]);
      assert forall i :: 1 <= i < |bs| ==> bs[i] == bs[1..][i - 1];
    }
  }

  // ---------------------------------------------------------------------
  // Thumbnails
  // ---------------------------------------------------------------------

  const ThumbnailPrefix := "https://img.youtube.com/vi/"
  const MaxResSuffix := "/maxresdefault.jpg"
  const HqSuffix := "/hqdefault.jpg"

  function ThumbnailUrl(videoId: string): (url: string)
    ensures |url| == |ThumbnailPrefix| + |videoId| + |MaxResSuffix|
    ensures url[..|ThumbnailPrefix|] == ThumbnailPrefix
    ensures url[|ThumbnailPrefix|..|ThumbnailPrefix| + |videoId|] == videoId
    ensures url[|ThumbnailPrefix| + |videoId|..] == MaxResSuffix
  {
    ThumbnailPrefix + videoId + MaxResSuffix
  }

  /** The image used once the high-resolution one fails to load. */
  function FallbackThumbnailUrl(videoId: string): (url: string)
    ensures |url| == |ThumbnailPrefix| + |videoId| + |HqSuffix|
    ensures url[..|ThumbnailPrefix|] == ThumbnailPrefix
    ensures url[|ThumbnailPrefix|..|ThumbnailPrefix| + |videoId|] == videoId
    ensures url[|ThumbnailPrefix| + |videoId|..] == HqSuffix
  {
    ThumbnailPrefix + videoId + HqSuffix
  }

  /** Different videos never share a thumbnail, and the fallback is never the image that failed. */
  lemma ThumbnailsDistinct(v1: string, v2: string)
    ensures ThumbnailUrl(v1) == ThumbnailUrl(v2) ==> v1 == v2
    ensures FallbackThumbnailUrl(v1) != ThumbnailUrl(v1)
  {
    if ThumbnailUrl(v1) == ThumbnailUrl(v2) {
      assert |v1| == |v2|;
    }
    var p := |ThumbnailPrefix| + |v1|;
    assert ThumbnailUrl(v1)[p + 1] == 'm';
    assert FallbackThumbnailUrl(v1)[p + 1] == 'h';
  }

  // ---------------------------------------------------------------------
  // Where bookmarks are written and read
  // ---------------------------------------------------------------------

  /** Collections by path; a missing path is an empty collection. */
  type Store = map<seq<string>, seq<StoredDoc>>

  function Docs(store: Store, path: seq<string>): seq<StoredDoc> {
    if path in store then store[path] else []
  }

  function AddDoc(store: Store, path: seq<string>, d: StoredDoc): (r: Store)
    ensures Docs(r, path) == Docs(store, path) + [d]
    ensures forall p :: p != path ==> Docs(r, p) == Docs(store, p)
  {
    store[path := Docs(store, path) + [d]]
  }

  /** `where('userId', '==', uid)`. */
  function OwnedBy(docs: seq<StoredDoc>, uid: string): (r: seq<StoredDoc>)
    ensures forall d :: d in r <==> d in docs && d.data.userId == Some(uid)
  {
    if |docs| == 0 then []
    else if docs[0].data.userId == Some(uid) then [docs[0]] + OwnedBy(docs[1..], uid)
    else OwnedBy(docs[1..], uid)
  }

  /** The collection this screen and the dashboard listen to. */
  function SavedBookmarksPath(appId: string): seq<string> {
    ["artifacts", appId, "public", "data", "bookmarks"]
  }

  /** The collection the reels feed's interest button writes to, as written. */
  function ReelsBookmarkPath(): seq<string> {
    ["bookmarks"]
  }

  /**
   * The document the interest button writes. It records `createdAt` (a
   * server time), not `timestamp`, so the screen sees no timestamp.
   */
  function BookmarkDoc(docId: string, w: Feed.StoreWrite): (d: StoredDoc)
    requires w.BookmarkWrite?
    ensures d.data.userId == Some(w.userId) && d.data.vlogId == Some(w.vlogId)
    ensures d.data.vlogData == Some(w.vlog) && d.data.timestamp.None? && d.data.id.None?
  {
    StoredDoc(docId, DocData(None, Some(w.userId), Some(w.vlogId), Some(w.vlog), None))
  }

  /** Such a record keeps its document id and sorts as 0, like every other bookmark from the feed. */
  lemma FeedBookmarksSortAsZero(docId: string, w: Feed.StoreWrite)
    requires w.BookmarkWrite?
    ensures ToRecord(BookmarkDoc(docId, w)).id == docId
    ensures SortKey(ToRecord(BookmarkDoc(docId, w))) == 0
  {
  }

  /** A snapshot made only of feed bookmarks is listed in the order it arrives. */
  lemma {:induction false} FeedBookmarksKeepSnapshotOrder(docs: seq<StoredDoc>)
    requires forall i :: 0 <= i < |docs| ==> docs[i].data.timestamp.None?
    ensures SameKeys(Records(docs))
  {
    var rs := Records(docs);
    forall i, j | 0 <= i < j < |rs|
      ensures SortKey(rs[i]) == SortKey(rs[j])
    {
      assert rs[i] == ToRecord(docs[i]) && rs[j] == ToRecord(docs[j]);
    }
  }

  /** As written: the feed's write goes to another collection, so the screen's query never sees it. */
  lemma FeedBookmarkNotListedAsWritten(store: Store, appId: string, docId: string, w: Feed.StoreWrite, uid: string)
    requires w.BookmarkWrite?
    ensures OwnedBy(Docs(AddDoc(store, ReelsBookmarkPath(), BookmarkDoc(docId, w)), SavedBookmarksPath(appId)), uid)
         == OwnedBy(Docs(store, SavedBookmarksPath(appId)), uid)
  {
    assert SavedBookmarksPath(appId) != ReelsBookmarkPath() by {
      assert |SavedBookmarksPath(appId)| != |ReelsBookmarkPath()|;
    }
  }

  /** The write into the collection the readers listen to. */
  function StoreBookmark(store: Store, appId: string, docId: string, w: Feed.StoreWrite): (r: Store)
    requires w.BookmarkWrite?
    ensures Docs(r, SavedBookmarksPath(appId)) == Docs(store, SavedBookmarksPath(appId)) + [BookmarkDoc(docId, w)]
  {
    AddDoc(store, SavedBookmarksPath(appId), BookmarkDoc(docId, w))
  }

  /** Corrected: the written bookmark is among the writer's documents the screen listens to. */
  lemma FeedBookmarkListed(store: Store, appId: string, docId: string, w: Feed.StoreWrite)
    requires w.BookmarkWrite?
    ensures BookmarkDoc(docId, w) in OwnedBy(Docs(StoreBookmark(store, appId, docId, w), SavedBookmarksPath(appId)), w.userId)
  {
  }
}
