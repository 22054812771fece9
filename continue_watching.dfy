/**
 * Watch progress per profile (frontend/src/utils/continueWatching.js): each
 * profile's list of recently watched videos lives under its own storage key,
 * most recent first and at most twenty long. The current time is passed in,
 * both as milliseconds (what the sort compares) and as an ISO string (what a
 * new entry's upload date falls back to).
 */
module ContinueWatching {
  import opened Wrappers
  import opened Seqs

  const ContinueWatchingStorageKey: string := "kebijo_continue_watching"
  const MaxEntries: nat := 20

  /** The storage key of one profile's list. */
  function StorageKey(profileId: string): (k: string)
    ensures |k| == |ContinueWatchingStorageKey| + 1 + |profileId|
    ensures k[..|ContinueWatchingStorageKey| + 1] == ContinueWatchingStorageKey + "_"
    ensures k[|ContinueWatchingStorageKey| + 1..] == profileId
  {
    ContinueWatchingStorageKey + "_" + profileId
  }

  /** Two profiles never share a storage key. */
  lemma StorageKeyInjective(a: string, b: string)
    requires StorageKey(a) == StorageKey(b)
    ensures a == b
  {
    assert a == StorageKey(a)[|ContinueWatchingStorageKey| + 1..];
  }

  /** Every other profile's key differs from this profile's. */
  lemma OtherKeysDiffer(profileId: string)
    ensures forall p :: p != profileId ==> StorageKey(p) != StorageKey(profileId)
  {
    forall p | StorageKey(p) == StorageKey(profileId) ensures p == profileId {
      StorageKeyInjective(p, profileId);
    }
  }

  /** The copy of a video's details an entry keeps. */
  datatype Snapshot = Snapshot(
    id: string,
    title: string,
    thumbnail: Option<string>,
    duration: Option<string>,
    uploadedAt: string)

  /** One list entry; `lastWatchedAt` is the time of the last update, in milliseconds. */
  datatype Entry = Entry(video: Snapshot, progress: real, lastWatchedAt: int)

  /** The fields `updateWatchProgress` reads from its `video` argument; `None` is a field that is missing. */
  datatype VideoInfo = VideoInfo(
    title: Option<string>,
    thumbnail: Option<string>,
    duration: Option<string>,
    uploadedAt: Option<string>)

  function LastWatched(e: Entry): int {
    e.lastWatchedAt
  }

  function VideoIdOf(e: Entry): string {
    e.video.id
  }

  /** `list.findIndex((item) => item.video.id === videoId)`. */
  function IndexOfVideo(list: seq<Entry>, videoId: string): (i: int)
    ensures -1 <= i < |list|
    ensures i >= 0 ==> list[i].video.id == videoId && forall j :: 0 <= j < i ==> list[j].video.id != videoId
    ensures i == -1 <==> forall j :: 0 <= j < |list| ==> list[j].video.id != videoId
  {
    if list == [] then -1
    else if list[0].video.id == videoId then 0
    else
      var k := IndexOfVideo(list[1..], videoId);
      assert forall j :: 1 <= j < |list| ==> list[j] == list[1..][j - 1];
      if k == -1 then -1 else k + 1
  }

  /** `s || fallback` for a string field. */
  function OrString(s: Option<string>, fallback: string): string {
    if s.Some? && s.value != "" then s.value else fallback
  }

  /**
   * The snapshot a new entry keeps: a given title is kept and an untitled
   * video is called `Untitled`; an empty thumbnail and an empty duration
   * text become `null`; a missing upload date becomes the current time.
   */
  function NewSnapshot(videoId: string, video: VideoInfo, nowIso: string): (s: Snapshot)
    ensures s.id == videoId
    ensures video.title.Some? && video.title.value != "" ==> s.title == video.title.value
    ensures s.title == "Untitled" <==> video.title.None? || video.title.value in {"", "Untitled"}
    ensures s.thumbnail.Some? <==> video.thumbnail.Some? && video.thumbnail.value != ""
    ensures s.thumbnail.Some? ==> s.thumbnail == video.thumbnail
    ensures s.duration.Some? <==> video.duration.Some? && video.duration.value != ""
    ensures s.duration.Some? ==> s.duration == video.duration
    ensures s.uploadedAt == OrString(video.uploadedAt, nowIso)
  {
    Snapshot(
      videoId,
      OrString(video.title, "Untitled"),
      if video.thumbnail.Some? && video.thumbnail.value != "" then video.thumbnail else None,
      if video.duration.Some? && video.duration.value != "" then video.duration else None,
      OrString(video.uploadedAt, nowIso))
  }

  /**
   * The list after the entry for `videoId` is refreshed in place or, when
   * there is none, appended; `None` when a new entry is needed but no video
   * details were given (the property read throws and nothing is saved).
   * A refreshed entry keeps its stored snapshot, only its progress and time
   * change, and every other entry stays where it was.
   */
  function Touched(list: seq<Entry>, videoId: string, progress: real, video: Option<VideoInfo>, now: int, nowIso: string)
    : (r: Option<seq<Entry>>)
    ensures r.None? <==> IndexOfVideo(list, videoId) == -1 && video.None?
    ensures var i := IndexOfVideo(list, videoId);
            i >= 0 ==> && r.Some? && |r.value| == |list|
                       && r.value[i] == Entry(list[i].video, progress, now)
                       && forall j :: 0 <= j < |list| && j != i ==> r.value[j] == list[j]
    ensures IndexOfVideo(list, videoId) == -1 && video.Some? ==>
              && r.Some? && |r.value| == |list| + 1 && r.value[..|list|] == list
              && r.value[|list|] == Entry(NewSnapshot(videoId, video.value, nowIso), progress, now)
  {
    var i := IndexOfVideo(list, videoId);
    if i >= 0 then Some(list[i := Entry(list[i].video, progress, now)])
    else if video.None? then None
    else Some(list + [Entry(NewSnapshot(videoId, video.value, nowIso), progress, now)])
  }

  /**
   * An update to a video that is already listed does not look at the video
   * details passed with it: the stored snapshot wins.
   */
  lemma TouchedIgnoresVideo(list: seq<Entry>, videoId: string, progress: real, v1: Option<VideoInfo>, v2: Option<VideoInfo>,
                            now: int, nowIso: string)
    requires IndexOfVideo(list, videoId) >= 0
    ensures Touched(list, videoId, progress, v1, now, nowIso) == Touched(list, videoId, progress, v2, now, nowIso)
  {
  }

  /** `updateWatchProgress` on a profile's list: refreshed, sorted most recent first, cut to twenty entries. */
  function Progressed(list: seq<Entry>, videoId: string, progress: real, video: Option<VideoInfo>, now: int, nowIso: string)
    : (r: Option<seq<Entry>>)
    ensures r.None? <==> IndexOfVideo(list, videoId) == -1 && video.None?
    ensures r.Some? ==> |r.value| <= MaxEntries && |r.value| <= |list| + 1
    ensures r.Some? && |list| < MaxEntries ==> |r.value| == |Touched(list, videoId, progress, video, now, nowIso).value|
  {
    match Touched(list, videoId, progress, video, now, nowIso)
    case None => None
    case Some(t) => Some(Take(SortDesc(LastWatched, t), MaxEntries))
  }

  /**
   * A saved list is at most twenty entries long and ordered most recent
   * first, and nothing it dropped was watched more recently than anything
   * it kept.
   */
  lemma ProgressedOrdered(list: seq<Entry>, videoId: string, progress: real, video: Option<VideoInfo>, now: int, nowIso: string)
    requires Progressed(list, videoId, progress, video, now, nowIso).Some?
    ensures var r := Progressed(list, videoId, progress, video, now, nowIso).value;
            var t := Touched(list, videoId, progress, video, now, nowIso).value;
            && |r| <= MaxEntries
            && SortedDesc(LastWatched, r)
            && multiset(r) <= multiset(t)
            && (|t| <= MaxEntries ==> multiset(r) == multiset(t))
            && forall e :: e in multiset(t) - multiset(r) ==> forall k :: 0 <= k < |r| ==> r[k].lastWatchedAt >= e.lastWatchedAt
  {
    var t := Touched(list, videoId, progress, video, now, nowIso).value;
    var s := SortDesc(LastWatched, t);
    SortDescSorted(LastWatched, t);
    TakeSorted(LastWatched, s, MaxEntries);
  }

  /**
   * When the update is the most recent watch, the saved list starts with the
   * video's entry, holding the new progress and time: the stored snapshot
   * when the video was listed, else a new one built from the details given.
   */
  lemma ProgressedLeadsWithVideo(list: seq<Entry>, videoId: string, progress: real, video: Option<VideoInfo>, now: int, nowIso: string)
    requires Progressed(list, videoId, progress, video, now, nowIso).Some?
    requires forall j :: 0 <= j < |list| ==> list[j].lastWatchedAt < now
    ensures var r := Progressed(list, videoId, progress, video, now, nowIso).value;
            var i := IndexOfVideo(list, videoId);
            && r != []
            && r[0].video.id == videoId && r[0].progress == progress && r[0].lastWatchedAt == now
            && (i >= 0 ==> r[0].video == list[i].video)
            && (i == -1 ==> r[0].video == NewSnapshot(videoId, video.value, nowIso))
  {
    var t := Touched(list, videoId, progress, video, now, nowIso).value;
    var x := TouchedEntry(list, videoId, progress, video, now, nowIso);
    SortDescHead(LastWatched, t, x);
  }

  /** The entry an update refreshes or appends, which is newer than every other entry when `now` is later than all of them. */
  lemma TouchedEntry(list: seq<Entry>, videoId: string, progress: real, video: Option<VideoInfo>, now: int, nowIso: string)
    returns (x: Entry)
    requires Touched(list, videoId, progress, video, now, nowIso).Some?
    requires forall j :: 0 <= j < |list| ==> list[j].lastWatchedAt < now
    ensures var t := Touched(list, videoId, progress, video, now, nowIso).value;
            var i := IndexOfVideo(list, videoId);
            && x in t && x.video.id == videoId && x.progress == progress && x.lastWatchedAt == now
            && (i >= 0 ==> x.video == list[i].video)
            && (i == -1 ==> x.video == NewSnapshot(videoId, video.value, nowIso))
            && forall k :: 0 <= k < |t| && t[k] != x ==> LastWatched(t[k]) < LastWatched(x)
  {
    var t := Touched(list, videoId, progress, video, now, nowIso).value;
    var i := IndexOfVideo(list, videoId);
    x := if i >= 0 then t[i] else t[|t| - 1];
    forall k | 0 <= k < |t| && t[k] != x ensures LastWatched(t[k]) < LastWatched(x) {
      assert k < |list| && list[k] == t[k];
    }
  }

  /** A list in which no video appears twice keeps that property through an update. */
  lemma ProgressedDistinct(list: seq<Entry>, videoId: string, progress: real, video: Option<VideoInfo>, now: int, nowIso: string)
    requires DistinctBy(VideoIdOf, list)
    requires Progressed(list, videoId, progress, video, now, nowIso).Some?
    ensures DistinctBy(VideoIdOf, Progressed(list, videoId, progress, video, now, nowIso).value)
  {
    var t := Touched(list, videoId, progress, video, now, nowIso).value;
    assert DistinctBy(VideoIdOf, t) by {
      assert forall j :: 0 <= j < |list| ==> VideoIdOf(t[j]) == VideoIdOf(list[j]);
    }
    SortDescDistinct(LastWatched, VideoIdOf, t);
  }

  /** The part of browser storage that holds the lists, by storage key; a key that is not there is absent. */
  class ContinueWatchingStore {
    var items: map<string, Slot<seq<Entry>>>

    constructor (initial: map<string, Slot<seq<Entry>>>)
      ensures items == initial
    {
      items := initial;
    }

    /** What `localStorage.getItem(key)` finds. */
    function Read(key: string): Slot<seq<Entry>>
      reads this
    {
      if key in items then items[key] else Absent
    }

    /**
     * `fetchContinueWatching(profileId)` when the API is not used or fails:
     * the stored list, or an empty one when nothing readable is stored.
     */
    method FetchStored(profileId: string) returns (r: seq<Entry>)
      ensures Read(StorageKey(profileId)).Holds? ==> r == Read(StorageKey(profileId)).value
      ensures !Read(StorageKey(profileId)).Holds? ==> r == []
    {
      var stored := Read(StorageKey(profileId));
      if stored.Holds? {
        return stored.value;
      }
      r := [];
    }

    /** `saveContinueWatching(profileId, data)`. */
    method SaveContinueWatching(profileId: string, data: seq<Entry>)
      modifies this
      ensures forall p :: p != profileId ==> Read(StorageKey(p)) == old(Read(StorageKey(p)))
      ensures items == old(items)[StorageKey(profileId) := Holds(data)]
    {
      OtherKeysDiffer(profileId);
      items := items[StorageKey(profileId) := Holds(data)];
    }

    /**
     * `updateWatchProgress(profileId, videoId, progress, video)`. Nothing is
     * saved when the stored list cannot be read or a new entry has no video
     * details; other profiles' lists never change.
     */
    method UpdateWatchProgress(profileId: string, videoId: string, progress: real, video: Option<VideoInfo>, now: int, nowIso: string)
      modifies this
      ensures forall p :: p != profileId ==> Read(StorageKey(p)) == old(Read(StorageKey(p)))
      ensures var key := StorageKey(profileId);
              var current := old(Read(key));
              var next := if current.Corrupt? then None
                          else Progressed(if current.Holds? then current.value else [], videoId, progress, video, now, nowIso);
              items == if next.Some? then old(items)[key := Holds(next.value)] else old(items)
    {
      OtherKeysDiffer(profileId);
      var key := StorageKey(profileId);
      var current := Read(key);
      if current.Corrupt? {
        return;
      }
      var continueWatching := if current.Holds? then current.value else [];
      var existingIndex := IndexOfVideo(continueWatching, videoId);
      if existingIndex >= 0 {
        continueWatching := continueWatching[existingIndex := Entry(continueWatching[existingIndex].video, progress, now)];
      } else {
        if video.None? {
          return;
        }
        continueWatching := continueWatching + [Entry(NewSnapshot(videoId, video.value, nowIso), progress, now)];
      }
      continueWatching := SortDesc(LastWatched, continueWatching);
      continueWatching := Take(continueWatching, MaxEntries);
      SaveContinueWatching(profileId, continueWatching);
    }

    /** `removeFromContinueWatching(profileId, videoId)`: drops the video's entries from a readable stored list. */
    method RemoveFromContinueWatching(profileId: string, videoId: string)
      modifies this
      ensures forall p :: p != profileId ==> Read(StorageKey(p)) == old(Read(StorageKey(p)))
      ensures var key := StorageKey(profileId);
              items == if old(Read(key)).Holds?
                       then old(items)[key := Holds(Filter((e: Entry) => e.video.id != videoId, old(Read(key)).value))]
                       else old(items)
    {
      OtherKeysDiffer(profileId);
      var key := StorageKey(profileId);
      var current := Read(key);
      if !current.Holds? {
        return;
      }
      var filtered := Filter((e: Entry) => e.video.id != videoId, current.value);
      SaveContinueWatching(profileId, filtered);
    }

    /** `clearContinueWatching(profileId)`. */
    method ClearContinueWatching(profileId: string)
      modifies this
      ensures forall p :: p != profileId ==> Read(StorageKey(p)) == old(Read(StorageKey(p)))
      ensures items == old(items) - {StorageKey(profileId)}
      ensures Read(StorageKey(profileId)).Absent?
    {
      OtherKeysDiffer(profileId);
      items := items - {StorageKey(profileId)};
    }
  }

  /** Removing a video leaves no entry for it and keeps every other entry, in order. */
  lemma RemoveEffect(list: seq<Entry>, videoId: string)
    ensures var r := Filter((e: Entry) => e.video.id != videoId, list);
            && (forall k :: 0 <= k < |r| ==> r[k].video.id != videoId)
            && (forall e: Entry :: e.video.id != videoId ==> multiset(r)[e] == multiset(list)[e])
            && IsSubsequence(r, list)
  {
    var f := (e: Entry) => e.video.id != videoId;
    FilterIsSubsequence(f, list);
    forall e: Entry | e.video.id != videoId ensures multiset(Filter(f, list))[e] == multiset(list)[e] {
      FilterMultiplicity(f, list, e);
    }
  }
}
