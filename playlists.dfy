/**
 * The playlist store (frontend/src/utils/playlists.js): one array of
 * playlist records kept under the storage key `kebijo_playlists`, with
 * lookup, create, shallow-merge update, delete, and adding and removing
 * video ids. Generated ids and ISO timestamps are passed in.
 */
module Playlists {
  import opened Wrappers
  import opened Seqs

  const PlaylistsStorageKey: string := "kebijo_playlists"

  datatype Playlist = Playlist(
    id: string,
    name: string,
    description: string,
    thumbnail: Option<string>,
    videoIds: seq<string>,
    videoCount: int,
    createdAt: string,
    updatedAt: string)

  /** The fields a caller may pass to `updatePlaylist`; each one given overrides the stored one. */
  datatype PlaylistPatch = PlaylistPatch(
    id: Option<string>,
    name: Option<string>,
    description: Option<string>,
    thumbnail: Option<Option<string>>,
    videoIds: Option<seq<string>>,
    videoCount: Option<int>,
    createdAt: Option<string>)

  /** The fields `createPlaylist` reads from its argument. */
  datatype PlaylistData = PlaylistData(name: string, description: Option<string>)

  const DefaultPlaylists: seq<Playlist> := [
    Playlist("1", "Christmas 2024", "All our Christmas memories from 2024", None, ["6", "5"], 2, "2024-12-25", "2024-12-25"),
    Playlist("2", "Baby's First Year", "Precious moments from the first year", None, ["4", "2"], 2, "2024-01-01", "2024-01-15"),
    Playlist("3", "Family Trips", "Our adventures together", None, ["1", "3"], 2, "2024-01-10", "2024-01-15"),
    Playlist("4", "Birthday Celebrations", "All the birthday fun", None, ["2"], 1, "2024-01-10", "2024-01-10")
  ]

  /** Every record's `videoCount` is the length of its `videoIds`, and no video id is listed twice. */
  ghost predicate WellFormed(ps: seq<Playlist>) {
    forall i :: 0 <= i < |ps| ==>
      ps[i].videoCount == |ps[i].videoIds| && DistinctBy((v: string) => v, ps[i].videoIds)
  }

  lemma DefaultsWellFormed()
    ensures WellFormed(DefaultPlaylists)
  {
  }

  /** What `getPlaylists` returns for what the key holds: the stored array, else the defaults. */
  function Loaded(slot: Slot<seq<Playlist>>): seq<Playlist> {
    if slot.Holds? then slot.value else DefaultPlaylists
  }

  /** The key after `getPlaylists` has read it: an empty key is filled with the defaults. */
  function AfterRead(slot: Slot<seq<Playlist>>): (s: Slot<seq<Playlist>>)
    ensures Loaded(s) == Loaded(slot)
  {
    if slot.Absent? then Holds(DefaultPlaylists) else slot
  }

  /** `playlists.findIndex((p) => p.id === id)`. */
  function IndexOfId(ps: seq<Playlist>, id: string): (i: int)
    ensures -1 <= i < |ps|
    ensures i >= 0 ==> ps[i].id == id && forall j :: 0 <= j < i ==> ps[j].id != id
    ensures i == -1 <==> forall j :: 0 <= j < |ps| ==> ps[j].id != id
  {
    if ps == [] then -1
    else if ps[0].id == id then 0
    else
      var k := IndexOfId(ps[1..], id);
      assert forall j :: 1 <= j < |ps| ==> ps[j] == ps[1..][j - 1];
      if k == -1 then -1 else k + 1
  }

  /** `playlists.find((p) => p.id === id) || null`: the first record with that id. */
  function FindById(ps: seq<Playlist>, id: string): (r: Option<Playlist>)
    ensures r.None? <==> forall j :: 0 <= j < |ps| ==> ps[j].id != id
    ensures r.Some? ==> exists i :: 0 <= i < |ps| && r.value == ps[i] && r.value.id == id
                                      && forall j :: 0 <= j < i ==> ps[j].id != id
  {
    var i := IndexOfId(ps, id);
    if i >= 0 then Some(ps[i]) else None
  }

  /** `{...p, ...updates, updatedAt: now}`. */
  function Merge(p: Playlist, u: PlaylistPatch, now: string): (r: Playlist)
    ensures r.updatedAt == now
    ensures u.id.None? ==> r.id == p.id
    ensures u.id.Some? ==> r.id == u.id.value
    ensures u.name.Some? ==> r.name == u.name.value
    ensures u.name.None? ==> r.name == p.name
    ensures u.description.Some? ==> r.description == u.description.value
    ensures u.description.None? ==> r.description == p.description
    ensures u.thumbnail.Some? ==> r.thumbnail == u.thumbnail.value
    ensures u.thumbnail.None? ==> r.thumbnail == p.thumbnail
    ensures u.videoIds.Some? ==> r.videoIds == u.videoIds.value
    ensures u.videoIds.None? ==> r.videoIds == p.videoIds
    ensures u.videoCount.Some? ==> r.videoCount == u.videoCount.value
    ensures u.videoCount.None? ==> r.videoCount == p.videoCount
    ensures u.createdAt.Some? ==> r.createdAt == u.createdAt.value
    ensures u.createdAt.None? ==> r.createdAt == p.createdAt
    ensures u == PlaylistPatch(None, None, None, None, None, None, None) ==> r == p.(updatedAt := now)
  {
    Playlist(
      u.id.GetOr(p.id),
      u.name.GetOr(p.name),
      u.description.GetOr(p.description),
      u.thumbnail.GetOr(p.thumbnail),
      u.videoIds.GetOr(p.videoIds),
      u.videoCount.GetOr(p.videoCount),
      u.createdAt.GetOr(p.createdAt),
      now)
  }

  /** The patch `addVideoToPlaylist` and `removeVideoFromPlaylist` pass on: new ids and their count. */
  function VideoIdsPatch(ids: seq<string>): PlaylistPatch {
    PlaylistPatch(None, None, None, None, Some(ids), Some(|ids|), None)
  }

  /** `videoIds.filter((id) => id !== videoId)`. */
  function WithoutVideo(ids: seq<string>, videoId: string): seq<string> {
    Filter((v: string) => v != videoId, ids)
  }

  /** `playlists.filter((p) => p.videoIds.includes(videoId))`. */
  function PlaylistsWithVideo(ps: seq<Playlist>, videoId: string): seq<Playlist> {
    Filter((p: Playlist) => videoId in p.videoIds, ps)
  }

  /** `playlists.filter((p) => p.id !== id)`. */
  function WithoutPlaylist(ps: seq<Playlist>, id: string): (r: seq<Playlist>)
    ensures forall k :: 0 <= k < |r| ==> r[k] in ps && r[k].id != id
    ensures forall k :: 0 <= k < |ps| && ps[k].id != id ==> ps[k] in r
    ensures |r| == |ps| <==> forall k :: 0 <= k < |ps| ==> ps[k].id != id
  {
    var keep := (p: Playlist) => p.id != id;
    FilterShrinks(keep, ps);
    Filter(keep, ps)
  }

  /**
   * `addVideoToPlaylist` on what the key holds: its result and the key
   * afterwards. Nothing is written when the playlist is unknown or already
   * lists the video.
   */
  function AddVideo(slot: Slot<seq<Playlist>>, playlistId: string, videoId: string, now: string)
    : (r: (Option<Playlist>, Slot<seq<Playlist>>))
    ensures var ps := Loaded(slot); var i := IndexOfId(ps, playlistId);
            && (i == -1 ==> r == (None, AfterRead(slot)))
            && (i >= 0 && videoId in ps[i].videoIds ==> r == (Some(ps[i]), AfterRead(slot)))
            && (i >= 0 && videoId !in ps[i].videoIds ==>
                  && r.0.Some? && r.0.value.id == playlistId && r.0.value.updatedAt == now
                  && r.0.value.videoIds == ps[i].videoIds + [videoId]
                  && r.0.value.videoCount == |ps[i].videoIds| + 1
                  && r.0.value == ps[i].(videoIds := ps[i].videoIds + [videoId], videoCount := |ps[i].videoIds| + 1, updatedAt := now)
                  && r.1 == Holds(ps[i := r.0.value]))
  {
    var ps := Loaded(slot);
    var i := IndexOfId(ps, playlistId);
    if i == -1 then (None, AfterRead(slot))
    else if videoId in ps[i].videoIds then (Some(ps[i]), AfterRead(slot))
    else
      var q := Merge(ps[i], VideoIdsPatch(ps[i].videoIds + [videoId]), now);
      (Some(q), Holds(ps[i := q]))
  }

  /** `removeVideoFromPlaylist` on what the key holds: its result and the key afterwards. */
  function RemoveVideo(slot: Slot<seq<Playlist>>, playlistId: string, videoId: string, now: string)
    : (r: (Option<Playlist>, Slot<seq<Playlist>>))
    ensures var ps := Loaded(slot); var i := IndexOfId(ps, playlistId);
            && (i == -1 ==> r == (None, AfterRead(slot)))
            && (i >= 0 ==>
                  && r.0.Some? && r.0.value.id == playlistId && r.0.value.updatedAt == now
                  && videoId !in r.0.value.videoIds
                  && r.0.value.videoCount == |r.0.value.videoIds|
                  && r.0.value == ps[i].(videoIds := WithoutVideo(ps[i].videoIds, videoId),
                                         videoCount := |WithoutVideo(ps[i].videoIds, videoId)|, updatedAt := now)
                  && r.1 == Holds(ps[i := r.0.value]))
  {
    var ps := Loaded(slot);
    var i := IndexOfId(ps, playlistId);
    if i == -1 then (None, AfterRead(slot))
    else
      var q := Merge(ps[i], VideoIdsPatch(WithoutVideo(ps[i].videoIds, videoId)), now);
      (Some(q), Holds(ps[i := q]))
  }

  /**
   * Adding a video is idempotent: a second add of the same video to the same
   * playlist returns the record unchanged and writes nothing; the video is
   * then listed exactly once, and the count is the list's length.
   */
  lemma AddVideoIdempotent(slot: Slot<seq<Playlist>>, playlistId: string, videoId: string, now1: string, now2: string)
    ensures var (r1, s1) := AddVideo(slot, playlistId, videoId, now1);
            var (r2, s2) := AddVideo(s1, playlistId, videoId, now2);
            r2 == r1 && s2 == s1
    ensures var ps := Loaded(slot); var i := IndexOfId(ps, playlistId);
            var (r1, _) := AddVideo(slot, playlistId, videoId, now1);
            i >= 0 && videoId !in ps[i].videoIds ==>
              multiset(r1.value.videoIds)[videoId] == 1 && r1.value.videoCount == |r1.value.videoIds|
  {
    var ps := Loaded(slot);
    var i := IndexOfId(ps, playlistId);
    if i >= 0 {
      var q := Merge(ps[i], VideoIdsPatch(ps[i].videoIds + [videoId]), now1);
      IndexAfterReplace(ps, playlistId, q);
      assert multiset(q.videoIds) == multiset(ps[i].videoIds) + multiset{videoId};
    } else {
      assert AfterRead(AfterRead(slot)) == AfterRead(slot);
    }
  }

  /** Replacing the first record with an id by one with the same id leaves it first. */
  lemma IndexAfterReplace(ps: seq<Playlist>, id: string, q: Playlist)
    requires IndexOfId(ps, id) >= 0 && q.id == id
    ensures IndexOfId(ps[IndexOfId(ps, id) := q], id) == IndexOfId(ps, id)
  {
    var i := IndexOfId(ps, id);
    var ps1 := ps[i := q];
    assert ps1[i] == q;
    assert forall j :: 0 <= j < i ==> ps1[j] == ps[j];
    var k := IndexOfId(ps1, id);
    assert k != -1;
    assert !(k < i) && !(k > i);
  }

  /** Adding keeps every record well formed: the id is appended only when absent, and the count follows. */
  lemma AddVideoWellFormed(slot: Slot<seq<Playlist>>, playlistId: string, videoId: string, now: string)
    requires WellFormed(Loaded(slot))
    ensures WellFormed(Loaded(AddVideo(slot, playlistId, videoId, now).1))
  {
    var ps := Loaded(slot);
    var i := IndexOfId(ps, playlistId);
    if i >= 0 && videoId !in ps[i].videoIds {
      var ids := ps[i].videoIds + [videoId];
      assert forall a, b :: 0 <= a < b < |ids| ==> ids[a] != ids[b] by {
        forall a, b | 0 <= a < b < |ids| ensures ids[a] != ids[b] {
          if b == |ids| - 1 {
            assert ids[a] in ps[i].videoIds;
          }
        }
      }
    }
  }

  /**
   * Removing deletes every occurrence of the video, keeps the other ids in
   * their order, and sets the count to the new length.
   */
  lemma RemoveVideoEffect(slot: Slot<seq<Playlist>>, playlistId: string, videoId: string, now: string)
    requires IndexOfId(Loaded(slot), playlistId) >= 0
    ensures var (r, _) := RemoveVideo(slot, playlistId, videoId, now);
            var old_ids := Loaded(slot)[IndexOfId(Loaded(slot), playlistId)].videoIds;
            && r.Some?
            && videoId !in r.value.videoIds
            && (forall v :: v != videoId ==> multiset(r.value.videoIds)[v] == multiset(old_ids)[v])
            && IsSubsequence(r.value.videoIds, old_ids)
            && r.value.videoCount == |r.value.videoIds|
  {
    var ps := Loaded(slot);
    var old_ids := ps[IndexOfId(ps, playlistId)].videoIds;
    var f := (v: string) => v != videoId;
    FilterIsSubsequence(f, old_ids);
    forall v | v != videoId ensures multiset(Filter(f, old_ids))[v] == multiset(old_ids)[v] {
      FilterMultiplicity(f, old_ids, v);
    }
    FilterMultiplicity(f, old_ids, videoId);
  }

  /** Removing keeps every record well formed. */
  lemma RemoveVideoWellFormed(slot: Slot<seq<Playlist>>, playlistId: string, videoId: string, now: string)
    requires WellFormed(Loaded(slot))
    ensures WellFormed(Loaded(RemoveVideo(slot, playlistId, videoId, now).1))
  {
    var ps := Loaded(slot);
    var i := IndexOfId(ps, playlistId);
    if i >= 0 {
      FilterDistinct((v: string) => v != videoId, (v: string) => v, ps[i].videoIds);
    }
  }

  /** `deletePlaylist` reports a deletion exactly when some stored record had that id. */
  lemma DeleteReportsRemoval(ps: seq<Playlist>, id: string)
    ensures |WithoutPlaylist(ps, id)| < |ps| <==> exists i :: 0 <= i < |ps| && ps[i].id == id
  {
    FilterShrinks((p: Playlist) => p.id != id, ps);
  }

  /** What deletion keeps: every record with another id, each as often as before, in the same order. */
  lemma DeleteKeepsOthers(ps: seq<Playlist>, id: string)
    ensures forall i :: 0 <= i < |WithoutPlaylist(ps, id)| ==> WithoutPlaylist(ps, id)[i].id != id
    ensures forall p: Playlist :: p.id != id ==> multiset(WithoutPlaylist(ps, id))[p] == multiset(ps)[p]
    ensures IsSubsequence(WithoutPlaylist(ps, id), ps)
  {
    var f := (p: Playlist) => p.id != id;
    FilterIsSubsequence(f, ps);
    forall p: Playlist | p.id != id ensures multiset(Filter(f, ps))[p] == multiset(ps)[p] {
      FilterMultiplicity(f, ps, p);
    }
  }

  /** `getPlaylistsForVideo` returns exactly the records listing the video, each as often as stored, in stored order. */
  lemma PlaylistsWithVideoExact(ps: seq<Playlist>, videoId: string)
    ensures forall i :: 0 <= i < |PlaylistsWithVideo(ps, videoId)| ==> videoId in PlaylistsWithVideo(ps, videoId)[i].videoIds
    ensures forall p: Playlist :: videoId in p.videoIds ==> multiset(PlaylistsWithVideo(ps, videoId))[p] == multiset(ps)[p]
    ensures IsSubsequence(PlaylistsWithVideo(ps, videoId), ps)
  {
    var f := (p: Playlist) => videoId in p.videoIds;
    FilterIsSubsequence(f, ps);
    forall p: Playlist | videoId in p.videoIds ensures multiset(Filter(f, ps))[p] == multiset(ps)[p] {
      FilterMultiplicity(f, ps, p);
    }
  }

  /** The browser-storage key `kebijo_playlists` and the operations over it. */
  class PlaylistStore {
    var stored: Slot<seq<Playlist>>

    constructor (initial: Slot<seq<Playlist>>)
      ensures stored == initial
    {
      stored := initial;
    }

    /** `getPlaylists()`: the stored array; with nothing stored, the defaults, which are also saved. */
    method GetPlaylists() returns (ps: seq<Playlist>)
      modifies this
      ensures ps == Loaded(old(stored))
      ensures stored == AfterRead(old(stored))
    {
      if stored.Holds? {
        return stored.value;
      }
      if stored.Absent? {
        stored := Holds(DefaultPlaylists);
      }
      ps := DefaultPlaylists;
    }

    /** `getPlaylistById(id)`. */
    method GetPlaylistById(id: string) returns (r: Option<Playlist>)
      modifies this
      ensures r == FindById(Loaded(old(stored)), id)
      ensures stored == AfterRead(old(stored))
    {
      var ps := GetPlaylists();
      r := FindById(ps, id);
    }

    /** `createPlaylist(data)`: one new empty record appended after the others. */
    method CreatePlaylist(data: PlaylistData, newId: string, createdAt: string, updatedAt: string) returns (p: Playlist)
      modifies this
      ensures p == Playlist(newId, data.name, data.description.GetOr(""), None, [], 0, createdAt, updatedAt)
      ensures stored == Holds(Loaded(old(stored)) + [p])
      ensures WellFormed(Loaded(old(stored))) ==> WellFormed(Loaded(stored))
    {
      var ps := GetPlaylists();
      p := Playlist(newId, data.name, data.description.GetOr(""), None, [], 0, createdAt, updatedAt);
      stored := Holds(ps + [p]);
    }

    /** `updatePlaylist(id, updates)`: the first record with that id is merged with `updates`, in place. */
    method UpdatePlaylist(id: string, updates: PlaylistPatch, now: string) returns (r: Option<Playlist>)
      modifies this
      ensures var ps := Loaded(old(stored)); var i := IndexOfId(ps, id);
        && (i == -1 ==> r == None && stored == AfterRead(old(stored)))
        && (i >= 0 ==> r == Some(Merge(ps[i], updates, now)) && stored == Holds(ps[i := r.value]))
    {
      var ps := GetPlaylists();
      var index := IndexOfId(ps, id);
      if index == -1 {
        return None;
      }
      var updated := Merge(ps[index], updates, now);
      ps := ps[index := updated];
      stored := Holds(ps);
      r := Some(updated);
    }

    /** `deletePlaylist(id)`: every record with that id is dropped; reports whether any was. */
    method DeletePlaylist(id: string) returns (deleted: bool)
      modifies this
      ensures stored == Holds(WithoutPlaylist(Loaded(old(stored)), id))
      ensures deleted <==> exists i :: 0 <= i < |Loaded(old(stored))| && Loaded(old(stored))[i].id == id
    {
      var ps := GetPlaylists();
      var filtered := WithoutPlaylist(ps, id);
      stored := Holds(filtered);
      deleted := |filtered| < |ps|;
      DeleteReportsRemoval(ps, id);
    }

    /** `addVideoToPlaylist(playlistId, videoId)`. */
    method AddVideoToPlaylist(playlistId: string, videoId: string, now: string) returns (r: Option<Playlist>)
      modifies this
      ensures (r, stored) == AddVideo(old(stored), playlistId, videoId, now)
    {
      var playlist := GetPlaylistById(playlistId);
      if playlist.None? {
        return None;
      }
      if videoId in playlist.value.videoIds {
        return playlist;
      }
      var updatedVideoIds := playlist.value.videoIds + [videoId];
      r := UpdatePlaylist(playlistId, VideoIdsPatch(updatedVideoIds), now);
    }

    /** `removeVideoFromPlaylist(playlistId, videoId)`. */
    method RemoveVideoFromPlaylist(playlistId: string, videoId: string, now: string) returns (r: Option<Playlist>)
      modifies this
      ensures (r, stored) == RemoveVideo(old(stored), playlistId, videoId, now)
    {
      var playlist := GetPlaylistById(playlistId);
      if playlist.None? {
        return None;
      }
      var updatedVideoIds := WithoutVideo(playlist.value.videoIds, videoId);
      r := UpdatePlaylist(playlistId, VideoIdsPatch(updatedVideoIds), now);
    }

    /** `getPlaylistsForVideo(videoId)`. */
    method GetPlaylistsForVideo(videoId: string) returns (r: seq<Playlist>)
      modifies this
      ensures r == PlaylistsWithVideo(Loaded(old(stored)), videoId)
      ensures stored == AfterRead(old(stored))
    {
      var ps := GetPlaylists();
      r := PlaylistsWithVideo(ps, videoId);
    }
  }
}
