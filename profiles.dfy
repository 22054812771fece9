/**
 * Family profiles (frontend/src/context/ProfileContext.jsx): the list of
 * profiles and the active one, both held in memory and mirrored to two
 * browser-storage keys. Generated ids are passed in.
 */
module Profiles {
  import opened Wrappers
  import opened Seqs

  const ProfilesStorageKey: string := "kebijo_profiles"
  const ActiveProfileKey: string := "kebijo_active_profile"

  datatype Profile = Profile(id: string, name: string, avatar: Option<string>, color: string, isChild: bool)

  /** The fields a caller may pass to `updateProfile`; each one given overrides. */
  datatype ProfilePatch = ProfilePatch(
    id: Option<string>,
    name: Option<string>,
    avatar: Option<Option<string>>,
    color: Option<string>,
    isChild: Option<bool>)

  /** What `addProfile` is given: an `id` of its own is optional and wins over the generated one. */
  datatype ProfileData = ProfileData(id: Option<string>, name: string, color: string, isChild: bool)

  const DefaultProfiles: seq<Profile> := [
    Profile("1", "Dad", None, "#0066e6", false),
    Profile("2", "Mum", None, "#564d4d", false),
    Profile("3", "Tobi", None, "#0071eb", true),
    Profile("4", "Grandma", None, "#003d80", false)
  ]

  function IdOf(p: Profile): string {
    p.id
  }

  /** The default profiles have distinct ids and no avatar. */
  lemma DefaultProfilesDistinct()
    ensures DistinctBy(IdOf, DefaultProfiles)
    ensures forall i :: 0 <= i < |DefaultProfiles| ==> DefaultProfiles[i].avatar.None?
  {
  }

  /** `{...p, ...updates}`. */
  function Merge(p: Profile, u: ProfilePatch): (r: Profile)
    ensures u.id.None? ==> r.id == p.id
    ensures u.id.Some? ==> r.id == u.id.value
    ensures u.name.Some? ==> r.name == u.name.value
    ensures u.name.None? ==> r.name == p.name
    ensures u.avatar.Some? ==> r.avatar == u.avatar.value
    ensures u.avatar.None? ==> r.avatar == p.avatar
    ensures u.color.Some? ==> r.color == u.color.value
    ensures u.color.None? ==> r.color == p.color
    ensures u.isChild.Some? ==> r.isChild == u.isChild.value
    ensures u.isChild.None? ==> r.isChild == p.isChild
    ensures u == ProfilePatch(None, None, None, None, None) ==> r == p
  {
    Profile(u.id.GetOr(p.id), u.name.GetOr(p.name), u.avatar.GetOr(p.avatar), u.color.GetOr(p.color), u.isChild.GetOr(p.isChild))
  }

  /** `profiles.map((p) => p.id === profileId ? {...p, ...updates} : p)`. */
  function UpdatedProfiles(ps: seq<Profile>, profileId: string, u: ProfilePatch): (r: seq<Profile>)
    ensures |r| == |ps|
    ensures forall i :: 0 <= i < |ps| ==> r[i] == if ps[i].id == profileId then Merge(ps[i], u) else ps[i]
  {
    seq(|ps|, i requires 0 <= i < |ps| => if ps[i].id == profileId then Merge(ps[i], u) else ps[i])
  }

  /** `profiles.filter((p) => p.id !== profileId)`. */
  function WithoutProfile(ps: seq<Profile>, profileId: string): (r: seq<Profile>)
    ensures forall k :: 0 <= k < |r| ==> r[k] in ps && r[k].id != profileId
    ensures forall k :: 0 <= k < |ps| && ps[k].id != profileId ==> ps[k] in r
    ensures |r| == |ps| <==> forall k :: 0 <= k < |ps| ==> ps[k].id != profileId
  {
    var keep := (p: Profile) => p.id != profileId;
    FilterShrinks(keep, ps);
    Filter(keep, ps)
  }

  /**
   * An update keeps every profile it does not touch and merges every one it
   * does; a listed profile is found again, merged when its id matched.
   */
  lemma UpdateKeepsListed(ps: seq<Profile>, profileId: string, u: ProfilePatch, a: Profile)
    requires a in ps
    ensures (if a.id == profileId then Merge(a, u) else a) in UpdatedProfiles(ps, profileId, u)
  {
    var i :| 0 <= i < |ps| && ps[i] == a;
    assert UpdatedProfiles(ps, profileId, u)[i] == if a.id == profileId then Merge(a, u) else a;
  }

  /** Deletion removes every profile with the id and keeps each other one, as often as listed and in order. */
  lemma DeleteEffect(ps: seq<Profile>, profileId: string)
    ensures forall i :: 0 <= i < |WithoutProfile(ps, profileId)| ==> WithoutProfile(ps, profileId)[i].id != profileId
    ensures forall p: Profile :: p.id != profileId ==> multiset(WithoutProfile(ps, profileId))[p] == multiset(ps)[p]
    ensures IsSubsequence(WithoutProfile(ps, profileId), ps)
  {
    FilterExact((p: Profile) => p.id != profileId, ps);
  }

  /** The provider's state: the two in-memory values and the two storage keys behind them. */
  class ProfileState {
    var profiles: seq<Profile>
    var active: Option<Profile>
    var storedProfiles: Slot<seq<Profile>>
    var storedActive: Slot<Profile>

    /** The provider as it mounts: no profiles and no active one yet. */
    constructor (profilesSlot: Slot<seq<Profile>>, activeSlot: Slot<Profile>)
      ensures profiles == [] && active.None?
      ensures storedProfiles == profilesSlot && storedActive == activeSlot
    {
      profiles := [];
      active := None;
      storedProfiles := profilesSlot;
      storedActive := activeSlot;
    }

    /** The active profile, when there is one, is one of the listed profiles. */
    predicate ActiveListed()
      reads this
    {
      active.Some? ==> active.value in profiles
    }

    /**
     * `loadProfiles()`. Stored profiles are taken as they are; with none
     * stored the defaults are used and saved. A stored active profile is
     * restored. When either stored value cannot be read the list falls back
     * to the defaults in memory only, and the active profile stays as it was.
     */
    method LoadProfiles()
      modifies this
      ensures storedActive == old(storedActive)
      ensures storedProfiles == if old(storedProfiles).Absent? then Holds(DefaultProfiles) else old(storedProfiles)
      ensures profiles == if old(storedProfiles).Holds? && !old(storedActive).Corrupt? then old(storedProfiles).value else DefaultProfiles
      ensures active == if old(storedProfiles).Corrupt? || !old(storedActive).Holds? then old(active) else Some(old(storedActive).value)
    {
      if storedProfiles.Holds? {
        profiles := storedProfiles.value;
      } else if storedProfiles.Absent? {
        profiles := DefaultProfiles;
        storedProfiles := Holds(DefaultProfiles);
      } else {
        profiles := DefaultProfiles;
        return;
      }
      if storedActive.Holds? {
        active := Some(storedActive.value);
      } else if storedActive.Corrupt? {
        profiles := DefaultProfiles;
      }
    }

    /** `selectProfile(profile)`: it becomes the active profile and is saved. */
    method SelectProfile(profile: Profile)
      modifies this
      ensures active == Some(profile) && storedActive == Holds(profile)
      ensures profiles == old(profiles) && storedProfiles == old(storedProfiles)
    {
      active := Some(profile);
      storedActive := Holds(profile);
    }

    /** `switchProfile()`, without the navigation: no profile is active and none is saved as active. */
    method SwitchProfile()
      modifies this
      ensures active.None? && storedActive.Absent?
      ensures profiles == old(profiles) && storedProfiles == old(storedProfiles)
      ensures ActiveListed()
    {
      active := None;
      storedActive := Absent;
    }

    /** `addProfile(data)`: one profile appended, with no avatar; a given `id` wins over the generated one. */
    method AddProfile(data: ProfileData, newId: string) returns (p: Profile)
      modifies this
      ensures p == Profile(data.id.GetOr(newId), data.name, None, data.color, data.isChild)
      ensures profiles == old(profiles) + [p] && storedProfiles == Holds(profiles)
      ensures active == old(active) && storedActive == old(storedActive)
      ensures old(ActiveListed()) ==> ActiveListed()
    {
      p := Profile(data.id.GetOr(newId), data.name, None, data.color, data.isChild);
      profiles := profiles + [p];
      storedProfiles := Holds(profiles);
    }

    /**
     * `updateProfile(profileId, updates)`: every profile with the id is
     * merged with the updates; the active profile is merged and saved too
     * when it has that id.
     */
    method UpdateProfile(profileId: string, updates: ProfilePatch)
      modifies this
      ensures profiles == UpdatedProfiles(old(profiles), profileId, updates) && storedProfiles == Holds(profiles)
      ensures old(active).Some? && old(active).value.id == profileId ==>
                active == Some(Merge(old(active).value, updates)) && storedActive == Holds(active.value)
      ensures !(old(active).Some? && old(active).value.id == profileId) ==>
                active == old(active) && storedActive == old(storedActive)
      ensures old(ActiveListed()) ==> ActiveListed()
    {
      if active.Some? && active.value in profiles {
        UpdateKeepsListed(profiles, profileId, updates, active.value);
      }
      profiles := UpdatedProfiles(profiles, profileId, updates);
      storedProfiles := Holds(profiles);
      if active.Some? && active.value.id == profileId {
        var updatedActive := Merge(active.value, updates);
        active := Some(updatedActive);
        storedActive := Holds(updatedActive);
      }
    }

    /**
     * `deleteProfile(profileId)`: every profile with the id goes; the active
     * profile is cleared and unsaved exactly when it had that id.
     */
    method DeleteProfile(profileId: string)
      modifies this
      ensures profiles == WithoutProfile(old(profiles), profileId) && storedProfiles == Holds(profiles)
      ensures old(active).Some? && old(active).value.id == profileId ==> active.None? && storedActive.Absent?
      ensures !(old(active).Some? && old(active).value.id == profileId) ==>
                active == old(active) && storedActive == old(storedActive)
      ensures old(ActiveListed()) ==> ActiveListed()
    {
      if active.Some? && active.value.id != profileId && active.value in profiles {
        FilterExact((p: Profile) => p.id != profileId, profiles);
        assert active.value in multiset(profiles);
      }
      profiles := WithoutProfile(profiles, profileId);
      storedProfiles := Holds(profiles);
      if active.Some? && active.value.id == profileId {
        active := None;
        storedActive := Absent;
      }
    }
  }
}
