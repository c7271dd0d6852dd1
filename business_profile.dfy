/** The business-profile screen as a state machine over the profile list,
    the current profile, the two mode flags and the form. Every handler that
    persists something writes through the store as well. */
module BusinessProfiles {
  import opened Types
  import opened Strings
  import ById
  import Storage

  /** The form's `Partial<BusinessProfile>`: the fields `handleSave` reads. */
  datatype ProfileForm = ProfileForm(
    name: string,
    email: string,
    phone: string,
    address: string,
    city: string,
    state: string,
    zipCode: string,
    country: string,
    website: Option<string>,
    taxNumber: Option<string>,
    logo: Option<string>)

  /** The blank form the screen starts with and resets to. */
  const EmptyForm := ProfileForm("", "", "", "", "", "", "", "", Some(""), Some(""), Some(""))

  /** `setFormData(profile)`. */
  function FormOf(p: BusinessProfile): (f: ProfileForm)
    ensures f.name == p.name && f.email == p.email && f.website == p.website && f.logo == p.logo
  {
    ProfileForm(p.name, p.email, p.phone, p.address, p.city, p.state, p.zipCode, p.country,
      p.website, p.taxNumber, p.logo)
  }

  /** The id `handleSave` gives the profile: `currentProfile?.id || newId`. */
  function SaveId(current: Option<BusinessProfile>, newId: string): (id: string)
    ensures current.Some? && current.value.id != "" ==> id == current.value.id
    ensures current.None? || current.value.id == "" ==> id == newId
  {
    if current.Some? then Or(current.value.id, newId) else newId
  }

  /** The record `handleSave` builds: the current profile's id and creation
      time when there is one, the form's fields, and '' for every absent
      optional field. */
  function BuildProfile(f: ProfileForm, current: Option<BusinessProfile>, newId: string, now: Timestamp): (p: BusinessProfile)
    ensures p.id == SaveId(current, newId)
    ensures p.name == f.name && p.email == f.email && p.phone == f.phone && p.country == f.country
    ensures p.website == Some(OrOpt(f.website, "")) && p.taxNumber == Some(OrOpt(f.taxNumber, ""))
    ensures p.logo == Some(OrOpt(f.logo, ""))
    ensures p.createdAt == (if current.Some? then current.value.createdAt else now) && p.updatedAt == now
  {
    BusinessProfile(SaveId(current, newId), f.name, f.email, f.phone, f.address, f.city, f.state,
      f.zipCode, f.country, Some(OrOpt(f.website, "")), Some(OrOpt(f.logo, "")),
      Some(OrOpt(f.taxNumber, "")), if current.Some? then current.value.createdAt else now, now)
  }

  /** Editing a profile and saving the untouched form gives the profile back
      with a new update time, its absent optional fields now ''. */
  lemma EditSaveRoundTrip(p: BusinessProfile, newId: string, now: Timestamp)
    requires p.id != ""
    ensures BuildProfile(FormOf(p), Some(p), newId, now)
      == p.(website := Some(OrOpt(p.website, "")), logo := Some(OrOpt(p.logo, "")),
            taxNumber := Some(OrOpt(p.taxNumber, "")), updatedAt := now)
  {
  }

  /** Because "create new" keeps the current profile, the profile saved
      from the blank form takes the current profile's id: it replaces that
      profile in its place and the list does not grow. */
  lemma {:induction false} NewProfileReplacesCurrent(profiles: seq<BusinessProfile>, current: BusinessProfile,
                                 f: ProfileForm, newId: string, now: Timestamp, i: nat)
    requires current.id != "" && i < |profiles| && profiles[i].id == current.id
    requires forall j :: 0 <= j < i ==> profiles[j].id != current.id
    ensures var p := BuildProfile(f, Some(current), newId, now);
      var r := ById.Upsert(profiles, Storage.ProfileId, p);
      |r| == |profiles| && r[i] == p && forall j :: 0 <= j < |profiles| && j != i ==> r[j] == profiles[j]
  {
    ById.UpsertReplaces(profiles, Storage.ProfileId, BuildProfile(f, Some(current), newId, now), i);
  }

  /** The two store writes of `handleSave`: upsert the profile into the
      stored list, then make it the stored current profile. */
  method Persist(store: Storage.Store, p: BusinessProfile)
    modifies store
    ensures store.data == old(store.data)[Storage.ProfilesKey := Storage.ProfileList(ById.Upsert(old(store.GetBusinessProfiles()), Storage.ProfileId, p))]
                                         [Storage.CurrentProfileKey := Storage.ProfileRecord(p)]
    ensures store.GetCurrentProfile() == Some(p)
    ensures ById.Find(store.GetBusinessProfiles(), Storage.ProfileId, p.id) == Some(p)
  {
    store.SaveBusinessProfile(p);
    store.SetCurrentProfile(p);
  }

  class ProfileManager {
    var profiles: seq<BusinessProfile>
    var currentProfile: Option<BusinessProfile>
    var isEditing: bool
    var isCreating: bool
    var formData: ProfileForm

    /** The screen as first rendered. */
    constructor()
      ensures profiles == [] && currentProfile.None? && !isEditing && !isCreating && formData == EmptyForm
    {
      profiles := [];
      currentProfile := None;
      isEditing := false;
      isCreating := false;
      formData := EmptyForm;
    }

    /** `loadProfiles`: the stored list and current profile; the form shows
        the current profile when there is one. */
    method LoadProfiles(store: Storage.Store)
      modifies this
      ensures profiles == store.GetBusinessProfiles() && currentProfile == store.GetCurrentProfile()
      ensures formData == (if currentProfile.Some? then FormOf(currentProfile.value) else old(formData))
      ensures isEditing == old(isEditing) && isCreating == old(isCreating)
    {
      profiles := store.GetBusinessProfiles();
      currentProfile := store.GetCurrentProfile();
      if currentProfile.Some? {
        formData := FormOf(currentProfile.value);
      }
    }

    /** `handleSave`: with the name or e-mail missing nothing changes;
        otherwise the built profile is saved and made current, both in the
        store and on the screen, and both mode flags drop. */
    method HandleSave(store: Storage.Store, newId: string, now: Timestamp) returns (saved: bool)
      modifies this, store
      ensures saved <==> formData.name != "" && formData.email != ""
      ensures !saved ==>
        && store.data == old(store.data) && profiles == old(profiles) && currentProfile == old(currentProfile)
        && isEditing == old(isEditing) && isCreating == old(isCreating)
      ensures saved ==>
        var p := BuildProfile(formData, old(currentProfile), newId, now);
        && store.data == old(store.data)[Storage.ProfilesKey := Storage.ProfileList(ById.Upsert(old(store.GetBusinessProfiles()), Storage.ProfileId, p))]
                                        [Storage.CurrentProfileKey := Storage.ProfileRecord(p)]
        && store.GetCurrentProfile() == Some(p)
        && ById.Find(store.GetBusinessProfiles(), Storage.ProfileId, p.id) == Some(p)
        && currentProfile == Some(p)
        && profiles == ById.Upsert(old(profiles), Storage.ProfileId, p)
        && ById.Find(profiles, Storage.ProfileId, p.id) == Some(p)
        && !isEditing && !isCreating
      ensures formData == old(formData)
    {
      if formData.name == "" || formData.email == "" {
        return false;
      }
      var profileData := BuildProfile(formData, currentProfile, newId, now);
      Persist(store, profileData);
      currentProfile := Some(profileData);
      UpsertListed(profileData);
      isEditing := false;
      isCreating := false;
      saved := true;
    }

    /** The `setProfiles` update of `handleSave`: the first listed profile
        with the same id is replaced in place, or the profile is appended. */
    method UpsertListed(profile: BusinessProfile)
      modifies this
      ensures profiles == ById.Upsert(old(profiles), Storage.ProfileId, profile)
      ensures ById.Find(profiles, Storage.ProfileId, profile.id) == Some(profile)
      ensures currentProfile == old(currentProfile) && formData == old(formData)
      ensures isEditing == old(isEditing) && isCreating == old(isCreating)
    {
      var existingIndex := ById.FindIndex(profiles, Storage.ProfileId, profile.id);
      if existingIndex >= 0 {
        profiles := profiles[existingIndex := profile];
      } else {
        profiles := profiles + [profile];
      }
      ById.FindAfterUpsert(old(profiles), Storage.ProfileId, profile);
    }

    /** `handleCreateNew`: a blank form in creating mode. The current
        profile stays as it was. */
    method HandleCreateNew()
      modifies this
      ensures formData == EmptyForm && isCreating && !isEditing
      ensures profiles == old(profiles) && currentProfile == old(currentProfile)
    {
      formData := EmptyForm;
      isCreating := true;
      isEditing := false;
    }

    /** `handleEdit`: the chosen profile in the form and as current, in
        editing mode. The store is not written. */
    method HandleEdit(profile: BusinessProfile)
      modifies this
      ensures formData == FormOf(profile) && currentProfile == Some(profile)
      ensures isEditing && !isCreating && profiles == old(profiles)
    {
      formData := FormOf(profile);
      currentProfile := Some(profile);
      isEditing := true;
      isCreating := false;
    }

    /** `handleDelete`: on confirmation, delete the id from the store and
        the list; only when the deleted id was current is the current
        profile cleared and the form blanked. */
    method HandleDelete(store: Storage.Store, id: string, confirmed: bool)
      modifies this, store
      ensures !confirmed ==>
        store.data == old(store.data) && profiles == old(profiles)
        && currentProfile == old(currentProfile) && formData == old(formData)
      ensures confirmed ==>
        && store.data == old(store.data)[Storage.ProfilesKey := Storage.ProfileList(ById.RemoveId(old(store.GetBusinessProfiles()), Storage.ProfileId, id))]
        && profiles == ById.RemoveId(old(profiles), Storage.ProfileId, id)
        && (forall p :: p in profiles <==> p in old(profiles) && p.id != id)
        && ById.IsSubsequence(profiles, old(profiles))
      ensures confirmed && old(currentProfile).Some? && old(currentProfile).value.id == id ==>
        currentProfile.None? && formData == EmptyForm
      ensures !(confirmed && old(currentProfile).Some? && old(currentProfile).value.id == id) ==>
        currentProfile == old(currentProfile) && formData == old(formData)
      ensures isEditing == old(isEditing) && isCreating == old(isCreating)
    {
      if !confirmed {
        return;
      }
      store.DeleteBusinessProfile(id);
      ById.RemoveIdSpec(profiles, Storage.ProfileId, id);
      profiles := ById.RemoveId(profiles, Storage.ProfileId, id);
      if currentProfile.Some? && currentProfile.value.id == id {
        currentProfile := None;
        formData := EmptyForm;
      }
    }

    /** `handleSetCurrent`: the chosen profile becomes current in the store
        and on the screen, and fills the form. */
    method HandleSetCurrent(store: Storage.Store, profile: BusinessProfile)
      modifies this, store
      ensures store.data == old(store.data)[Storage.CurrentProfileKey := Storage.ProfileRecord(profile)]
      ensures store.GetCurrentProfile() == Some(profile)
      ensures currentProfile == Some(profile) && formData == FormOf(profile)
      ensures profiles == old(profiles) && isEditing == old(isEditing) && isCreating == old(isCreating)
    {
      store.SetCurrentProfile(profile);
      currentProfile := Some(profile);
      formData := FormOf(profile);
    }
  }
}
