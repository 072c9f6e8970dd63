/** The profile settings page (src/pages/ProfileSettings.tsx): a draft of
    the single profile row, the pending skill input, the handlers that
    change them, and the save that updates the row when one was loaded and
    creates it otherwise. */
module ProfileEditor {
  import opened Wrappers
  import opened Fields
  import opened Text
  import opened Lists
  import opened ProfileRecord
  import opened Store
  import SettingsApi

  /** What a save asks the settings service to do. */
  datatype ProfileRequest =
    | CreateProfile(data: ProfileData)
    | UpdateProfile(patch: Patch)

  class ProfileForm {
    var formData: ProfileData
    var newSkill: string

    /** The draft never has an absent optional field. */
    ghost predicate Valid()
      reads this
    {
      Complete(formData)
    }

    constructor ()
      ensures Valid()
      ensures formData == InitialDraft && newSkill == ""
    {
      formData := InitialDraft;
      newSkill := "";
    }

    /** The load effect: once the profile is fetched, the draft becomes it,
        with absent optional fields read as `''`; no profile leaves the
        draft as it was. */
    method Load(profile: Option<Row<ProfileData>>)
      requires Valid()
      modifies this`formData
      ensures Valid()
      ensures profile.Some? ==> formData == Normalized(profile.value.data)
      ensures profile.None? ==> formData == old(formData)
    {
      if profile.Some? {
        formData := Normalized(profile.value.data);
      }
    }

    /** `handleInputChange(field, value)`: field `f` takes `v`, no other
        field changes. */
    method HandleInputChange(f: ProfileField, v: Value)
      requires Valid() && Fits(KindOf(f), v)
      modifies this`formData
      ensures Valid()
      ensures forall g :: Get(formData, g) == if g == f then v else Get(old(formData), g)
    {
      formData := With(formData, f, v);
    }

    /** `handleSocialLinkChange(platform, value)`: that platform's link
        becomes `value` (the platform is added when it was missing), every
        other link and every other field stays. */
    method HandleSocialLinkChange(platform: string, value: string)
      requires Valid()
      modifies this`formData
      ensures Valid()
      ensures formData.social_links == old(formData.social_links)[platform := value]
      ensures formData.social_links.Keys == old(formData.social_links.Keys) + {platform}
      ensures forall g :: g != SocialLinks ==> Get(formData, g) == Get(old(formData), g)
    {
      formData := formData.(social_links := formData.social_links[platform := value]);
    }

    method SetNewSkill(s: string)
      modifies this`newSkill
      ensures newSkill == s
    {
      newSkill := s;
    }

    /** `addSkill`: a non-empty trimmed skill that is not there yet is
        appended and the input cleared; otherwise nothing changes. Only
        `skills` can change, and it stays duplicate-free. */
    method AddSkill()
      requires Valid()
      modifies this`formData, this`newSkill
      ensures Valid()
      ensures formData.skills == AddUnique(old(formData.skills), old(newSkill))
      ensures forall g :: g != Skills ==> Get(formData, g) == Get(old(formData), g)
      ensures Trim(old(newSkill)) != "" && Trim(old(newSkill)) !in old(formData.skills) ==>
        formData.skills == old(formData.skills) + [Trim(old(newSkill))] && newSkill == ""
      ensures Trim(old(newSkill)) == "" || Trim(old(newSkill)) in old(formData.skills) ==>
        formData == old(formData) && newSkill == old(newSkill)
      ensures NoDup(old(formData.skills)) ==> NoDup(formData.skills)
    {
      var skill := Trim(newSkill);
      if skill != "" && skill !in formData.skills {
        HandleInputChange(Skills, Items(formData.skills + [skill]));
        assert Get(formData, Skills) == Items(formData.skills);
        newSkill := "";
      }
    }

    /** `removeSkill(s)`: every copy of `s` goes, the other skills keep
        their order, nothing else changes. */
    method RemoveSkill(skill: string)
      requires Valid()
      modifies this`formData
      ensures Valid()
      ensures formData.skills == RemoveValue(old(formData.skills), skill)
      ensures forall g :: g != Skills ==> Get(formData, g) == Get(old(formData), g)
    {
      HandleInputChange(Skills, Items(RemoveValue(formData.skills, skill)));
      assert Get(formData, Skills) == Items(formData.skills);
    }

    /** `handleSubmit`: the whole draft, as an update when a profile was
        loaded and as a create otherwise. */
    method HandleSubmit(profile: Option<Row<ProfileData>>) returns (req: ProfileRequest)
      ensures profile.Some? ==> req == UpdateProfile(Payload(formData))
      ensures profile.None? ==> req == CreateProfile(formData)
    {
      if profile.Some? {
        req := UpdateProfile(Payload(formData));
      } else {
        req := CreateProfile(formData);
      }
    }
  }

  /** The profile table after a save of `draft`, loaded from `t`: the single
      row is updated when the page found it, and otherwise a row is created
      under the fresh id `id`. A table of two or more rows reads as no
      profile, so the save creates yet another row. */
  function Saved(t: Table<ProfileData>, draft: ProfileData, id: string, now: nat): (t': Table<ProfileData>)
    requires id !in t
    ensures |t| == 1 ==>
      |t'| == 1 && TheKey(t') == TheKey(t) &&
      t'[TheKey(t')] == Stored(Merge(t[TheKey(t)].data, Payload(draft)), t[TheKey(t)].created_at, now)
    ensures |t| != 1 ==> t' == Insert(t, id, draft, now)
  {
    if |t| == 1 then SettingsApi.ProfileUpdated(t, Payload(draft), now)
    else Insert(t, id, draft, now)
  }

  /** Saving a draft into a table holding at most one profile leaves exactly
      one profile, whose data is the draft; loading it again shows the same
      draft. */
  lemma {:induction false} SaveThenLoad(t: Table<ProfileData>, draft: ProfileData, id: string, now: nat)
    requires |t| <= 1 && id !in t && Complete(draft)
    ensures var t' := Saved(t, draft, id, now);
      |t'| == 1 && t'[TheKey(t')].data == draft && Normalized(t'[TheKey(t')].data) == draft
  {
    var t' := Saved(t, draft, id, now);
    if |t| == 1 {
      MergeCompletePayload(t[TheKey(t)].data, draft);
      assert TheKey(t') == TheKey(t);
    } else {
      assert t.Keys == {};
      assert t'.Keys == {id};
      assert |t'.Keys| == 1;
      assert TheKey(t') == id;
    }
    NormalizedComplete(draft);
  }
}
