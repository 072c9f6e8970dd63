/** The contact settings page (src/pages/ContactSettings.tsx): a draft of
    the single contact-settings row, the handlers that change it, and the
    save that updates the row when one was loaded and creates it otherwise. */
module ContactEditor {
  import opened Wrappers
  import opened Fields
  import opened ContactRecord
  import opened Store
  import SettingsApi

  /** What a save asks the settings service to do. */
  datatype ContactRequest =
    | CreateContactSettings(data: ContactData)
    | UpdateContactSettings(patch: Patch)

  class ContactForm {
    var formData: ContactData

    /** The draft never has an absent optional field. */
    ghost predicate Valid()
      reads this
    {
      Complete(formData)
    }

    constructor ()
      ensures Valid()
      ensures formData == InitialDraft
    {
      formData := InitialDraft;
    }

    /** The load effect: once the settings are fetched, the draft becomes them,
        with absent optional fields read as `''`; no settings leave the
        draft as it was. */
    method Load(settings: Option<Row<ContactData>>)
      requires Valid()
      modifies this`formData
      ensures Valid()
      ensures settings.Some? ==> formData == Normalized(settings.value.data)
      ensures settings.None? ==> formData == old(formData)
    {
      if settings.Some? {
        formData := Normalized(settings.value.data);
      }
    }

    /** `handleInputChange(field, value)`: field `f` takes `v`, no other
        field changes. */
    method HandleInputChange(f: ContactField, v: Value)
      requires Valid() && Fits(KindOf(f), v)
      modifies this`formData
      ensures Valid()
      ensures forall g :: Get(formData, g) == if g == f then v else Get(old(formData), g)
    {
      formData := With(formData, f, v);
    }

    /** `handleSocialLinkChange(platform, value)`: that platform's link
        becomes `value` (the platform is added when it was missing), every
        other link and every other field stays. */
    method HandleSocialLinkChange(platform: string, value: string)
      requires Valid()
      modifies this`formData
      ensures Valid()
      ensures formData.social_links == old(formData.social_links)[platform := value]
      ensures formData.social_links.Keys == old(formData.social_links.Keys) + {platform}
      ensures forall g :: g != SocialLinks ==> Get(formData, g) == Get(old(formData), g)
    {
      formData := formData.(social_links := formData.social_links[platform := value]);
    }

    /** `handleSubmit`: the whole draft, as an update when settings were
        loaded and as a create otherwise. */
    method HandleSubmit(settings: Option<Row<ContactData>>) returns (req: ContactRequest)
      ensures settings.Some? ==> req == UpdateContactSettings(Payload(formData))
      ensures settings.None? ==> req == CreateContactSettings(formData)
    {
      if settings.Some? {
        req := UpdateContactSettings(Payload(formData));
      } else {
        req := CreateContactSettings(formData);
      }
    }
  }

  /** The contact-settings table after a save of `draft`, loaded from `t`: the
      single row is updated when the page found it, and otherwise a row is created
      under the fresh id `id`. A table of two or more rows reads as no
      settings, so the save creates yet another row. */
  function Saved(t: Table<ContactData>, draft: ContactData, id: string, now: nat): (t': Table<ContactData>)
    requires id !in t
    ensures |t| == 1 ==>
      |t'| == 1 && TheKey(t') == TheKey(t) &&
      t'[TheKey(t')] == Stored(Merge(t[TheKey(t)].data, Payload(draft)), t[TheKey(t)].created_at, now)
    ensures |t| != 1 ==> t' == Insert(t, id, draft, now)
  {
    if |t| == 1 then SettingsApi.ContactUpdated(t, Payload(draft), now)
    else Insert(t, id, draft, now)
  }

  /** Saving a draft into a table holding at most one row leaves exactly
      one row, whose data is the draft; loading it again shows the same
      draft. */
  lemma {:induction false} SaveThenLoad(t: Table<ContactData>, draft: ContactData, id: string, now: nat)
    requires |t| <= 1 && id !in t && Complete(draft)
    ensures var t' := Saved(t, draft, id, now);
      |t'| == 1 && t'[TheKey(t')].data == draft && Normalized(t'[TheKey(t')].data) == draft
  {
    var t' := Saved(t, draft, id, now);
    if |t| == 1 {
      MergeCompletePayload(t[TheKey(t)].data, draft);
      assert TheKey(t') == TheKey(t);
    } else {
      assert t.Keys == {};
      assert t'.Keys == {id};
      assert |t'.Keys| == 1;
      assert TheKey(t') == id;
    }
    NormalizedComplete(draft);
  }
}
