/** `SettingsService` (src/services/settingsService.ts) over three in-memory
    tables: `profile_settings` and `contact_settings`, each meant to hold one
    row, and `testimonials`. As in the project service, each backend call
    takes the error the backend would report, if any; a failed call throws
    `Error` with the operation's message and changes nothing. */
module SettingsApi {
  import opened Wrappers
  import opened Fields
  import Profile = ProfileRecord
  import Contact = ContactRecord
  import opened TestimonialRecord
  import opened Store

  /** `featured: !testimonial.featured`: only the featured flag changes. */
  function FlipFeatured(d: TestimonialData): (r: TestimonialData)
    ensures forall g :: Get(r, g) == if g == Featured then Flag(!d.featured) else Get(d, g)
  {
    With(d, Featured, Flag(!d.featured))
  }

  /** `published: !testimonial.published`: only the published flag changes. */
  function FlipPublished(d: TestimonialData): (r: TestimonialData)
    ensures forall g :: Get(r, g) == if g == Published then Flag(!d.published) else Get(d, g)
  {
    With(d, Published, Flag(!d.published))
  }

  /** Toggling a testimonial's featured flag twice gives back the table as
      it was, but for that row's `updated_at`. */
  lemma ToggleFeaturedTwice(t: Table<TestimonialData>, id: string, now1: nat, now2: nat)
    requires id in t
    ensures var t1 := Replace(t, id, FlipFeatured(t[id].data), now1);
            Replace(t1, id, FlipFeatured(t1[id].data), now2) == t[id := t[id].(updated_at := now2)]
  {
    var d := t[id].data;
    Extensional(FlipFeatured(FlipFeatured(d)), d);
  }

  /** Toggling a testimonial's published flag twice gives back the table as
      it was, but for that row's `updated_at`. */
  lemma TogglePublishedTwice(t: Table<TestimonialData>, id: string, now1: nat, now2: nat)
    requires id in t
    ensures var t1 := Replace(t, id, FlipPublished(t[id].data), now1);
            Replace(t1, id, FlipPublished(t1[id].data), now2) == t[id := t[id].(updated_at := now2)]
  {
    var d := t[id].data;
    Extensional(FlipPublished(FlipPublished(d)), d);
  }

  /** The profile table after `updateProfile` hit its one row. */
  function ProfileUpdated(t: Table<Profile.ProfileData>, patch: Profile.Patch, now: nat): (t': Table<Profile.ProfileData>)
    requires |t| == 1 && Profile.PatchFits(patch)
    ensures |t'| == 1 && TheKey(t') == TheKey(t)
    ensures t'[TheKey(t)] == Stored(Profile.Merge(t[TheKey(t)].data, patch), t[TheKey(t)].created_at, now)
  {
    var k := TheKey(t);
    var t' := Replace(t, k, Profile.Merge(t[k].data, patch), now);
    assert t'.Keys == t.Keys;
    t'
  }

  /** The contact table after `updateContactSettings` hit its one row. */
  function ContactUpdated(t: Table<Contact.ContactData>, patch: Contact.Patch, now: nat): (t': Table<Contact.ContactData>)
    requires |t| == 1 && Contact.PatchFits(patch)
    ensures |t'| == 1 && TheKey(t') == TheKey(t)
    ensures t'[TheKey(t)] == Stored(Contact.Merge(t[TheKey(t)].data, patch), t[TheKey(t)].created_at, now)
  {
    var k := TheKey(t);
    var t' := Replace(t, k, Contact.Merge(t[k].data, patch), now);
    assert t'.Keys == t.Keys;
    t'
  }

  /** The testimonial table after `updateTestimonial(id, patch)` hit the row
      with that id: only that row changes. */
  function TestimonialUpdated(t: Table<TestimonialData>, id: string, patch: Patch, now: nat): (t': Table<TestimonialData>)
    requires id in t && PatchFits(patch)
    ensures t'.Keys == t.Keys
    ensures t'[id] == Stored(Merge(t[id].data, patch), t[id].created_at, now)
    ensures forall k :: k in t && k != id ==> t'[k] == t[k]
  {
    Replace(t, id, Merge(t[id].data, patch), now)
  }

  class SettingsService {
    /** The `profile_settings` table. */
    var profiles: Table<Profile.ProfileData>
    /** The `contact_settings` table. */
    var contacts: Table<Contact.ContactData>
    /** The `testimonials` table. */
    var testimonials: Table<TestimonialData>

    constructor (p: Table<Profile.ProfileData>, c: Table<Contact.ContactData>, t: Table<TestimonialData>)
      ensures profiles == p && contacts == c && testimonials == t
    {
      profiles, contacts, testimonials := p, c, t;
    }

    /** `getProfile`: an unfiltered `.single()`, so the profile when the
        table holds exactly one row and `null` when it holds none or several. */
    method GetProfile(fault: Option<string>) returns (r: Result<Option<Row<Profile.ProfileData>>>)
      ensures fault.Some? ==> r == Failure("Failed to fetch profile: " + fault.value)
      ensures fault.None? ==> r.Success? && (r.value.Some? <==> |profiles| == 1)
      ensures fault.None? && r.value.Some? ==> r.value.value == RowAt(profiles, TheKey(profiles))
    {
      if fault.Some? {
        return Failure("Failed to fetch profile: " + fault.value);
      }
      if |profiles| != 1 {
        return Success(None);
      }
      return Success(Some(RowAt(profiles, TheKey(profiles))));
    }

    /** `createProfile`: a new row under the fresh `id`, stamped `now` twice. */
    method CreateProfile(data: Profile.ProfileData, id: string, now: nat, fault: Option<string>)
      returns (r: Result<Row<Profile.ProfileData>>)
      requires id !in profiles
      modifies this`profiles
      ensures unchanged(this`contacts, this`testimonials)
      ensures fault.Some? ==> r == Failure("Failed to create profile: " + fault.value) && profiles == old(profiles)
      ensures fault.None? ==> profiles == Insert(old(profiles), id, data, now)
      ensures fault.None? ==> r == Success(Row(id, data, now, now))
    {
      if fault.Some? {
        return Failure("Failed to create profile: " + fault.value);
      }
      profiles := Insert(profiles, id, data, now);
      return Success(RowAt(profiles, id));
    }

    /** `updateProfile`: an update with no filter, read back with
        `.single()`; the one profile row takes the payload's fields and is
        re-stamped. Without exactly one row the call fails and nothing is
        written. */
    method UpdateProfile(patch: Profile.Patch, now: nat, fault: Option<string>)
      returns (r: Result<Row<Profile.ProfileData>>)
      requires Profile.PatchFits(patch)
      modifies this`profiles
      ensures unchanged(this`contacts, this`testimonials)
      ensures fault.Some? ==> r == Failure("Failed to update profile: " + fault.value) && profiles == old(profiles)
      ensures fault.None? && |old(profiles)| != 1 ==>
        r == Failure("Failed to update profile: " + NoRowsMessage) && profiles == old(profiles)
      ensures fault.None? && |old(profiles)| == 1 ==>
        profiles == ProfileUpdated(old(profiles), patch, now) && r == Success(RowAt(profiles, TheKey(old(profiles))))
    {
      if fault.Some? {
        r := Failure("Failed to update profile: " + fault.value);
      } else if |profiles| != 1 {
        r := Failure("Failed to update profile: " + NoRowsMessage);
      } else {
        var k := TheKey(profiles);
        profiles := ProfileUpdated(profiles, patch, now);
        r := Success(RowAt(profiles, k));
      }
    }

    /** `getContactSettings`: the settings row when there is exactly one,
        `null` when there are none or several. */
    method GetContactSettings(fault: Option<string>) returns (r: Result<Option<Row<Contact.ContactData>>>)
      ensures fault.Some? ==> r == Failure("Failed to fetch contact settings: " + fault.value)
      ensures fault.None? ==> r.Success? && (r.value.Some? <==> |contacts| == 1)
      ensures fault.None? && r.value.Some? ==> r.value.value == RowAt(contacts, TheKey(contacts))
    {
      if fault.Some? {
        return Failure("Failed to fetch contact settings: " + fault.value);
      }
      if |contacts| != 1 {
        return Success(None);
      }
      return Success(Some(RowAt(contacts, TheKey(contacts))));
    }

    /** `createContactSettings`: a new row under the fresh `id`, stamped
        `now` twice. */
    method CreateContactSettings(data: Contact.ContactData, id: string, now: nat, fault: Option<string>)
      returns (r: Result<Row<Contact.ContactData>>)
      requires id !in contacts
      modifies this`contacts
      ensures unchanged(this`profiles, this`testimonials)
      ensures fault.Some? ==> r == Failure("Failed to create contact settings: " + fault.value) && contacts == old(contacts)
      ensures fault.None? ==> contacts == Insert(old(contacts), id, data, now)
      ensures fault.None? ==> r == Success(Row(id, data, now, now))
    {
      if fault.Some? {
        return Failure("Failed to create contact settings: " + fault.value);
      }
      contacts := Insert(contacts, id, data, now);
      return Success(RowAt(contacts, id));
    }

    /** `updateContactSettings`: as `updateProfile`, on the contact row. */
    method UpdateContactSettings(patch: Contact.Patch, now: nat, fault: Option<string>)
      returns (r: Result<Row<Contact.ContactData>>)
      requires Contact.PatchFits(patch)
      modifies this`contacts
      ensures unchanged(this`profiles, this`testimonials)
      ensures fault.Some? ==> r == Failure("Failed to update contact settings: " + fault.value) && contacts == old(contacts)
      ensures fault.None? && |old(contacts)| != 1 ==>
        r == Failure("Failed to update contact settings: " + NoRowsMessage) && contacts == old(contacts)
      ensures fault.None? && |old(contacts)| == 1 ==>
        contacts == ContactUpdated(old(contacts), patch, now) && r == Success(RowAt(contacts, TheKey(old(contacts))))
    {
      if fault.Some? {
        r := Failure("Failed to update contact settings: " + fault.value);
      } else if |contacts| != 1 {
        r := Failure("Failed to update contact settings: " + NoRowsMessage);
      } else {
        var k := TheKey(contacts);
        contacts := ContactUpdated(contacts, patch, now);
        r := Success(RowAt(contacts, k));
      }
    }

    /** `getTestimonials`: every testimonial, or only the published ones
        unless `includeUnpublished`, newest first. */
    method GetTestimonials(includeUnpublished: bool, fault: Option<string>)
      returns (r: Result<seq<Row<TestimonialData>>>)
      ensures fault.Some? ==> r == Failure("Failed to fetch testimonials: " + fault.value)
      ensures fault.None? ==>
        r.Success? && Listing(r.value, testimonials, (d: TestimonialData) => includeUnpublished || d.published)
    {
      var keep: TestimonialData -> bool := (d: TestimonialData) => true;
      if !includeUnpublished {
        keep := (d: TestimonialData) => d.published;
      }
      if fault.Some? {
        return Failure("Failed to fetch testimonials: " + fault.value);
      }
      var rows := Select(testimonials, keep);
      return Success(rows);
    }

    /** `getFeaturedTestimonials`: those featured and published, newest first. */
    method GetFeaturedTestimonials(fault: Option<string>) returns (r: Result<seq<Row<TestimonialData>>>)
      ensures fault.Some? ==> r == Failure("Failed to fetch featured testimonials: " + fault.value)
      ensures fault.None? ==>
        r.Success? && Listing(r.value, testimonials, (d: TestimonialData) => d.featured && d.published)
    {
      if fault.Some? {
        return Failure("Failed to fetch featured testimonials: " + fault.value);
      }
      var rows := Select(testimonials, (d: TestimonialData) => d.featured && d.published);
      return Success(rows);
    }

    /** `getTestimonialById`: the testimonial with that id, published or
        not, and `null` when there is none. */
    method GetTestimonialById(id: string, fault: Option<string>) returns (r: Result<Option<Row<TestimonialData>>>)
      ensures fault.Some? ==> r == Failure("Failed to fetch testimonial: " + fault.value)
      ensures fault.None? ==> r.Success?
      ensures fault.None? ==> (r.value.Some? <==> id in testimonials)
      ensures fault.None? && r.value.Some? ==> r.value.value == RowAt(testimonials, id)
    {
      if fault.Some? {
        return Failure("Failed to fetch testimonial: " + fault.value);
      }
      return Success(FindRow(testimonials, id, (d: TestimonialData) => true));
    }

    /** `createTestimonial`: a new row under the fresh `id`, stamped `now`
        twice, holding exactly the given data. */
    method CreateTestimonial(data: TestimonialData, id: string, now: nat, fault: Option<string>)
      returns (r: Result<Row<TestimonialData>>)
      requires id !in testimonials
      modifies this`testimonials
      ensures unchanged(this`profiles, this`contacts)
      ensures fault.Some? ==> r == Failure("Failed to create testimonial: " + fault.value) && testimonials == old(testimonials)
      ensures fault.None? ==> testimonials == Insert(old(testimonials), id, data, now)
      ensures fault.None? ==> r == Success(Row(id, data, now, now))
    {
      if fault.Some? {
        return Failure("Failed to create testimonial: " + fault.value);
      }
      testimonials := Insert(testimonials, id, data, now);
      return Success(RowAt(testimonials, id));
    }

    /** `updateTestimonial(id, patch)`: the row with that id takes the
        payload's fields, keeps the others, and is re-stamped; with no such
        row `.single()` fails. */
    method UpdateTestimonial(id: string, patch: Patch, now: nat, fault: Option<string>)
      returns (r: Result<Row<TestimonialData>>)
      requires PatchFits(patch)
      modifies this`testimonials
      ensures unchanged(this`profiles, this`contacts)
      ensures fault.Some? ==> r == Failure("Failed to update testimonial: " + fault.value) && testimonials == old(testimonials)
      ensures fault.None? && id !in old(testimonials) ==>
        r == Failure("Failed to update testimonial: " + NoRowsMessage) && testimonials == old(testimonials)
      ensures fault.None? && id in old(testimonials) ==>
        testimonials == TestimonialUpdated(old(testimonials), id, patch, now) && r == Success(RowAt(testimonials, id))
    {
      if fault.Some? {
        return Failure("Failed to update testimonial: " + fault.value);
      }
      if id !in testimonials {
        return Failure("Failed to update testimonial: " + NoRowsMessage);
      }
      testimonials := TestimonialUpdated(testimonials, id, patch, now);
      return Success(RowAt(testimonials, id));
    }

    /** `deleteTestimonial`: the row goes, so a later `getTestimonialById(id)`
        gives `null`. */
    method DeleteTestimonial(id: string, fault: Option<string>) returns (r: Result<()>)
      modifies this`testimonials
      ensures unchanged(this`profiles, this`contacts)
      ensures fault.Some? ==> r == Failure("Failed to delete testimonial: " + fault.value) && testimonials == old(testimonials)
      ensures fault.None? ==> r == Success(()) && testimonials == Remove(old(testimonials), id)
      ensures fault.None? ==> id !in testimonials
    {
      if fault.Some? {
        return Failure("Failed to delete testimonial: " + fault.value);
      }
      testimonials := Remove(testimonials, id);
      return Success(());
    }

    /** `toggleTestimonialFeatured`: reads the row through
        `getTestimonialById`, fails with "Testimonial not found" when there is
        none, and otherwise writes the complement of its featured flag. */
    method ToggleTestimonialFeatured(id: string, now: nat, readFault: Option<string>, writeFault: Option<string>)
      returns (r: Result<Row<TestimonialData>>)
      modifies this`testimonials
      ensures unchanged(this`profiles, this`contacts)
      ensures readFault.Some? ==>
        r == Failure("Failed to fetch testimonial: " + readFault.value) && testimonials == old(testimonials)
      ensures readFault.None? && id !in old(testimonials) ==>
        r == Failure("Testimonial not found") && testimonials == old(testimonials)
      ensures readFault.None? && id in old(testimonials) && writeFault.Some? ==>
        r == Failure("Failed to toggle featured status: " + writeFault.value) && testimonials == old(testimonials)
      ensures readFault.None? && id in old(testimonials) && writeFault.None? ==>
        testimonials == Replace(old(testimonials), id, FlipFeatured(old(testimonials)[id].data), now) &&
        r == Success(RowAt(testimonials, id))
    {
      var found := GetTestimonialById(id, readFault);
      if found.Failure? {
        return Failure(found.error);
      }
      if found.value.None? {
        return Failure("Testimonial not found");
      }
      var testimonial := found.value.value;
      if writeFault.Some? {
        return Failure("Failed to toggle featured status: " + writeFault.value);
      }
      testimonials := Replace(testimonials, id, FlipFeatured(testimonial.data), now);
      return Success(RowAt(testimonials, id));
    }

    /** `toggleTestimonialPublished`: as the featured toggle, for the
        published flag. */
    method ToggleTestimonialPublished(id: string, now: nat, readFault: Option<string>, writeFault: Option<string>)
      returns (r: Result<Row<TestimonialData>>)
      modifies this`testimonials
      ensures unchanged(this`profiles, this`contacts)
      ensures readFault.Some? ==>
        r == Failure("Failed to fetch testimonial: " + readFault.value) && testimonials == old(testimonials)
      ensures readFault.None? && id !in old(testimonials) ==>
        r == Failure("Testimonial not found") && testimonials == old(testimonials)
      ensures readFault.None? && id in old(testimonials) && writeFault.Some? ==>
        r == Failure("Failed to toggle published status: " + writeFault.value) && testimonials == old(testimonials)
      ensures readFault.None? && id in old(testimonials) && writeFault.None? ==>
        testimonials == Replace(old(testimonials), id, FlipPublished(old(testimonials)[id].data), now) &&
        r == Success(RowAt(testimonials, id))
    {
      var found := GetTestimonialById(id, readFault);
      if found.Failure? {
        return Failure(found.error);
      }
      if found.value.None? {
        return Failure("Testimonial not found");
      }
      var testimonial := found.value.value;
      if writeFault.Some? {
        return Failure("Failed to toggle published status: " + writeFault.value);
      }
      testimonials := Replace(testimonials, id, FlipPublished(testimonial.data), now);
      return Success(RowAt(testimonials, id));
    }
  }
}
