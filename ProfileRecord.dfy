/** The profile record (`CreateProfileData` in src/types/settings.ts), with
    snake_case names as the service's columns (`created_at`, `updated_at`)
    and the contact editor spell them, addressed field by field for the keyed
    setter and the partial update. */
module ProfileRecord {
  import opened Wrappers
  import opened Fields

  /** The data of the profile row: everything but `id` and the timestamps. */
  datatype ProfileData = ProfileData(
    name: string,
    title: string,
    bio: string,
    profile_image: string,
    hero_image: Option<string>,
    location: Option<string>,
    email: string,
    phone: Option<string>,
    website: Option<string>,
    resume: Option<string>,
    social_links: map<string, string>,
    skills: seq<string>,
    experience: string,
    availability: string)

  datatype ProfileField =
    | Name | Title | Bio | ProfileImage | HeroImage | Location | Email | Phone | Website
    | Resume | SocialLinks | Skills | Experience | Availability

  /** Every field once, in declaration order, in groups of five. */
  const Fields1: seq<ProfileField> := [Name, Title, Bio, ProfileImage, HeroImage]
  const Fields2: seq<ProfileField> := [Location, Email, Phone, Website, Resume]
  const Fields3: seq<ProfileField> := [SocialLinks, Skills, Experience, Availability]
  const AllFields: seq<ProfileField> := Fields1 + Fields2 + Fields3

  lemma AllFieldsListed()
    ensures forall g :: g in AllFields
  {
    forall g ensures g in AllFields {
      match g
      case Name => assert g in Fields1;
      case Title => assert g in Fields1;
      case Bio => assert g in Fields1;
      case ProfileImage => assert g in Fields1;
      case HeroImage => assert g in Fields1;
      case Location => assert g in Fields2;
      case Email => assert g in Fields2;
      case Phone => assert g in Fields2;
      case Website => assert g in Fields2;
      case Resume => assert g in Fields2;
      case SocialLinks => assert g in Fields3;
      case Skills => assert g in Fields3;
      case Experience => assert g in Fields3;
      case Availability => assert g in Fields3;
    }
  }

  function KindOf(f: ProfileField): Kind {
    match f
    case Name => TextKind
    case Title => TextKind
    case Bio => TextKind
    case ProfileImage => TextKind
    case HeroImage => OptionalText
    case Location => OptionalText
    case Email => TextKind
    case Phone => OptionalText
    case Website => OptionalText
    case Resume => OptionalText
    case SocialLinks => LinksKind
    case Skills => ListKind
    case Experience => TextKind
    case Availability => TextKind
  }

  /** `d[f]`. Only an optional field can read as `Absent`. */
  function Get(d: ProfileData, f: ProfileField): (v: Value)
    ensures Fits(KindOf(f), v) || (KindOf(f) == OptionalText && v == Absent)
  {
    match f
    case Name => Text(d.name)
    case Title => Text(d.title)
    case Bio => Text(d.bio)
    case ProfileImage => Text(d.profile_image)
    case HeroImage => OptionalTextValue(d.hero_image)
    case Location => OptionalTextValue(d.location)
    case Email => Text(d.email)
    case Phone => OptionalTextValue(d.phone)
    case Website => OptionalTextValue(d.website)
    case Resume => OptionalTextValue(d.resume)
    case SocialLinks => Links(d.social_links)
    case Skills => Items(d.skills)
    case Experience => Text(d.experience)
    case Availability => Text(d.availability)
  }

  /** `{ ...d, [f]: v }`: field `f` reads `v` afterwards and every other
      field reads as before. */
  function With(d: ProfileData, f: ProfileField, v: Value): (r: ProfileData)
    requires Fits(KindOf(f), v)
    ensures forall g :: Get(r, g) == if g == f then v else Get(d, g)
  {
    match f
    case Name => d.(name := v.s)
    case Title => d.(title := v.s)
    case Bio => d.(bio := v.s)
    case ProfileImage => d.(profile_image := v.s)
    case HeroImage => d.(hero_image := Some(v.s))
    case Location => d.(location := Some(v.s))
    case Email => d.(email := v.s)
    case Phone => d.(phone := Some(v.s))
    case Website => d.(website := Some(v.s))
    case Resume => d.(resume := Some(v.s))
    case SocialLinks => d.(social_links := v.m)
    case Skills => d.(skills := v.xs)
    case Experience => d.(experience := v.s)
    case Availability => d.(availability := v.s)
  }

  /** Two records that agree on every field are the same record. */
  lemma Extensional(a: ProfileData, b: ProfileData)
    requires forall g :: Get(a, g) == Get(b, g)
    ensures a == b
  {
    SameFields1(a, b);
    SameFields2(a, b);
    SameFields3(a, b);
  }

  lemma SameFields1(a: ProfileData, b: ProfileData)
    requires forall g :: Get(a, g) == Get(b, g)
    ensures a.name == b.name && a.title == b.title && a.bio == b.bio && a.profile_image == b.profile_image && a.hero_image == b.hero_image
  {
    assert Get(a, Name) == Get(b, Name);
    assert Get(a, Title) == Get(b, Title);
    assert Get(a, Bio) == Get(b, Bio);
    assert Get(a, ProfileImage) == Get(b, ProfileImage);
    assert Get(a, HeroImage) == Get(b, HeroImage);
  }

  lemma SameFields2(a: ProfileData, b: ProfileData)
    requires forall g :: Get(a, g) == Get(b, g)
    ensures a.location == b.location && a.email == b.email && a.phone == b.phone && a.website == b.website && a.resume == b.resume
  {
    assert Get(a, Location) == Get(b, Location);
    assert Get(a, Email) == Get(b, Email);
    assert Get(a, Phone) == Get(b, Phone);
    assert Get(a, Website) == Get(b, Website);
    assert Get(a, Resume) == Get(b, Resume);
  }

  lemma SameFields3(a: ProfileData, b: ProfileData)
    requires forall g :: Get(a, g) == Get(b, g)
    ensures a.social_links == b.social_links && a.skills == b.skills && a.experience == b.experience && a.availability == b.availability
  {
    assert Get(a, SocialLinks) == Get(b, SocialLinks);
    assert Get(a, Skills) == Get(b, Skills);
    assert Get(a, Experience) == Get(b, Experience);
    assert Get(a, Availability) == Get(b, Availability);
  }

  /** A partial update payload (`Partial<...>`): the fields it lists, each
      with a value of the field's kind. */
  type Patch = map<ProfileField, Value>

  predicate PatchFits(patch: Patch) {
    forall f :: f in patch ==> Fits(KindOf(f), patch[f])
  }

  function MergeFields(d: ProfileData, patch: Patch, fs: seq<ProfileField>): (r: ProfileData)
    requires PatchFits(patch)
    ensures forall g :: Get(r, g) == if g in patch && g in fs then patch[g] else Get(d, g)
    decreases |fs|
  {
    if fs == [] then d
    else
      var d' := if fs[0] in patch then With(d, fs[0], patch[fs[0]]) else d;
      MergeFields(d', patch, fs[1..])
  }

  /** `{ ...d, ...patch }`: the listed fields take the payload's values, the
      others keep theirs. */
  function Merge(d: ProfileData, patch: Patch): (r: ProfileData)
    requires PatchFits(patch)
    ensures forall g :: Get(r, g) == if g in patch then patch[g] else Get(d, g)
  {
    AllFieldsListed();
    MergeFields(d, patch, AllFields)
  }

  /** What `{ ...d }` sends as an update: every field of `d` that holds a
      value (an `undefined` property is dropped from the request). */
  function Payload(d: ProfileData): (patch: Patch)
    ensures PatchFits(patch)
    ensures forall g :: g in patch <==> Get(d, g) != Absent
    ensures forall g :: g in patch ==> patch[g] == Get(d, g)
  {
    AllFieldsListed();
    map g | g in AllFields && Get(d, g) != Absent :: Get(d, g)
  }

  /** No optional field is absent, as in every draft the editor holds. */
  predicate Complete(d: ProfileData) {
    d.hero_image.Some? && d.location.Some? && d.phone.Some? && d.website.Some? && d.resume.Some?
  }

  lemma CompleteHasAllFields(d: ProfileData)
    ensures Complete(d) <==> forall g :: Get(d, g) != Absent
  {
    if !Complete(d) {
      assert Get(d, HeroImage) == Absent || Get(d, Location) == Absent || Get(d, Phone) == Absent || Get(d, Website) == Absent || Get(d, Resume) == Absent;
    }
  }

  /** Sending a complete draft as an update makes the row's data equal to
      the draft, whatever the row held before. */
  lemma MergeCompletePayload(before: ProfileData, d: ProfileData)
    requires Complete(d)
    ensures Merge(before, Payload(d)) == d
  {
    CompleteHasAllFields(d);
    Extensional(Merge(before, Payload(d)), d);
  }


  /** The six platforms the editor offers a link field for. */
  const Platforms: seq<string> := ["linkedin", "github", "twitter", "dribbble", "behance", "instagram"]

  /** The load-from-profile effect: absent `hero_image`, `location`, `phone`,
      `website` and `resume` become `''`; every other field, `social_links`
      and `skills` included, is copied as it is. */
  function Normalized(d: ProfileData): (r: ProfileData)
    ensures Complete(r)
    ensures forall g :: KindOf(g) != OptionalText ==> Get(r, g) == Get(d, g)
    ensures forall g :: KindOf(g) == OptionalText ==>
      Get(r, g) == if Get(d, g) == Absent then Text("") else Get(d, g)
  {
    d.(hero_image := Some(OrEmpty(d.hero_image)),
       location := Some(OrEmpty(d.location)),
       phone := Some(OrEmpty(d.phone)),
       website := Some(OrEmpty(d.website)),
       resume := Some(OrEmpty(d.resume)))
  }

  /** Loading a record that has no absent field reproduces it exactly. */
  lemma NormalizedComplete(d: ProfileData)
    requires Complete(d)
    ensures Normalized(d) == d
  {
    CompleteHasAllFields(d);
    Extensional(Normalized(d), d);
  }

  /** The editor's starting draft. */
  const InitialDraft := ProfileData(
    "", "", "", "", Some(""), Some(""), "", Some(""), Some(""), Some(""),
    map p | p in Platforms :: "", [], "", "")

  lemma InitialDraftFacts()
    ensures Complete(InitialDraft)
    ensures forall g :: KindOf(g) == TextKind || KindOf(g) == OptionalText ==> Get(InitialDraft, g) == Text("")
    ensures InitialDraft.skills == []
    ensures InitialDraft.social_links.Keys == set p | p in Platforms
    ensures forall p :: p in InitialDraft.social_links ==> InitialDraft.social_links[p] == ""
  {
  }
}
