/** The testimonial record (`CreateTestimonialData` in
    src/types/settings.ts, with snake_case names as the service's columns
    spell them), addressed field by field for the keyed setter and the
    partial update. */
module TestimonialRecord {
  import opened Wrappers
  import opened Fields

  /** The data of a testimonial row: everything but `id` and the timestamps. */
  datatype TestimonialData = TestimonialData(
    client_name: string,
    client_title: string,
    client_company: string,
    client_image: Option<string>,
    testimonial_text: string,
    rating: Option<int>,
    project_id: Option<string>,
    featured: bool,
    published: bool)

  datatype TestimonialField =
    | ClientName | ClientTitle | ClientCompany | ClientImage | TestimonialText | Rating
    | ProjectId | Featured | Published

  /** Every field once, in declaration order, in groups of five. */
  const Fields1: seq<TestimonialField> := [ClientName, ClientTitle, ClientCompany, ClientImage, TestimonialText]
  const Fields2: seq<TestimonialField> := [Rating, ProjectId, Featured, Published]
  const AllFields: seq<TestimonialField> := Fields1 + Fields2

  lemma AllFieldsListed()
    ensures forall g :: g in AllFields
  {
    forall g ensures g in AllFields {
      match g
      case ClientName => assert g in Fields1;
      case ClientTitle => assert g in Fields1;
      case ClientCompany => assert g in Fields1;
      case ClientImage => assert g in Fields1;
      case TestimonialText => assert g in Fields1;
      case Rating => assert g in Fields2;
      case ProjectId => assert g in Fields2;
      case Featured => assert g in Fields2;
      case Published => assert g in Fields2;
    }
  }

  function KindOf(f: TestimonialField): Kind {
    match f
    case ClientName => TextKind
    case ClientTitle => TextKind
    case ClientCompany => TextKind
    case ClientImage => OptionalText
    case TestimonialText => TextKind
    case Rating => OptionalNumber
    case ProjectId => OptionalText
    case Featured => FlagKind
    case Published => FlagKind
  }

  /** `d[f]`. Only an optional field can read as `Absent`. */
  function Get(d: TestimonialData, f: TestimonialField): (v: Value)
    ensures Fits(KindOf(f), v) || ((KindOf(f) == OptionalText || KindOf(f) == OptionalNumber) && v == Absent)
  {
    match f
    case ClientName => Text(d.client_name)
    case ClientTitle => Text(d.client_title)
    case ClientCompany => Text(d.client_company)
    case ClientImage => OptionalTextValue(d.client_image)
    case TestimonialText => Text(d.testimonial_text)
    case Rating => OptionalNumberValue(d.rating)
    case ProjectId => OptionalTextValue(d.project_id)
    case Featured => Flag(d.featured)
    case Published => Flag(d.published)
  }

  /** `{ ...d, [f]: v }`: field `f` reads `v` afterwards and every other
      field reads as before. */
  function With(d: TestimonialData, f: TestimonialField, v: Value): (r: TestimonialData)
    requires Fits(KindOf(f), v)
    ensures forall g :: Get(r, g) == if g == f then v else Get(d, g)
  {
    match f
    case ClientName => d.(client_name := v.s)
    case ClientTitle => d.(client_title := v.s)
    case ClientCompany => d.(client_company := v.s)
    case ClientImage => d.(client_image := Some(v.s))
    case TestimonialText => d.(testimonial_text := v.s)
    case Rating => d.(rating := Some(v.n))
    case ProjectId => d.(project_id := Some(v.s))
    case Featured => d.(featured := v.b)
    case Published => d.(published := v.b)
  }

  /** Two records that agree on every field are the same record. */
  lemma Extensional(a: TestimonialData, b: TestimonialData)
    requires forall g :: Get(a, g) == Get(b, g)
    ensures a == b
  {
    SameFields1(a, b);
    SameFields2(a, b);
  }

  lemma SameFields1(a: TestimonialData, b: TestimonialData)
    requires forall g :: Get(a, g) == Get(b, g)
    ensures a.client_name == b.client_name && a.client_title == b.client_title && a.client_company == b.client_company && a.client_image == b.client_image && a.testimonial_text == b.testimonial_text
  {
    assert Get(a, ClientName) == Get(b, ClientName);
    assert Get(a, ClientTitle) == Get(b, ClientTitle);
    assert Get(a, ClientCompany) == Get(b, ClientCompany);
    assert Get(a, ClientImage) == Get(b, ClientImage);
    assert Get(a, TestimonialText) == Get(b, TestimonialText);
  }

  lemma SameFields2(a: TestimonialData, b: TestimonialData)
    requires forall g :: Get(a, g) == Get(b, g)
    ensures a.rating == b.rating && a.project_id == b.project_id && a.featured == b.featured && a.published == b.published
  {
    assert Get(a, Rating) == Get(b, Rating);
    assert Get(a, ProjectId) == Get(b, ProjectId);
    assert Get(a, Featured) == Get(b, Featured);
    assert Get(a, Published) == Get(b, Published);
  }

  /** A partial update payload (`Partial<...>`): the fields it lists, each
      with a value of the field's kind. */
  type Patch = map<TestimonialField, Value>

  predicate PatchFits(patch: Patch) {
    forall f :: f in patch ==> Fits(KindOf(f), patch[f])
  }

  function MergeFields(d: TestimonialData, patch: Patch, fs: seq<TestimonialField>): (r: TestimonialData)
    requires PatchFits(patch)
    ensures forall g :: Get(r, g) == if g in patch && g in fs then patch[g] else Get(d, g)
    decreases |fs|
  {
    if fs == [] then d
    else
      var d' := if fs[0] in patch then With(d, fs[0], patch[fs[0]]) else d;
      MergeFields(d', patch, fs[1..])
  }

  /** `{ ...d, ...patch }`: the listed fields take the payload's values, the
      others keep theirs. */
  function Merge(d: TestimonialData, patch: Patch): (r: TestimonialData)
    requires PatchFits(patch)
    ensures forall g :: Get(r, g) == if g in patch then patch[g] else Get(d, g)
  {
    AllFieldsListed();
    MergeFields(d, patch, AllFields)
  }

  /** What `{ ...d }` sends as an update: every field of `d` that holds a
      value (an `undefined` property is dropped from the request). */
  function Payload(d: TestimonialData): (patch: Patch)
    ensures PatchFits(patch)
    ensures forall g :: g in patch <==> Get(d, g) != Absent
    ensures forall g :: g in patch ==> patch[g] == Get(d, g)
  {
    AllFieldsListed();
    map g | g in AllFields && Get(d, g) != Absent :: Get(d, g)
  }

  /** No optional field is absent, as in every draft the editor holds. */
  predicate Complete(d: TestimonialData) {
    d.client_image.Some? && d.rating.Some? && d.project_id.Some?
  }

  lemma CompleteHasAllFields(d: TestimonialData)
    ensures Complete(d) <==> forall g :: Get(d, g) != Absent
  {
    if !Complete(d) {
      assert Get(d, ClientImage) == Absent || Get(d, Rating) == Absent || Get(d, ProjectId) == Absent;
    }
  }

  /** Sending a complete draft as an update makes the row's data equal to
      the draft, whatever the row held before. */
  lemma MergeCompletePayload(before: TestimonialData, d: TestimonialData)
    requires Complete(d)
    ensures Merge(before, Payload(d)) == d
  {
    CompleteHasAllFields(d);
    Extensional(Merge(before, Payload(d)), d);
  }


  /** `rating || 5`: a missing or zero rating counts as five stars. */
  function RatingOrDefault(rating: Option<int>): (n: int)
    ensures n != 0
    ensures rating.Some? && rating.value != 0 ==> n == rating.value
    ensures rating.None? || rating.value == 0 ==> n == 5
  {
    if rating.Some? && rating.value != 0 then rating.value else 5
  }

  /** The edit-a-testimonial load (`handleEdit`): absent `client_image` and
      `project_id` become `''`, a missing or zero rating becomes 5, and every
      other field is copied as it is. */
  function Normalized(d: TestimonialData): (r: TestimonialData)
    ensures Complete(r)
    ensures forall g :: KindOf(g) == TextKind || KindOf(g) == FlagKind ==> Get(r, g) == Get(d, g)
    ensures forall g :: KindOf(g) == OptionalText ==>
      Get(r, g) == if Get(d, g) == Absent then Text("") else Get(d, g)
    ensures Get(r, Rating) == if Get(d, Rating) in {Absent, Num(0)} then Num(5) else Get(d, Rating)
  {
    d.(client_image := Some(OrEmpty(d.client_image)),
       rating := Some(RatingOrDefault(d.rating)),
       project_id := Some(OrEmpty(d.project_id)))
  }

  /** Loading a complete record whose rating is not zero reproduces it. */
  lemma NormalizedComplete(d: TestimonialData)
    requires Complete(d) && d.rating != Some(0)
    ensures Normalized(d) == d
  {
    CompleteHasAllFields(d);
    Extensional(Normalized(d), d);
  }

  /** The editor's starting draft, which `resetForm` restores. */
  const InitialDraft := TestimonialData("", "", "", Some(""), "", Some(5), Some(""), false, true)

  lemma InitialDraftFacts()
    ensures Complete(InitialDraft)
    ensures forall g :: KindOf(g) == TextKind || KindOf(g) == OptionalText ==> Get(InitialDraft, g) == Text("")
    ensures InitialDraft.rating == Some(5)
    ensures !InitialDraft.featured && InitialDraft.published
  {
  }
}
