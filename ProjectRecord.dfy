/** The project record (`CreateProjectData` in src/types/project.ts, with the
    snake_case column names the editor and the service use), addressed field
    by field so that the keyed setter and the partial update can be stated. */
module ProjectRecord {
  import opened Wrappers
  import opened Fields

  /** The data of a project row: everything but `id` and the timestamps. */
  datatype ProjectData = ProjectData(
    title: string,
    subtitle: Option<string>,
    description: string,
    hero_image: string,
    image: string,
    images: seq<string>,
    tags: seq<string>,
    category: string,
    featured: bool,
    overview: string,
    problem: string,
    process: seq<string>,
    solution: string,
    results: seq<string>,
    duration: string,
    team: string,
    impact: string,
    live_url: Option<string>,
    github_url: Option<string>,
    published: bool)

  datatype ProjectField =
    | Title | Subtitle | Description | HeroImage | Image | Images | Tags | Category | Featured
    | Overview | Problem | Process | Solution | Results | Duration | Team | Impact | LiveUrl
    | GithubUrl | Published

  /** Every field once, in declaration order, in groups of five. */
  const Fields1: seq<ProjectField> := [Title, Subtitle, Description, HeroImage, Image]
  const Fields2: seq<ProjectField> := [Images, Tags, Category, Featured, Overview]
  const Fields3: seq<ProjectField> := [Problem, Process, Solution, Results, Duration]
  const Fields4: seq<ProjectField> := [Team, Impact, LiveUrl, GithubUrl, Published]
  const AllFields: seq<ProjectField> := Fields1 + Fields2 + Fields3 + Fields4

  lemma AllFieldsListed()
    ensures forall g :: g in AllFields
  {
    forall g ensures g in AllFields {
      match g
      case Title => assert g in Fields1;
      case Subtitle => assert g in Fields1;
      case Description => assert g in Fields1;
      case HeroImage => assert g in Fields1;
      case Image => assert g in Fields1;
      case Images => assert g in Fields2;
      case Tags => assert g in Fields2;
      case Category => assert g in Fields2;
      case Featured => assert g in Fields2;
      case Overview => assert g in Fields2;
      case Problem => assert g in Fields3;
      case Process => assert g in Fields3;
      case Solution => assert g in Fields3;
      case Results => assert g in Fields3;
      case Duration => assert g in Fields3;
      case Team => assert g in Fields4;
      case Impact => assert g in Fields4;
      case LiveUrl => assert g in Fields4;
      case GithubUrl => assert g in Fields4;
      case Published => assert g in Fields4;
    }
  }

  function KindOf(f: ProjectField): Kind {
    match f
    case Subtitle | LiveUrl | GithubUrl => OptionalText
    case Images | Tags | Process | Results => ListKind
    case Featured | Published => FlagKind
    case _ => TextKind
  }

  /** `d[f]`. Only an optional text field can read as `Absent`. */
  function Get(d: ProjectData, f: ProjectField): (v: Value)
    ensures Fits(KindOf(f), v) || (KindOf(f) == OptionalText && v == Absent)
  {
    match f
    case Title => Text(d.title)
    case Subtitle => OptionalTextValue(d.subtitle)
    case Description => Text(d.description)
    case HeroImage => Text(d.hero_image)
    case Image => Text(d.image)
    case Images => Items(d.images)
    case Tags => Items(d.tags)
    case Category => Text(d.category)
    case Featured => Flag(d.featured)
    case Overview => Text(d.overview)
    case Problem => Text(d.problem)
    case Process => Items(d.process)
    case Solution => Text(d.solution)
    case Results => Items(d.results)
    case Duration => Text(d.duration)
    case Team => Text(d.team)
    case Impact => Text(d.impact)
    case LiveUrl => OptionalTextValue(d.live_url)
    case GithubUrl => OptionalTextValue(d.github_url)
    case Published => Flag(d.published)
  }

  /** `{ ...d, [f]: v }`: field `f` reads `v` afterwards and every other
      field reads as before. */
  function With(d: ProjectData, f: ProjectField, v: Value): (r: ProjectData)
    requires Fits(KindOf(f), v)
    ensures forall g :: Get(r, g) == if g == f then v else Get(d, g)
  {
    match f
    case Title => d.(title := v.s)
    case Subtitle => d.(subtitle := Some(v.s))
    case Description => d.(description := v.s)
    case HeroImage => d.(hero_image := v.s)
    case Image => d.(image := v.s)
    case Images => d.(images := v.xs)
    case Tags => d.(tags := v.xs)
    case Category => d.(category := v.s)
    case Featured => d.(featured := v.b)
    case Overview => d.(overview := v.s)
    case Problem => d.(problem := v.s)
    case Process => d.(process := v.xs)
    case Solution => d.(solution := v.s)
    case Results => d.(results := v.xs)
    case Duration => d.(duration := v.s)
    case Team => d.(team := v.s)
    case Impact => d.(impact := v.s)
    case LiveUrl => d.(live_url := Some(v.s))
    case GithubUrl => d.(github_url := Some(v.s))
    case Published => d.(published := v.b)
  }

  /** Two records that agree on every field are the same record. */
  lemma Extensional(a: ProjectData, b: ProjectData)
    requires forall g :: Get(a, g) == Get(b, g)
    ensures a == b
  {
    SameFields1(a, b);
    SameFields2(a, b);
    SameFields3(a, b);
    SameFields4(a, b);
  }

  lemma SameFields1(a: ProjectData, b: ProjectData)
    requires forall g :: Get(a, g) == Get(b, g)
    ensures a.title == b.title && a.subtitle == b.subtitle && a.description == b.description && a.hero_image == b.hero_image && a.image == b.image
  {
    assert Get(a, Title) == Get(b, Title);
    assert Get(a, Subtitle) == Get(b, Subtitle);
    assert Get(a, Description) == Get(b, Description);
    assert Get(a, HeroImage) == Get(b, HeroImage);
    assert Get(a, Image) == Get(b, Image);
  }

  lemma SameFields2(a: ProjectData, b: ProjectData)
    requires forall g :: Get(a, g) == Get(b, g)
    ensures a.images == b.images && a.tags == b.tags && a.category == b.category && a.featured == b.featured && a.overview == b.overview
  {
    assert Get(a, Images) == Get(b, Images);
    assert Get(a, Tags) == Get(b, Tags);
    assert Get(a, Category) == Get(b, Category);
    assert Get(a, Featured) == Get(b, Featured);
    assert Get(a, Overview) == Get(b, Overview);
  }

  lemma SameFields3(a: ProjectData, b: ProjectData)
    requires forall g :: Get(a, g) == Get(b, g)
    ensures a.problem == b.problem && a.process == b.process && a.solution == b.solution && a.results == b.results && a.duration == b.duration
  {
    assert Get(a, Problem) == Get(b, Problem);
    assert Get(a, Process) == Get(b, Process);
    assert Get(a, Solution) == Get(b, Solution);
    assert Get(a, Results) == Get(b, Results);
    assert Get(a, Duration) == Get(b, Duration);
  }

  lemma SameFields4(a: ProjectData, b: ProjectData)
    requires forall g :: Get(a, g) == Get(b, g)
    ensures a.team == b.team && a.impact == b.impact && a.live_url == b.live_url && a.github_url == b.github_url && a.published == b.published
  {
    assert Get(a, Team) == Get(b, Team);
    assert Get(a, Impact) == Get(b, Impact);
    assert Get(a, LiveUrl) == Get(b, LiveUrl);
    assert Get(a, GithubUrl) == Get(b, GithubUrl);
    assert Get(a, Published) == Get(b, Published);
  }

  /** A partial update payload (`Partial<CreateProjectData>`): the fields it
      lists, each with a value of the field's kind. */
  type Patch = map<ProjectField, Value>

  predicate PatchFits(patch: Patch) {
    forall f :: f in patch ==> Fits(KindOf(f), patch[f])
  }

  function MergeFields(d: ProjectData, patch: Patch, fs: seq<ProjectField>): (r: ProjectData)
    requires PatchFits(patch)
    ensures forall g :: Get(r, g) == if g in patch && g in fs then patch[g] else Get(d, g)
    decreases |fs|
  {
    if fs == [] then d
    else
      var d' := if fs[0] in patch then With(d, fs[0], patch[fs[0]]) else d;
      MergeFields(d', patch, fs[1..])
  }

  /** `{ ...d, ...patch }`: the listed fields take the payload's values, the
      others keep theirs. */
  function Merge(d: ProjectData, patch: Patch): (r: ProjectData)
    requires PatchFits(patch)
    ensures forall g :: Get(r, g) == if g in patch then patch[g] else Get(d, g)
  {
    AllFieldsListed();
    MergeFields(d, patch, AllFields)
  }

  /** What `{ ...d }` sends as an update: every field of `d` that holds a
      value (an `undefined` property is dropped from the request). */
  function Payload(d: ProjectData): (patch: Patch)
    ensures PatchFits(patch)
    ensures forall g :: g in patch <==> Get(d, g) != Absent
    ensures forall g :: g in patch ==> patch[g] == Get(d, g)
  {
    AllFieldsListed();
    map g | g in AllFields && Get(d, g) != Absent :: Get(d, g)
  }

  /** No optional field is absent, as in every draft the editor holds. */
  predicate Complete(d: ProjectData) {
    d.subtitle.Some? && d.live_url.Some? && d.github_url.Some?
  }

  lemma CompleteHasAllFields(d: ProjectData)
    ensures Complete(d) <==> forall g :: Get(d, g) != Absent
  {
    if !Complete(d) {
      assert Get(d, Subtitle) == Absent || Get(d, LiveUrl) == Absent || Get(d, GithubUrl) == Absent;
    }
  }

  /** Sending a complete draft as an update makes the row's data equal to
      the draft, whatever the row held before. */
  lemma MergeCompletePayload(before: ProjectData, d: ProjectData)
    requires Complete(d)
    ensures Merge(before, Payload(d)) == d
  {
    CompleteHasAllFields(d);
    Extensional(Merge(before, Payload(d)), d);
  }

  /** The load-from-project effect: absent `subtitle`, `live_url` and
      `github_url` become `''`; every other field is copied as it is. */
  function Normalized(d: ProjectData): (r: ProjectData)
    ensures Complete(r)
    ensures forall g :: KindOf(g) != OptionalText ==> Get(r, g) == Get(d, g)
    ensures forall g :: KindOf(g) == OptionalText ==>
      Get(r, g) == if Get(d, g) == Absent then Text("") else Get(d, g)
  {
    d.(subtitle := Some(OrEmpty(d.subtitle)),
       live_url := Some(OrEmpty(d.live_url)),
       github_url := Some(OrEmpty(d.github_url)))
  }

  /** Loading a record that has no absent field reproduces it exactly. */
  lemma NormalizedComplete(d: ProjectData)
    requires Complete(d)
    ensures Normalized(d) == d
  {
    CompleteHasAllFields(d);
    Extensional(Normalized(d), d);
  }

  /** The editor's starting draft. */
  const InitialDraft := ProjectData(
    "", Some(""), "", "", "", [], [], "", false, "", "", [], "", [], "", "", "",
    Some(""), Some(""), false)

  lemma InitialDraftFacts()
    ensures Complete(InitialDraft)
    ensures forall g :: KindOf(g) == TextKind || KindOf(g) == OptionalText ==> Get(InitialDraft, g) == Text("")
    ensures forall g :: KindOf(g) == ListKind ==> Get(InitialDraft, g) == Items([])
    ensures forall g :: KindOf(g) == FlagKind ==> Get(InitialDraft, g) == Flag(false)
  {
  }
}
