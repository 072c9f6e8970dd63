/** The admin dashboard (src/pages/Admin.tsx): the search over all loaded
    projects, the four counters, the configuration-error test on a failed
    load, the delete confirmation and the tag chips of a project card. */
module AdminDashboard {
  import opened Wrappers
  import opened Text
  import opened Lists
  import opened ProjectRecord
  import opened Store

  /** Some tag contains the term, ignoring case (`tags.some(...)`). */
  predicate SomeTagMatches(tags: seq<string>, term: string) {
    exists i :: 0 <= i < |tags| && ContainsIgnoringCase(tags[i], term)
  }

  /** A project matches the search when its title, its category or one of
      its tags contains the term, ignoring case. */
  predicate MatchesSearch(d: ProjectData, term: string) {
    ContainsIgnoringCase(d.title, term) ||
    ContainsIgnoringCase(d.category, term) ||
    SomeTagMatches(d.tags, term)
  }

  /** `filteredProjects`: the loaded projects that match, in the order they
      were listed. */
  function FilterProjects(rows: seq<Row<ProjectData>>, term: string): (r: seq<Row<ProjectData>>)
    ensures IsSubseq(r, rows)
    ensures forall x :: x in r <==> x in rows && MatchesSearch(x.data, term)
  {
    Filter(rows, (x: Row<ProjectData>) => MatchesSearch(x.data, term))
  }

  /** An empty search box shows every project. */
  lemma EmptySearchKeepsAll(rows: seq<Row<ProjectData>>)
    ensures FilterProjects(rows, "") == rows
  {
    forall x | x in rows ensures MatchesSearch(x.data, "") {
      ContainsEmpty(Lower(x.data.title));
    }
  }

  /** A project with a tag that has the term inside it (in lower case) is
      shown, whatever its title and category. */
  lemma SearchFindsTag(rows: seq<Row<ProjectData>>, x: Row<ProjectData>, i: int, a: string, term: string, b: string)
    requires x in rows && 0 <= i < |x.data.tags| && Lower(x.data.tags[i]) == a + Lower(term) + b
    ensures x in FilterProjects(rows, term)
  {
    ContainsInfix(a, Lower(term), b);
  }

  /** The "Published" counter. */
  function PublishedCount(rows: seq<Row<ProjectData>>): (n: nat)
    ensures n <= |rows|
  {
    Count(rows, IsPublished)
  }

  /** The "Featured" counter. */
  function FeaturedCount(rows: seq<Row<ProjectData>>): (n: nat)
    ensures n <= |rows|
  {
    Count(rows, (x: Row<ProjectData>) => x.data.featured)
  }

  /** The "Drafts" counter: the projects that are not published. */
  function DraftCount(rows: seq<Row<ProjectData>>): (n: nat)
    ensures n <= |rows|
  {
    Count(rows, IsDraft)
  }

  predicate IsPublished(x: Row<ProjectData>) {
    x.data.published
  }

  predicate IsDraft(x: Row<ProjectData>) {
    !x.data.published
  }

  /** Every project is either published or a draft: the two counters add
      up to the total, and there are no drafts exactly when everything is
      published. */
  lemma PublishedPlusDrafts(rows: seq<Row<ProjectData>>)
    ensures PublishedCount(rows) + DraftCount(rows) == |rows|
    ensures DraftCount(rows) == 0 <==> forall x :: x in rows ==> x.data.published
  {
    CountSplits(rows, IsPublished, IsDraft);
  }

  /** The marker text of the configuration error the project service
      raises when the database URL or key is missing. */
  const MissingEnvMarker := "Missing Supabase environment variables"

  /** `isEnvError`: the setup instructions are shown exactly when the error
      message contains the marker. */
  function IsEnvError(message: string): (b: bool)
    ensures b <==> exists i :: OccursAt(message, MissingEnvMarker, i)
  {
    Contains(message, MissingEnvMarker)
  }

  /** Any message that embeds the marker is recognised, wherever it sits. */
  lemma EnvErrorRecognised(before: string, after: string)
    ensures IsEnvError(before + MissingEnvMarker + after)
  {
    ContainsInfix(before, MissingEnvMarker, after);
  }

  /** `handleDelete(id, title)`: the delete is requested only when the
      confirmation dialog is accepted. */
  function DeleteRequest(id: string, confirmed: bool): (r: Option<string>)
    ensures r.Some? <==> confirmed
    ensures r.Some? ==> r.value == id
  {
    if confirmed then Some(id) else None
  }

  /** The chips of a project card: the first four tags and, when there are
      more, a "+n more" chip counting the rest. */
  datatype Chips = Chips(shown: seq<string>, more: Option<nat>)

  function TagChips(tags: seq<string>): (c: Chips)
    ensures |c.shown| == if |tags| < 4 then |tags| else 4
    ensures c.shown == tags[..|c.shown|]
    ensures c.more.Some? <==> |tags| > 4
    ensures c.more.Some? ==> c.more.value == |tags| - 4
  {
    var shown := if |tags| < 4 then tags else tags[..4];
    Chips(shown, if |tags| > 4 then Some(|tags| - 4) else None)
  }

  /** The visible chips and the hidden count always account for every tag. */
  lemma ChipsAccountForAllTags(tags: seq<string>)
    ensures |TagChips(tags).shown| + TagChips(tags).more.GetOr(0) == |tags|
  {
  }
}
