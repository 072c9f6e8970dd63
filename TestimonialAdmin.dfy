/** The testimonial management page (src/pages/TestimonialManagement.tsx):
    the search over the loaded testimonials, the three counters, the star
    row of a card, and the create-or-edit form with its draft, the id of
    the testimonial being edited and whether the form is shown. */
module TestimonialAdmin {
  import opened Wrappers
  import opened Fields
  import opened Text
  import opened Lists
  import opened TestimonialRecord
  import opened Store
  import SettingsApi

  /** One testimonial matches the search when its client name, its company
      or its text contains the term, ignoring case. */
  predicate MatchesSearch(d: TestimonialData, term: string) {
    ContainsIgnoringCase(d.client_name, term) ||
    ContainsIgnoringCase(d.client_company, term) ||
    ContainsIgnoringCase(d.testimonial_text, term)
  }

  /** `filteredTestimonials`: the loaded testimonials that match, in the
      order they were listed. */
  function FilterTestimonials(rows: seq<Row<TestimonialData>>, term: string): (r: seq<Row<TestimonialData>>)
    ensures IsSubseq(r, rows)
    ensures forall x :: x in r <==> x in rows && MatchesSearch(x.data, term)
  {
    Filter(rows, (x: Row<TestimonialData>) => MatchesSearch(x.data, term))
  }

  /** An empty search box shows every testimonial. */
  lemma EmptySearchKeepsAll(rows: seq<Row<TestimonialData>>)
    ensures FilterTestimonials(rows, "") == rows
  {
    forall x | x in rows ensures MatchesSearch(x.data, "") {
      ContainsEmpty(Lower(x.data.client_name));
    }
  }

  /** A testimonial whose client name has the search term inside it (in
      lower case) is shown. */
  lemma SearchFindsClientName(rows: seq<Row<TestimonialData>>, x: Row<TestimonialData>, a: string, term: string, b: string)
    requires x in rows && Lower(x.data.client_name) == a + Lower(term) + b
    ensures x in FilterTestimonials(rows, term)
  {
    ContainsInfix(a, Lower(term), b);
  }

  /** A shown testimonial stays shown when the search is narrowed back to
      a shorter term it still contains: the shown set only shrinks as the
      term grows. */
  lemma LongerTermShowsFewer(rows: seq<Row<TestimonialData>>, term: string, more: string)
    ensures forall x :: x in FilterTestimonials(rows, term + more) ==> x in FilterTestimonials(rows, term)
  {
    forall x | x in FilterTestimonials(rows, term + more)
      ensures MatchesSearch(x.data, term)
    {
      NarrowedMatch(x.data, term, more);
    }
  }

  /** One testimonial that matches `term + more` matches `term`. */
  lemma NarrowedMatch(d: TestimonialData, term: string, more: string)
    ensures MatchesSearch(d, term + more) ==> MatchesSearch(d, term)
  {
    LowerAppend(term, more);
    PrefixContained(Lower(d.client_name), Lower(term), Lower(more));
    PrefixContained(Lower(d.client_company), Lower(term), Lower(more));
    PrefixContained(Lower(d.testimonial_text), Lower(term), Lower(more));
  }

  /** A text that contains `t + u` contains `t`. */
  lemma PrefixContained(s: string, t: string, u: string)
    ensures Contains(s, t + u) ==> Contains(s, t)
  {
    if Contains(s, t + u) {
      var i :| OccursAt(s, t + u, i);
      assert s[i..i + |t|] == (t + u)[..|t|] == t;
      assert OccursAt(s, t, i);
    }
  }

  /** The "Published" counter: how many loaded testimonials are published. */
  function PublishedCount(rows: seq<Row<TestimonialData>>): (n: nat)
    ensures n <= |rows|
  {
    Count(rows, (x: Row<TestimonialData>) => x.data.published)
  }

  /** The "Featured" counter. */
  function FeaturedCount(rows: seq<Row<TestimonialData>>): (n: nat)
    ensures n <= |rows|
  {
    Count(rows, (x: Row<TestimonialData>) => x.data.featured)
  }

  /** The published counter reaches the total exactly when nothing is a
      draft, and likewise for the featured counter. */
  lemma CountersReachTotal(rows: seq<Row<TestimonialData>>)
    ensures PublishedCount(rows) == |rows| <==> forall x :: x in rows ==> x.data.published
    ensures FeaturedCount(rows) == |rows| <==> forall x :: x in rows ==> x.data.featured
  {
    CountAll(rows, (x: Row<TestimonialData>) => x.data.published);
    CountAll(rows, (x: Row<TestimonialData>) => x.data.featured);
  }


  /** The five stars of a card: star `i` (from 0) is filled when `i` is
      below the rating. */
  function Stars(rating: int): (s: seq<bool>)
    ensures |s| == 5
    ensures forall i :: 0 <= i < 5 ==> (s[i] <==> i < rating)
  {
    seq(5, i => i < rating)
  }

  predicate IsFilled(star: bool) {
    star
  }

  /** The number of filled stars is the rating cut to the range 0 to 5. */
  lemma FilledStars(rating: int)
    ensures Count(Stars(rating), IsFilled) == if rating < 0 then 0 else if rating > 5 then 5 else rating
  {
    CountFilledPrefix(Stars(rating), if rating < 0 then 0 else if rating > 5 then 5 else rating);
  }

  /** A card shows its star row only for a rating that is set and not zero
      (`testimonial.rating && …`). */
  predicate ShowsRating(rating: Option<int>) {
    rating.Some? && rating.value != 0
  }

  /** The star row of a card: five stars for a shown rating, none at all
      for an absent or zero one. */
  function StarRow(rating: Option<int>): (s: seq<bool>)
    ensures |s| == if ShowsRating(rating) then 5 else 0
  {
    if ShowsRating(rating) then Stars(rating.value) else []
  }

  /** The number of filled stars on a card: none when the row is hidden,
      and otherwise the rating cut to the range 0 to 5. */
  lemma StarRowFilled(rating: Option<int>)
    ensures Count(StarRow(rating), IsFilled) ==
      if !ShowsRating(rating) then 0
      else if rating.value < 0 then 0 else if rating.value > 5 then 5 else rating.value
  {
    if ShowsRating(rating) {
      FilledStars(rating.value);
    }
  }

  /** Every rating the form can hold, `parseInt(text) || 5` or the
      `rating || 5` of an edited testimonial, shows its star row. */
  lemma FormRatingShown(rating: Option<int>)
    ensures ShowsRating(Some(RatingOrDefault(rating)))
  {
  }

  /** A row of stars filled exactly on its first `n` positions has `n`
      filled stars. */
  lemma {:induction false} CountFilledPrefix(s: seq<bool>, n: nat)
    requires n <= |s|
    requires forall i :: 0 <= i < |s| ==> (s[i] <==> i < n)
    ensures Count(s, IsFilled) == n
  {
    if s != [] {
      assert forall i :: 0 <= i < |s[1..]| ==> s[1..][i] == s[i + 1];
      if n == 0 {
        CountFilledPrefix(s[1..], 0);
      } else {
        CountFilledPrefix(s[1..], n - 1);
      }
    }
  }

  /** `handleDelete(id, name)`: the delete is requested only when the
      confirmation dialog is accepted. */
  function DeleteRequest(id: string, confirmed: bool): (r: Option<string>)
    ensures r.Some? <==> confirmed
    ensures r.Some? ==> r.value == id
  {
    if confirmed then Some(id) else None
  }

  /** What a submit of the form asks the settings service to do. */
  datatype TestimonialRequest =
    | CreateTestimonial(data: TestimonialData)
    | UpdateTestimonial(id: string, patch: Patch)

  /** `editingId` is truthy: set and not the empty string. */
  predicate Editing(editingId: Option<string>) {
    editingId.Some? && editingId.value != ""
  }

  class TestimonialEditor {
    var formData: TestimonialData
    var editingId: Option<string>
    var isCreating: bool
    var searchTerm: string

    /** The draft has no absent optional field and a rating other than zero. */
    ghost predicate Valid()
      reads this
    {
      Complete(formData) && formData.rating.value != 0
    }

    constructor ()
      ensures Valid()
      ensures formData == InitialDraft && editingId == None && !isCreating && searchTerm == ""
    {
      formData := InitialDraft;
      editingId := None;
      isCreating := false;
      searchTerm := "";
    }

    method SetSearchTerm(term: string)
      modifies this`searchTerm
      ensures searchTerm == term
    {
      searchTerm := term;
    }

    /** The "New Testimonial" button shows the form, keeping the draft and
        the id being edited. */
    method StartCreating()
      modifies this`isCreating
      ensures isCreating
    {
      isCreating := true;
    }

    /** `resetForm` (Cancel, and after a successful save): the starting
        draft, the form hidden, nothing being edited. */
    method ResetForm()
      modifies this`formData, this`editingId, this`isCreating
      ensures Valid()
      ensures formData == InitialDraft && editingId == None && !isCreating
    {
      formData := InitialDraft;
      isCreating := false;
      editingId := None;
    }

    /** `handleEdit(t)`: the draft becomes the testimonial with absent
        optional fields read as `''` and a missing or zero rating read as
        5, and the form opens on that testimonial. */
    method HandleEdit(testimonial: Row<TestimonialData>)
      modifies this`formData, this`editingId, this`isCreating
      ensures Valid()
      ensures formData == Normalized(testimonial.data)
      ensures editingId == Some(testimonial.id) && isCreating
    {
      formData := Normalized(testimonial.data);
      editingId := Some(testimonial.id);
      isCreating := true;
    }

    /** The per-field `onChange` handlers of the form, other than the
        rating: field `f` takes `v`, no other field changes. */
    method HandleFieldChange(f: TestimonialField, v: Value)
      requires Valid() && f != Rating && Fits(KindOf(f), v)
      modifies this`formData
      ensures Valid()
      ensures forall g :: Get(formData, g) == if g == f then v else Get(old(formData), g)
    {
      formData := With(formData, f, v);
      assert Get(formData, Rating) == Get(old(formData), Rating);
    }

    /** The rating input's `onChange`: `parseInt(text) || 5`, so text that
        is not a number, and zero, give 5. */
    method SetRatingInput(text: string)
      requires Valid()
      modifies this`formData
      ensures Valid()
      ensures formData.rating == Some(RatingOrDefault(ParseInt(text)))
      ensures forall g :: g != Rating ==> Get(formData, g) == Get(old(formData), g)
    {
      var rating := RatingOrDefault(ParseInt(text));
      formData := With(formData, Rating, Num(rating));
      assert Get(formData, Rating) == Num(rating);
    }

    /** `handleSubmit`: an update of the testimonial being edited carrying
        every field of the draft, or a create of the draft. */
    method HandleSubmit() returns (req: TestimonialRequest)
      ensures Editing(editingId) ==> req == UpdateTestimonial(editingId.value, Payload(formData))
      ensures !Editing(editingId) ==> req == CreateTestimonial(formData)
    {
      if Editing(editingId) {
        req := UpdateTestimonial(editingId.value, Payload(formData));
      } else {
        req := CreateTestimonial(formData);
      }
    }
  }

  /** Opening a stored testimonial for editing and saving it untouched
      leaves its data as it was, so long as it has no absent optional field
      and no zero rating. */
  lemma EditSaveRoundTrip(t: Table<TestimonialData>, id: string, now: nat)
    requires id in t && Complete(t[id].data) && t[id].data.rating != Some(0)
    ensures SettingsApi.TestimonialUpdated(t, id, Payload(Normalized(t[id].data)), now)[id].data == t[id].data
  {
    NormalizedComplete(t[id].data);
    MergeCompletePayload(t[id].data, t[id].data);
  }
}
