/** The project editor page (src/pages/ProjectForm.tsx): a draft project, the
    four pending text inputs for list items, the handlers that change them,
    and the create-or-update decision on submit. */
module ProjectEditor {
  import opened Wrappers
  import opened Fields
  import opened Text
  import opened Lists
  import opened ProjectRecord
  import opened Store

  /** What a submit asks the project service to do. */
  datatype ProjectRequest =
    | CreateProject(data: ProjectData)
    | UpdateProject(id: string, patch: Patch)

  /** `isEditing` as the page computes it: any route id other than the text
      `'new'`, an absent one included. */
  predicate IsEditingAsWritten(routeId: Option<string>) {
    routeId != Some("new")
  }

  /** The route `/admin/project/new` gives no id at all, and the page still
      counts as editing, so its submit takes the update branch. */
  lemma NewRouteIsEditingAsWritten()
    ensures IsEditingAsWritten(None)
  {
  }

  /** The submit decision as the page makes it. */
  function SubmitAsWritten(routeId: Option<string>, draft: ProjectData): (req: ProjectRequest)
    ensures req.CreateProject? <==> routeId == Some("new")
    ensures req.UpdateProject? ==> req.patch == Payload(draft)
    ensures req.UpdateProject? && routeId.Some? ==> req.id == routeId.value
    ensures routeId.None? ==> req == UpdateProject("undefined", Payload(draft))
  {
    if IsEditingAsWritten(routeId) then UpdateProject(routeId.GetOr("undefined"), Payload(draft))
    else CreateProject(draft)
  }

  /** On the new-project route the page never asks for a create: it asks
      for an update of the id `undefined`. */
  lemma NewRouteNeverCreatesAsWritten(draft: ProjectData)
    ensures SubmitAsWritten(None, draft).UpdateProject?
    ensures SubmitAsWritten(None, draft).id == "undefined"
  {
  }

  /** `isEditing` as intended: the page edits exactly when the route names
      a project. */
  predicate IsEditing(routeId: Option<string>) {
    routeId.Some? && routeId.value != "new"
  }

  /** The intended decision creates on the new-project route and updates
      the named project otherwise. */
  lemma IsEditingCases(routeId: Option<string>)
    ensures IsEditing(routeId) <==> IsEditingAsWritten(routeId) && routeId != None
    ensures !IsEditing(None) && !IsEditing(Some("new"))
  {
  }

  /** `handlePreview`: the case-study path to open, only when the page is
      editing (as written) and the route id is a non-empty text. The
      missing-id case is excluded by the second test, so the preview never
      opens on the new-project route. */
  function PreviewPath(routeId: Option<string>): (path: Option<string>)
    ensures path.Some? <==> routeId.Some? && routeId.value != "" && routeId.value != "new"
    ensures path.Some? ==> IsEditing(routeId) && path.value == "/case-study/" + routeId.value
  {
    if IsEditingAsWritten(routeId) && routeId.Some? && routeId.value != "" then
      Some("/case-study/" + routeId.value)
    else
      None
  }

  class ProjectForm {
    /** The `:id` route parameter. */
    const routeId: Option<string>
    var formData: ProjectData
    var newTag: string
    var newProcessStep: string
    var newResult: string
    var newImage: string

    /** The draft never has an absent optional field. */
    ghost predicate Valid()
      reads this
    {
      Complete(formData)
    }

    constructor (routeId: Option<string>)
      ensures Valid()
      ensures this.routeId == routeId && formData == InitialDraft
      ensures newTag == "" && newProcessStep == "" && newResult == "" && newImage == ""
    {
      this.routeId := routeId;
      formData := InitialDraft;
      newTag, newProcessStep, newResult, newImage := "", "", "", "";
    }

    /** The load effect: once the project is fetched, the draft becomes the
        project with absent optional fields read as `''`. */
    method Load(project: Option<Row<ProjectData>>)
      requires Valid()
      modifies this`formData
      ensures Valid()
      ensures project.Some? ==> formData == Normalized(project.value.data)
      ensures project.None? ==> formData == old(formData)
    {
      if project.Some? {
        formData := Normalized(project.value.data);
      }
    }

    /** `handleInputChange(field, value)`: field `f` takes `v`, no other
        field changes. */
    method HandleInputChange(f: ProjectField, v: Value)
      requires Valid() && Fits(KindOf(f), v)
      modifies this`formData
      ensures Valid()
      ensures forall g :: Get(formData, g) == if g == f then v else Get(old(formData), g)
    {
      formData := With(formData, f, v);
    }

    method SetNewTag(s: string)
      modifies this`newTag
      ensures newTag == s
    {
      newTag := s;
    }

    method SetNewProcessStep(s: string)
      modifies this`newProcessStep
      ensures newProcessStep == s
    {
      newProcessStep := s;
    }

    method SetNewResult(s: string)
      modifies this`newResult
      ensures newResult == s
    {
      newResult := s;
    }

    method SetNewImage(s: string)
      modifies this`newImage
      ensures newImage == s
    {
      newImage := s;
    }

    /** `addTag`: a non-empty trimmed tag that is not there yet is appended
        and the input cleared; otherwise the draft and the input stay. Only
        `tags` can change, and a duplicate-free list stays duplicate-free. */
    method AddTag()
      requires Valid()
      modifies this`formData, this`newTag
      ensures Valid()
      ensures formData.tags == AddUnique(old(formData.tags), old(newTag))
      ensures forall g :: g != Tags ==> Get(formData, g) == Get(old(formData), g)
      ensures Trim(old(newTag)) != "" && Trim(old(newTag)) !in old(formData.tags) ==>
        formData.tags == old(formData.tags) + [Trim(old(newTag))] && newTag == ""
      ensures Trim(old(newTag)) == "" || Trim(old(newTag)) in old(formData.tags) ==>
        formData == old(formData) && newTag == old(newTag)
      ensures NoDup(old(formData.tags)) ==> NoDup(formData.tags)
    {
      var tag := Trim(newTag);
      if tag != "" && tag !in formData.tags {
        HandleInputChange(Tags, Items(formData.tags + [tag]));
        assert Get(formData, Tags) == Items(formData.tags);
        newTag := "";
      }
    }

    /** `removeTag(t)`: every copy of `t` goes, the other tags keep their
        order, nothing else changes. */
    method RemoveTag(tag: string)
      requires Valid()
      modifies this`formData
      ensures Valid()
      ensures formData.tags == RemoveValue(old(formData.tags), tag)
      ensures forall g :: g != Tags ==> Get(formData, g) == Get(old(formData), g)
    {
      HandleInputChange(Tags, Items(RemoveValue(formData.tags, tag)));
      assert Get(formData, Tags) == Items(formData.tags);
    }

    /** `addProcessStep`: a non-empty trimmed step is appended, repeats
        allowed, and the input cleared; an empty one changes nothing. */
    method AddProcessStep()
      requires Valid()
      modifies this`formData, this`newProcessStep
      ensures Valid()
      ensures formData.process == AddNonEmpty(old(formData.process), old(newProcessStep))
      ensures forall g :: g != Process ==> Get(formData, g) == Get(old(formData), g)
      ensures newProcessStep == if Trim(old(newProcessStep)) == "" then old(newProcessStep) else ""
    {
      var step := Trim(newProcessStep);
      if step != "" {
        HandleInputChange(Process, Items(formData.process + [step]));
        assert Get(formData, Process) == Items(formData.process);
        newProcessStep := "";
      }
    }

    /** `removeProcessStep(i)`: exactly position `i` goes; an index outside
        the list changes nothing. */
    method RemoveProcessStep(index: int)
      requires Valid()
      modifies this`formData
      ensures Valid()
      ensures formData.process == RemoveAt(old(formData.process), index)
      ensures forall g :: g != Process ==> Get(formData, g) == Get(old(formData), g)
    {
      HandleInputChange(Process, Items(RemoveAt(formData.process, index)));
      assert Get(formData, Process) == Items(formData.process);
    }

    /** `addResult`: as `addProcessStep`, for `results`. */
    method AddResult()
      requires Valid()
      modifies this`formData, this`newResult
      ensures Valid()
      ensures formData.results == AddNonEmpty(old(formData.results), old(newResult))
      ensures forall g :: g != Results ==> Get(formData, g) == Get(old(formData), g)
      ensures newResult == if Trim(old(newResult)) == "" then old(newResult) else ""
    {
      var result := Trim(newResult);
      if result != "" {
        HandleInputChange(Results, Items(formData.results + [result]));
        assert Get(formData, Results) == Items(formData.results);
        newResult := "";
      }
    }

    /** `removeResult(i)`: as `removeProcessStep`, for `results`. */
    method RemoveResult(index: int)
      requires Valid()
      modifies this`formData
      ensures Valid()
      ensures formData.results == RemoveAt(old(formData.results), index)
      ensures forall g :: g != Results ==> Get(formData, g) == Get(old(formData), g)
    {
      HandleInputChange(Results, Items(RemoveAt(formData.results, index)));
      assert Get(formData, Results) == Items(formData.results);
    }

    /** `addImage`: as `addTag`, for the gallery `images`. */
    method AddImage()
      requires Valid()
      modifies this`formData, this`newImage
      ensures Valid()
      ensures formData.images == AddUnique(old(formData.images), old(newImage))
      ensures forall g :: g != Images ==> Get(formData, g) == Get(old(formData), g)
      ensures Trim(old(newImage)) != "" && Trim(old(newImage)) !in old(formData.images) ==>
        formData.images == old(formData.images) + [Trim(old(newImage))] && newImage == ""
      ensures Trim(old(newImage)) == "" || Trim(old(newImage)) in old(formData.images) ==>
        formData == old(formData) && newImage == old(newImage)
      ensures NoDup(old(formData.images)) ==> NoDup(formData.images)
    {
      var image := Trim(newImage);
      if image != "" && image !in formData.images {
        HandleInputChange(Images, Items(formData.images + [image]));
        assert Get(formData, Images) == Items(formData.images);
        newImage := "";
      }
    }

    /** `removeImage(url)`: as `removeTag`, for `images`. */
    method RemoveImage(image: string)
      requires Valid()
      modifies this`formData
      ensures Valid()
      ensures formData.images == RemoveValue(old(formData.images), image)
      ensures forall g :: g != Images ==> Get(formData, g) == Get(old(formData), g)
    {
      HandleInputChange(Images, Items(RemoveValue(formData.images, image)));
      assert Get(formData, Images) == Items(formData.images);
    }

    /** `handleSubmit`, with the intended `isEditing`: an update of the named
        project carrying every field of the draft, or a create of the draft. */
    method HandleSubmit() returns (req: ProjectRequest)
      ensures IsEditing(routeId) ==> req == UpdateProject(routeId.value, Payload(formData))
      ensures !IsEditing(routeId) ==> req == CreateProject(formData)
    {
      if IsEditing(routeId) {
        req := UpdateProject(routeId.value, Payload(formData));
      } else {
        req := CreateProject(formData);
      }
    }
  }

  /** Saving a draft as an update makes the row's data equal to the draft,
      whatever the row held before; in particular, loading a complete
      project and saving it untouched writes back the same data. */
  lemma UpdateSavesDraft(before: ProjectData, draft: ProjectData)
    requires Complete(draft)
    ensures Merge(before, Payload(draft)) == draft
    ensures Complete(before) ==> Merge(before, Payload(Normalized(before))) == before
  {
    MergeCompletePayload(before, draft);
    if Complete(before) {
      NormalizedComplete(before);
      MergeCompletePayload(before, before);
    }
  }
}
