/** `ProjectService` (src/services/projectService.ts) over an in-memory
    projects table. Every backend call takes the error the backend would
    report, if any (`fault`); a failed call throws `Error` with the
    operation's message and changes nothing. The clock reading `now` and the
    fresh UUID `id` are parameters. */
module ProjectApi {
  import opened Wrappers
  import opened Fields
  import opened ProjectRecord
  import opened Store

  /** `featured: !project.featured`: only the featured flag changes. */
  function FlipFeatured(d: ProjectData): (r: ProjectData)
    ensures forall g :: Get(r, g) == if g == Featured then Flag(!d.featured) else Get(d, g)
  {
    With(d, Featured, Flag(!d.featured))
  }

  /** `published: !project.published`: only the published flag changes. */
  function FlipPublished(d: ProjectData): (r: ProjectData)
    ensures forall g :: Get(r, g) == if g == Published then Flag(!d.published) else Get(d, g)
  {
    With(d, Published, Flag(!d.published))
  }

  /** Toggling the featured flag twice gives back the table as it was, but
      for the toggled row's `updated_at`, which holds the second time. */
  lemma ToggleFeaturedTwice(t: Table<ProjectData>, id: string, now1: nat, now2: nat)
    requires id in t
    ensures var t1 := Replace(t, id, FlipFeatured(t[id].data), now1);
            Replace(t1, id, FlipFeatured(t1[id].data), now2) == t[id := t[id].(updated_at := now2)]
  {
    var d := t[id].data;
    Extensional(FlipFeatured(FlipFeatured(d)), d);
  }

  /** Toggling the published flag twice gives back the table as it was, but
      for the toggled row's `updated_at`. */
  lemma TogglePublishedTwice(t: Table<ProjectData>, id: string, now1: nat, now2: nat)
    requires id in t
    ensures var t1 := Replace(t, id, FlipPublished(t[id].data), now1);
            Replace(t1, id, FlipPublished(t1[id].data), now2) == t[id := t[id].(updated_at := now2)]
  {
    var d := t[id].data;
    Extensional(FlipPublished(FlipPublished(d)), d);
  }

  class ProjectService {
    /** The `projects` table. */
    var projects: Table<ProjectData>

    constructor (initial: Table<ProjectData>)
      ensures projects == initial
    {
      projects := initial;
    }

    /** `getProjects`: every project, or only the published ones unless
        `includeUnpublished`, newest first. */
    method GetProjects(includeUnpublished: bool, fault: Option<string>) returns (r: Result<seq<Row<ProjectData>>>)
      ensures fault.Some? ==> r == Failure("Failed to fetch projects: " + fault.value)
      ensures fault.None? ==> r.Success? && Listing(r.value, projects, (d: ProjectData) => includeUnpublished || d.published)
    {
      var keep: ProjectData -> bool := (d: ProjectData) => true;
      if !includeUnpublished {
        keep := (d: ProjectData) => d.published;
      }
      if fault.Some? {
        return Failure("Failed to fetch projects: " + fault.value);
      }
      var rows := Select(projects, keep);
      return Success(rows);
    }

    /** `getFeaturedProjects`: the projects that are featured and published,
        newest first. */
    method GetFeaturedProjects(fault: Option<string>) returns (r: Result<seq<Row<ProjectData>>>)
      ensures fault.Some? ==> r == Failure("Failed to fetch featured projects: " + fault.value)
      ensures fault.None? ==> r.Success? && Listing(r.value, projects, (d: ProjectData) => d.featured && d.published)
    {
      if fault.Some? {
        return Failure("Failed to fetch featured projects: " + fault.value);
      }
      var rows := Select(projects, (d: ProjectData) => d.featured && d.published);
      return Success(rows);
    }

    /** `getProjectById`: the project with that id if it is published, and
        `null` when there is none or it is a draft. */
    method GetProjectById(id: string, fault: Option<string>) returns (r: Result<Option<Row<ProjectData>>>)
      ensures fault.Some? ==> r == Failure("Failed to fetch project: " + fault.value)
      ensures fault.None? ==> r.Success?
      ensures fault.None? ==> (r.value.Some? <==> id in projects && projects[id].data.published)
      ensures fault.None? && r.value.Some? ==> r.value.value == RowAt(projects, id)
    {
      if fault.Some? {
        return Failure("Failed to fetch project: " + fault.value);
      }
      return Success(FindRow(projects, id, (d: ProjectData) => d.published));
    }

    /** `getProjectByIdAdmin`: the project with that id, draft or not, and
        `null` only when there is none. */
    method GetProjectByIdAdmin(id: string, fault: Option<string>) returns (r: Result<Option<Row<ProjectData>>>)
      ensures fault.Some? ==> r == Failure("Failed to fetch project: " + fault.value)
      ensures fault.None? ==> r.Success?
      ensures fault.None? ==> (r.value.Some? <==> id in projects)
      ensures fault.None? && r.value.Some? ==> r.value.value == RowAt(projects, id)
    {
      if fault.Some? {
        return Failure("Failed to fetch project: " + fault.value);
      }
      return Success(FindRow(projects, id, (d: ProjectData) => true));
    }

    /** `createProject`: a new row under the fresh `id`, with `created_at`
        and `updated_at` both `now`, holding exactly the given data. */
    method CreateProject(data: ProjectData, id: string, now: nat, fault: Option<string>) returns (r: Result<Row<ProjectData>>)
      requires id !in projects
      modifies this
      ensures fault.Some? ==> r == Failure("Failed to create project: " + fault.value) && projects == old(projects)
      ensures fault.None? ==> projects == Insert(old(projects), id, data, now)
      ensures fault.None? ==> r == Success(Row(id, data, now, now))
    {
      if fault.Some? {
        return Failure("Failed to create project: " + fault.value);
      }
      projects := Insert(projects, id, data, now);
      return Success(RowAt(projects, id));
    }

    /** `updateProject({ id, ...patch })`: the `id` is taken out of the
        payload and used as the filter; the row's listed fields take the
        payload's values, the others keep theirs, and `updated_at` becomes
        `now`. With no row under that id, `.single()` fails. */
    method UpdateProject(id: string, patch: Patch, now: nat, fault: Option<string>) returns (r: Result<Row<ProjectData>>)
      requires PatchFits(patch)
      modifies this
      ensures fault.Some? ==> r == Failure("Failed to update project: " + fault.value) && projects == old(projects)
      ensures fault.None? && id !in old(projects) ==>
        r == Failure("Failed to update project: " + NoRowsMessage) && projects == old(projects)
      ensures fault.None? && id in old(projects) ==>
        projects == Replace(old(projects), id, Merge(old(projects)[id].data, patch), now) &&
        r == Success(RowAt(projects, id))
    {
      if fault.Some? {
        return Failure("Failed to update project: " + fault.value);
      }
      if id !in projects {
        return Failure("Failed to update project: " + NoRowsMessage);
      }
      projects := Replace(projects, id, Merge(projects[id].data, patch), now);
      return Success(RowAt(projects, id));
    }

    /** `deleteProject`: the row goes, so a later `getProjectByIdAdmin(id)`
        gives `null`; deleting an id that is not there succeeds and changes
        nothing. */
    method DeleteProject(id: string, fault: Option<string>) returns (r: Result<()>)
      modifies this
      ensures fault.Some? ==> r == Failure("Failed to delete project: " + fault.value) && projects == old(projects)
      ensures fault.None? ==> r == Success(()) && projects == Remove(old(projects), id)
      ensures fault.None? ==> id !in projects
    {
      if fault.Some? {
        return Failure("Failed to delete project: " + fault.value);
      }
      projects := Remove(projects, id);
      return Success(());
    }

    /** `toggleFeatured`: reads the project through `getProjectByIdAdmin`,
        fails with "Project not found" when there is none, and otherwise
        writes the complement of its featured flag. */
    method ToggleFeatured(id: string, now: nat, readFault: Option<string>, writeFault: Option<string>)
      returns (r: Result<Row<ProjectData>>)
      modifies this
      ensures readFault.Some? ==> r == Failure("Failed to fetch project: " + readFault.value) && projects == old(projects)
      ensures readFault.None? && id !in old(projects) ==> r == Failure("Project not found") && projects == old(projects)
      ensures readFault.None? && id in old(projects) && writeFault.Some? ==>
        r == Failure("Failed to toggle featured status: " + writeFault.value) && projects == old(projects)
      ensures readFault.None? && id in old(projects) && writeFault.None? ==>
        projects == Replace(old(projects), id, FlipFeatured(old(projects)[id].data), now) &&
        r == Success(RowAt(projects, id))
    {
      var found := GetProjectByIdAdmin(id, readFault);
      if found.Failure? {
        return Failure(found.error);
      }
      if found.value.None? {
        return Failure("Project not found");
      }
      var project := found.value.value;
      if writeFault.Some? {
        return Failure("Failed to toggle featured status: " + writeFault.value);
      }
      projects := Replace(projects, id, FlipFeatured(project.data), now);
      return Success(RowAt(projects, id));
    }

    /** `togglePublished`: as `toggleFeatured`, for the published flag. */
    method TogglePublished(id: string, now: nat, readFault: Option<string>, writeFault: Option<string>)
      returns (r: Result<Row<ProjectData>>)
      modifies this
      ensures readFault.Some? ==> r == Failure("Failed to fetch project: " + readFault.value) && projects == old(projects)
      ensures readFault.None? && id !in old(projects) ==> r == Failure("Project not found") && projects == old(projects)
      ensures readFault.None? && id in old(projects) && writeFault.Some? ==>
        r == Failure("Failed to toggle published status: " + writeFault.value) && projects == old(projects)
      ensures readFault.None? && id in old(projects) && writeFault.None? ==>
        projects == Replace(old(projects), id, FlipPublished(old(projects)[id].data), now) &&
        r == Success(RowAt(projects, id))
    {
      var found := GetProjectByIdAdmin(id, readFault);
      if found.Failure? {
        return Failure(found.error);
      }
      if found.value.None? {
        return Failure("Project not found");
      }
      var project := found.value.value;
      if writeFault.Some? {
        return Failure("Failed to toggle published status: " + writeFault.value);
      }
      projects := Replace(projects, id, FlipPublished(project.data), now);
      return Success(RowAt(projects, id));
    }
  }
}
