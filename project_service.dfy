/**
 * The project service: CRUD over the project collection kept in local storage
 * under "taskflow_projects". Newest-first, because `create` prepends.
 */
module ProjectServiceApi {
  import opened Common
  import opened Entities
  import Seqs

  const ProjectNotFound: string := "Project not found"

  /** The argument of `create`: its three fields are copied verbatim. */
  datatype ProjectInput = ProjectInput(title: string, description: string, color: string)

  /** The partial record given to `update`: each field is None when the key is absent. */
  datatype ProjectPatch = ProjectPatch(
    id: Option<int>,
    title: Option<string>,
    description: Option<string>,
    color: Option<string>,
    createdAt: Option<Instant>)

  /** `{}`: a patch with no keys. */
  const EmptyPatch: ProjectPatch := ProjectPatch(None, None, None, None, None)

  /** `projects.map(p => p.Id)`. */
  function Ids(projects: seq<Project>): (ids: seq<int>)
    ensures |ids| == |projects|
    ensures forall i :: 0 <= i < |projects| ==> ids[i] == projects[i].id
  {
    seq(|projects|, i requires 0 <= i < |projects| => projects[i].id)
  }

  /** `Math.max(...projects.map(p => p.Id), 0) + 1`: 1 on an empty collection, and above every stored id. */
  function NextId(projects: seq<Project>): (id: int)
    ensures 1 <= id
    ensures projects == [] ==> id == 1
    ensures forall p :: p in projects ==> p.id < id
    ensures id == 1 || exists p :: p in projects && p.id == id - 1
  {
    var ids := Ids(projects);
    var m := Seqs.MaxOrZero(ids);
    assert forall p :: p in projects ==> p.id in ids by {
      forall p | p in projects ensures p.id in ids {
        var i :| 0 <= i < |projects| && projects[i] == p;
        assert ids[i] == p.id;
      }
    }
    m + 1
  }

  /** The record `create` builds: the input's fields verbatim, the given id and the creation instant. */
  function NewProject(data: ProjectInput, id: int, now: Instant): (p: Project)
    ensures p.id == id && p.createdAt == now
    ensures p.title == data.title && p.description == data.description && p.color == data.color
  {
    Project(id, data.title, data.description, data.color, now)
  }

  /** `projects.findIndex(p => p.Id === id)`. */
  function IndexOf(projects: seq<Project>, id: int): (i: int)
    ensures -1 <= i < |projects|
    ensures 0 <= i ==> projects[i].id == id && forall j :: 0 <= j < i ==> projects[j].id != id
    ensures i == -1 <==> forall j :: 0 <= j < |projects| ==> projects[j].id != id
  {
    Seqs.FindIndex((p: Project) => p.id == id, projects)
  }

  /** `getById`: the first project carrying the id, or "Project not found". */
  function Lookup(projects: seq<Project>, id: int): (r: Result<Project>)
    ensures r.Err? <==> forall j :: 0 <= j < |projects| ==> projects[j].id != id
    ensures r.Err? ==> r.message == ProjectNotFound
    ensures r.Ok? ==> r.value.id == id
    ensures r.Ok? ==> exists i :: 0 <= i < |projects| && projects[i] == r.value && forall j :: 0 <= j < i ==> projects[j].id != id
  {
    var i := IndexOf(projects, id);
    if i == -1 then Err(ProjectNotFound) else Ok(projects[i])
  }

  /** `projects.filter(p => p.Id !== id)`. */
  function WithoutProject(projects: seq<Project>, id: int): (r: seq<Project>)
    ensures forall p :: p in r <==> p in projects && p.id != id
    ensures Seqs.IsSubsequence(r, projects)
  {
    Seqs.Filter((p: Project) => p.id != id, projects)
  }

  /** The record `update` stores: the patch spread over the stored project with `Id` forced back to `id`. */
  function MergeProject(current: Project, patch: ProjectPatch, id: int): (p: Project)
    ensures p.id == id
    ensures patch.title.Some? ==> p.title == patch.title.value
    ensures patch.title.None? ==> p.title == current.title
    ensures patch.description.Some? ==> p.description == patch.description.value
    ensures patch.description.None? ==> p.description == current.description
    ensures patch.color.Some? ==> p.color == patch.color.value
    ensures patch.color.None? ==> p.color == current.color
    ensures patch.createdAt.Some? ==> p.createdAt == patch.createdAt.value
    ensures patch.createdAt.None? ==> p.createdAt == current.createdAt
  {
    Project(
      id := id,
      title := patch.title.GetOr(current.title),
      description := patch.description.GetOr(current.description),
      color := patch.color.GetOr(current.color),
      createdAt := patch.createdAt.GetOr(current.createdAt))
  }

  /** The value `update` resolves with or the error it rejects with. */
  function UpdateOutcome(projects: seq<Project>, id: int, patch: ProjectPatch): (r: Result<Project>)
    ensures r.Err? <==> forall j :: 0 <= j < |projects| ==> projects[j].id != id
    ensures r.Err? ==> r.message == ProjectNotFound
    ensures r.Ok? ==> r.value == MergeProject(Lookup(projects, id).value, patch, id)
  {
    var i := IndexOf(projects, id);
    if i == -1 then Err(ProjectNotFound) else Ok(MergeProject(projects[i], patch, id))
  }

  /** `update(id, {})` resolves with the stored project and writes the collection back unchanged. */
  lemma {:induction false} UpdateWithEmptyPatch(projects: seq<Project>, id: int)
    ensures UpdateOutcome(projects, id, EmptyPatch) == Lookup(projects, id)
    ensures UpdateOutcome(projects, id, EmptyPatch).Ok? ==> projects[IndexOf(projects, id) := Lookup(projects, id).value] == projects
  {
    var i := IndexOf(projects, id);
    if i != -1 {
      assert MergeProject(projects[i], EmptyPatch, id) == projects[i];
    }
  }

  /** After a delete, looking the id up fails, and every other project is still there. */
  lemma DeleteThenLookupFails(projects: seq<Project>, id: int)
    ensures Lookup(WithoutProject(projects, id), id).Err?
    ensures forall p :: p in projects && p.id != id ==> p in WithoutProject(projects, id)
  {
    var r := WithoutProject(projects, id);
    forall j | 0 <= j < |r| ensures r[j].id != id {
      assert r[j] in r;
    }
  }

  class ProjectService {
    /** The "taskflow_projects" entry of local storage; None while the key is absent. */
    var storage: Option<seq<Project>>

    /** Opens the service over the current storage entry, seeding it on first use. */
    constructor(stored: Option<seq<Project>>, seed: seq<Project>)
      ensures storage == Some(stored.GetOr(seed))
    {
      storage := stored;
      new;
      InitializeData(seed);
    }

    /** Writes the seed only when nothing is stored, so saved state is never overwritten. */
    method InitializeData(seed: seq<Project>)
      modifies this
      ensures old(storage).None? ==> storage == Some(seed)
      ensures old(storage).Some? ==> storage == old(storage)
    {
      if storage.None? {
        storage := Some(seed);
      }
    }

    /** `getData`: the stored collection, or [] when nothing is stored. */
    function GetData(): (projects: seq<Project>)
      reads this
      ensures storage.None? ==> projects == []
      ensures storage.Some? ==> projects == storage.value
    {
      storage.GetOr([])
    }

    function GetAll(): seq<Project>
      reads this
    {
      GetData()
    }

    function GetById(id: int): Result<Project>
      reads this
    {
      Lookup(GetData(), id)
    }

    /** Allocates the next id, prepends the new project and saves. */
    method Create(data: ProjectInput, now: Instant) returns (p: Project)
      modifies this
      ensures p == NewProject(data, NextId(old(GetData())), now)
      ensures storage == Some([p] + old(GetData()))
    {
      var projects := GetData();
      p := NewProject(data, NextId(projects), now);
      storage := Some([p] + projects);
    }

    /** Replaces the first project with the id by the merged record, or rejects and writes nothing. */
    method Update(id: int, patch: ProjectPatch) returns (r: Result<Project>)
      modifies this
      ensures r == UpdateOutcome(old(GetData()), id, patch)
      ensures r.Err? ==> storage == old(storage)
      ensures r.Ok? ==> storage == Some(old(GetData())[IndexOf(old(GetData()), id) := r.value])
    {
      var projects := GetData();
      var i := IndexOf(projects, id);
      if i == -1 {
        return Err(ProjectNotFound);
      }
      var updated := MergeProject(projects[i], patch, id);
      storage := Some(projects[i := updated]);
      r := Ok(updated);
    }

    /** Removes every project with the id and resolves with the first of them, or rejects and writes nothing. */
    method Delete(id: int) returns (r: Result<Project>)
      modifies this
      ensures r == Lookup(old(GetData()), id)
      ensures r.Err? ==> storage == old(storage)
      ensures r.Ok? ==> storage == Some(WithoutProject(old(GetData()), id))
    {
      var projects := GetData();
      var i := IndexOf(projects, id);
      if i == -1 {
        return Err(ProjectNotFound);
      }
      storage := Some(WithoutProject(projects, id));
      r := Ok(projects[i]);
    }
  }
}
