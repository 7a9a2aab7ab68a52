/**
 * The signed-in user's project list (src/pages/Dashboard.tsx): delete by id,
 * merge-update of the project being edited, prepend of an inserted row, and
 * the project form's open / editing state. The store calls are represented
 * only by whether they failed.
 */
module Dashboard {

  import opened Common
  import Seqs
  import ProjectForm

  /** A stored project row: its id, creation time and the editable fields. */
  datatype Project = Project(id: int, createdAt: int, data: ProjectForm.Payload)

  function IdIsNot(id: int): Project -> bool {
    (p: Project) => p.id != id
  }

  /** `projects.filter(p => p.id !== id)`. */
  function DeleteById(projects: seq<Project>, id: int): (r: seq<Project>)
    ensures forall p :: p in r ==> p.id != id
    ensures forall p :: p in r <==> p in projects && p.id != id
    ensures forall p: Project :: p.id != id ==> multiset(r)[p] == multiset(projects)[p]
    ensures Seqs.SubseqOf(r, projects)
  {
    Seqs.Filter(projects, IdIsNot(id))
  }

  /** Deleting an id no project has changes nothing. */
  lemma DeleteAbsent(projects: seq<Project>, id: int)
    requires forall p :: p in projects ==> p.id != id
    ensures DeleteById(projects, id) == projects
  {
    Seqs.FilterKeepsAll(projects, IdIsNot(id));
  }

  /** `{ ...p, ...projectData }`: the saved fields replace the editable ones; id and creation time stay. */
  function Merge(p: Project, data: ProjectForm.Payload): (r: Project)
    ensures r.id == p.id && r.createdAt == p.createdAt && r.data == data
  {
    p.(data := data)
  }

  /** `projects.map(p => p.id === id ? { ...p, ...data } : p)`. */
  function UpdateById(projects: seq<Project>, id: int, data: ProjectForm.Payload): (r: seq<Project>)
    ensures |r| == |projects|
    ensures forall i :: 0 <= i < |r| ==> r[i].id == projects[i].id && r[i].createdAt == projects[i].createdAt
    ensures forall i :: 0 <= i < |r| ==> r[i] == if projects[i].id == id then Merge(projects[i], data) else projects[i]
  {
    seq(|projects|, i requires 0 <= i < |projects| =>
      if projects[i].id == id then Merge(projects[i], data) else projects[i])
  }

  /** An update touches no project with another id, and leaves the list as it is when no project has the id. */
  lemma UpdateOnlyTarget(projects: seq<Project>, id: int, data: ProjectForm.Payload)
    ensures forall p :: p in projects && p.id != id ==> p in UpdateById(projects, id, data)
    ensures (forall p :: p in projects ==> p.id != id) ==> UpdateById(projects, id, data) == projects
  {
    var r := UpdateById(projects, id, data);
    forall p | p in projects && p.id != id ensures p in r {
      var i :| 0 <= i < |projects| && projects[i] == p;
      assert r[i] == p;
    }
  }

  /** `[row, ...projects]`. */
  function Prepend(row: Project, projects: seq<Project>): (r: seq<Project>)
    ensures |r| == |projects| + 1 && r[0] == row && r[1..] == projects
  {
    [row] + projects
  }

  /** The ids of the projects, in order. */
  function Ids(projects: seq<Project>): (r: seq<int>)
    ensures |r| == |projects|
    ensures forall i :: 0 <= i < |r| ==> r[i] == projects[i].id
  {
    seq(|projects|, i requires 0 <= i < |projects| => projects[i].id)
  }

  /** An update never changes which ids the list holds, nor their order. */
  lemma UpdateKeepsIds(projects: seq<Project>, id: int, data: ProjectForm.Payload)
    ensures Ids(UpdateById(projects, id, data)) == Ids(projects)
  {
  }

  class DashboardPage {
    var projects: seq<Project>
    var formOpen: bool
    var editing: Option<Project>

    constructor ()
      ensures projects == [] && !formOpen && editing == None
    {
      projects := [];
      formOpen := false;
      editing := None;
    }

    /**
     * `loadProjects`: without a user nothing happens; a failed query leaves
     * the list as it was; otherwise the list becomes the rows returned, or
     * empty when none came back (`data || []`). The newest-first order is the
     * query's and is not modelled.
     */
    method LoadProjects(user: Option<User>, queryFailed: bool, rows: Option<seq<Project>>)
      modifies this
      ensures user.None? || queryFailed ==> projects == old(projects)
      ensures user.Some? && !queryFailed ==> projects == rows.GetOr([])
      ensures formOpen == old(formOpen) && editing == old(editing)
    {
      if user.None? || queryFailed {
        return;
      }
      projects := rows.GetOr([]);
    }

    /** The "New project" buttons: open the form with nothing being edited. */
    method OpenNew()
      modifies this
      ensures formOpen && editing == None && projects == old(projects)
    {
      editing := None;
      formOpen := true;
    }

    /** A project's edit button. */
    method OpenEdit(p: Project)
      modifies this
      ensures formOpen && editing == Some(p) && projects == old(projects)
    {
      editing := Some(p);
      formOpen := true;
    }

    /** The form's close button. */
    method CloseForm()
      modifies this
      ensures !formOpen && editing == None && projects == old(projects)
    {
      formOpen := false;
      editing := None;
    }

    /**
     * `handleDeleteProject`: nothing when the confirm is declined; the list
     * loses the project only when the store reports no error. Returns whether
     * the failure alert is shown.
     */
    method HandleDeleteProject(id: int, confirmed: bool, storeFailed: bool) returns (alerted: bool)
      modifies this
      ensures !confirmed ==> projects == old(projects) && !alerted
      ensures confirmed && storeFailed ==> projects == old(projects) && alerted
      ensures confirmed && !storeFailed ==> projects == DeleteById(old(projects), id) && !alerted
      ensures formOpen == old(formOpen) && editing == old(editing)
    {
      alerted := false;
      if !confirmed {
        return;
      }
      if storeFailed {
        alerted := true;
      } else {
        projects := DeleteById(projects, id);
      }
    }

    /**
     * `handleProjectSave`: with a project being edited, merge the data into
     * it; otherwise prepend the row the insert returned. The list changes,
     * and the form closes, only when the store reports no error.
     */
    method HandleProjectSave(user: Option<User>, data: ProjectForm.Payload, storeFailed: bool, inserted: Option<Project>)
      returns (alerted: bool)
      modifies this
      ensures user.None? || storeFailed ==>
                projects == old(projects) && formOpen == old(formOpen) && editing == old(editing)
      ensures alerted <==> user.Some? && storeFailed
      ensures user.Some? && !storeFailed ==> !formOpen && editing == None
      ensures user.Some? && !storeFailed && old(editing).Some? ==>
                projects == UpdateById(old(projects), old(editing).value.id, data)
      ensures user.Some? && !storeFailed && old(editing).None? && inserted.Some? ==>
                projects == Prepend(inserted.value, old(projects))
      ensures user.Some? && !storeFailed && old(editing).None? && inserted.None? ==>
                projects == old(projects)
    {
      alerted := false;
      if user.None? {
        return;
      }
      if storeFailed {
        alerted := true;
        return;
      }
      if editing.Some? {
        projects := UpdateById(projects, editing.value.id, data);
      } else if inserted.Some? {
        projects := Prepend(inserted.value, projects);
      }
      formOpen := false;
      editing := None;
    }
  }
}
