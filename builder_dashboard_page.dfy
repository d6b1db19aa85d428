/**
 * The builder dashboard: who may see it, deleting a project from the list it
 * shows, and the three figures it shows above the list.
 */
module BuilderDashboardPage {
  import opened Js
  import opened Arrays
  import opened PropertyData

  function IdIs(projectId: string): BuilderProject -> bool {
    (q: BuilderProject) => q.id == projectId
  }

  function IdIsNot(projectId: string): BuilderProject -> bool {
    (q: BuilderProject) => q.id != projectId
  }

  /** `projects.filter(project => project.id !== projectId)`. */
  function RemoveProject(projects: seq<BuilderProject>, projectId: string): seq<BuilderProject> {
    Filter(projects, IdIsNot(projectId))
  }

  /** A delete removes every project with that id and keeps the others, in order. */
  lemma RemoveProjectSpec(projects: seq<BuilderProject>, projectId: string)
    ensures forall q :: q in RemoveProject(projects, projectId) <==> q in projects && q.id != projectId
    ensures IsSubsequence(RemoveProject(projects, projectId), projects)
  {
    FilterMembership(projects, IdIsNot(projectId));
    FilterSubsequence(projects, IdIsNot(projectId));
  }

  /** Deleting an id no project has changes nothing. */
  lemma RemoveAbsentId(projects: seq<BuilderProject>, projectId: string)
    requires forall q :: q in projects ==> q.id != projectId
    ensures RemoveProject(projects, projectId) == projects
  {
    FilterKeepsAll(projects, IdIsNot(projectId));
  }

  /** Deleting the same id twice is deleting it once. */
  lemma RemoveTwice(projects: seq<BuilderProject>, projectId: string)
    ensures RemoveProject(RemoveProject(projects, projectId), projectId) == RemoveProject(projects, projectId)
  {
    FilterMembership(projects, IdIsNot(projectId));
    RemoveAbsentId(RemoveProject(projects, projectId), projectId);
  }

  /** `projects.reduce((total, project) => total + project.unitsSold, 0)`. */
  function UnitsSold(projects: seq<BuilderProject>): int {
    if projects == [] then 0 else projects[0].unitsSold + UnitsSold(projects[1..])
  }

  function IsReady(): BuilderProject -> bool {
    (q: BuilderProject) => q.status == ReadyToMove
  }

  /** `projects.filter(project => project.status === "Ready to Move").length`. */
  function ReadyToMoveCount(projects: seq<BuilderProject>): (count: nat)
    ensures count <= |projects|
  {
    |Filter(projects, IsReady())|
  }

  /** The units sold split over the projects with an id and those without it. */
  lemma {:induction false} UnitsSoldSplit(projects: seq<BuilderProject>, projectId: string)
    ensures UnitsSold(projects) == UnitsSold(Filter(projects, IdIs(projectId))) + UnitsSold(Filter(projects, IdIsNot(projectId)))
  {
    if projects != [] {
      UnitsSoldSplit(projects[1..], projectId);
      FilterStep(projects, IdIs(projectId));
      FilterStep(projects, IdIsNot(projectId));
      var head := [projects[0]];
      assert UnitsSold(head) == projects[0].unitsSold by { assert head[1..] == []; }
      if projects[0].id == projectId {
        assert IdIs(projectId)(projects[0]) && !IdIsNot(projectId)(projects[0]);
        assert Filter(projects, IdIsNot(projectId)) == Filter(projects[1..], IdIsNot(projectId));
        assert Filter(projects, IdIs(projectId)) == head + Filter(projects[1..], IdIs(projectId));
        UnitsSoldAppend(head, Filter(projects[1..], IdIs(projectId)));
      } else {
        assert !IdIs(projectId)(projects[0]) && IdIsNot(projectId)(projects[0]);
        assert Filter(projects, IdIs(projectId)) == Filter(projects[1..], IdIs(projectId));
        assert Filter(projects, IdIsNot(projectId)) == head + Filter(projects[1..], IdIsNot(projectId));
        UnitsSoldAppend(head, Filter(projects[1..], IdIsNot(projectId)));
      }
    }
  }

  lemma {:induction false} UnitsSoldAppend(a: seq<BuilderProject>, b: seq<BuilderProject>)
    ensures UnitsSold(a + b) == UnitsSold(a) + UnitsSold(b)
  {
    if a != [] {
      UnitsSoldAppend(a[1..], b);
      assert (a + b)[1..] == a[1..] + b;
    } else {
      assert a + b == b;
    }
  }

  /** A delete lowers the units sold by the units of the projects it removed. */
  lemma UnitsSoldAfterDelete(projects: seq<BuilderProject>, projectId: string)
    ensures UnitsSold(RemoveProject(projects, projectId))
            == UnitsSold(projects) - UnitsSold(Filter(projects, IdIs(projectId)))
  {
    UnitsSoldSplit(projects, projectId);
  }

  /** A delete never raises the ready-to-move count. */
  lemma ReadyCountAfterDelete(projects: seq<BuilderProject>, projectId: string)
    ensures ReadyToMoveCount(RemoveProject(projects, projectId)) <= ReadyToMoveCount(projects)
  {
    var readyBoth := (q: BuilderProject) => q.id != projectId && q.status == ReadyToMove;
    FilterFilter(projects, IdIsNot(projectId), IsReady(), readyBoth);
    FilterFilter(projects, IsReady(), IdIsNot(projectId), readyBoth);
  }

  /** What the access guard did besides loading: where it sent the user and what it said. */
  datatype GuardOutcome = GuardOutcome(navigateTo: Option<string>, toast: Option<string>)

  class BuilderDashboard {
    var projects: seq<BuilderProject>
    var loading: bool

    constructor ()
      ensures projects == [] && loading
    {
      projects := [];
      loading := true;
    }

    /**
     * The effect guarding the page: no session goes to the builder login, a
     * session that is not a builder's goes home with "Access Denied", and only
     * a builder gets the projects, which are all the seeded projects.
     */
    method AccessGuard(isAuthenticated: bool, isBuilder: bool) returns (outcome: GuardOutcome)
      modifies this
      ensures !isAuthenticated ==> outcome == GuardOutcome(Some("/builder/login"), None)
      ensures isAuthenticated && !isBuilder ==> outcome == GuardOutcome(Some("/"), Some("Access Denied"))
      ensures !(isAuthenticated && isBuilder) ==> projects == old(projects) && loading == old(loading)
      ensures isAuthenticated && isBuilder ==>
                outcome == GuardOutcome(None, None) && projects == DummyBuilderProjects && !loading
    {
      if !isAuthenticated {
        outcome := GuardOutcome(Some("/builder/login"), None);
        return;
      }
      if !isBuilder {
        outcome := GuardOutcome(Some("/"), Some("Access Denied"));
        return;
      }
      loading := true;
      projects := DummyBuilderProjects;
      loading := false;
      outcome := GuardOutcome(None, None);
    }

    /** `handleDeleteProject`: drop the project and confirm. */
    method HandleDeleteProject(projectId: string) returns (toast: string)
      modifies this
      ensures projects == RemoveProject(old(projects), projectId)
      ensures toast == "Project deleted"
      ensures loading == old(loading)
    {
      projects := RemoveProject(projects, projectId);
      toast := "Project deleted";
    }

    /** The three figures: total projects, units sold and ready-to-move projects. */
    function Figures(): (figures: (nat, int, nat))
      reads this
      ensures figures.2 <= figures.0
    {
      (|projects|, UnitsSold(projects), ReadyToMoveCount(projects))
    }
  }
}
