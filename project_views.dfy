/** The project endpoints: the in-memory store behind the list/detail/proposal
    views (create, owner-only update and delete, the two proposal-creation
    paths) and the per-user listings `my_projects`, `my_proposals` and
    `my_active_projects`. Responses are HTTP status codes; a `PermissionError`
    or a database integrity error raised inside a view becomes a 500. */
module ProjectViews {
  import opened Common
  import opened Text
  import opened Accounts
  import opened Projects
  import opened Sorting

  /** A listing either fails with a status code or returns rows. */
  datatype Listing<T> = Rows(rows: seq<T>) | Denied(status: nat)

  predicate ProjectExists(projects: seq<Project>, id: nat) {
    exists i :: 0 <= i < |projects| && projects[i].id == id
  }

  /** Position of the project with the given id, if any. */
  function ProjectIndex(projects: seq<Project>, id: nat): (r: Option<nat>)
    ensures r.Some? ==> r.value < |projects| && projects[r.value].id == id
    ensures r.None? <==> !ProjectExists(projects, id)
  {
    if projects == [] then None
    else if projects[0].id == id then Some(0)
    else
      match ProjectIndex(projects[1..], id)
      case None =>
        assert forall i :: 1 <= i < |projects| ==> projects[i] == projects[1..][i - 1];
        None
      case Some(k) => Some(k + 1)
  }

  ghost predicate ProjectIdsUnique(projects: seq<Project>) {
    forall i, j :: 0 <= i < j < |projects| ==> projects[i].id != projects[j].id
  }

  /** What the model serializer checks of a project body, text fields taken
      stripped of surrounding white space: a non-blank title of at most 255
      characters, a non-blank description, one of the category choices, and a
      budget, when one is given, that fits its decimal column. */
  predicate ProjectInputValid(input: ProjectInput) {
    && PyStrip(input.title) != [] && |PyStrip(input.title)| <= 255
    && PyStrip(input.description) != []
    && input.category in CategoryValues
    && (input.budget.Amount? ==> FitsDecimal(input.budget.value))
  }

  /** What the proposal serializer checks: the named project exists, the message
      is non-blank, the timeline is non-blank and at most 255 characters (both
      after stripping), and the proposed budget fits its decimal column. */
  predicate ProposalInputValid(projects: seq<Project>, input: ProposalInput) {
    && ProjectExists(projects, input.project)
    && PyStrip(input.message) != []
    && PyStrip(input.timeline) != [] && |PyStrip(input.timeline)| <= 255
    && FitsDecimal(input.proposedBudget)
  }

  /** A title of white space only is blank, and so is refused. */
  lemma BlankTitleRefused(input: ProjectInput)
    requires forall i :: 0 <= i < |input.title| ==> IsPySpace(input.title[i])
    ensures !ProjectInputValid(input)
  {
    SkipStartAllSpace(input.title, IsPySpace, 0);
  }

  /** A budget with a third decimal place is refused, not rounded. */
  lemma ThirdDecimalRefused(input: ProjectInput)
    requires input.budget == Amount(12.345)
    ensures !ProjectInputValid(input)
  {
    assert 12.345 * 100.0 == 1234.5;
    assert (1234.5).Floor == 1234;
  }

  function CreatedAtKey(p: Project): Rank { Rank(p.createdAt as real, 0.0, 0.0) }
  function ProposalCreatedAtKey(p: Proposal): Rank { Rank(p.createdAt as real, 0.0, 0.0) }

  /** `my_projects`: 403 for anyone but a client, otherwise exactly the client's own projects, newest first. */
  function MyProjects(user: User, projects: seq<Project>): (r: Listing<Project>)
    ensures r.Denied? <==> user.role != Client
    ensures r.Denied? ==> r.status == 403
    ensures r.Rows? ==> SortedDesc(r.rows, CreatedAtKey)
    ensures r.Rows? ==> forall p :: p in r.rows <==> p in projects && p.client == user.id
  {
    if user.role != Client then Denied(403)
    else Rows(SelectSorted(projects, (p: Project) => p.client == user.id, CreatedAtKey))
  }

  /** `my_proposals`: 403 for anyone but a freelancer, otherwise exactly the freelancer's own proposals, newest first. */
  function MyProposals(user: User, proposals: seq<Proposal>): (r: Listing<Proposal>)
    ensures r.Denied? <==> user.role != Freelancer
    ensures r.Denied? ==> r.status == 403
    ensures r.Rows? ==> SortedDesc(r.rows, ProposalCreatedAtKey)
    ensures r.Rows? ==> forall p :: p in r.rows <==> p in proposals && p.freelancer == user.id
  {
    if user.role != Freelancer then Denied(403)
    else Rows(SelectSorted(proposals, (p: Proposal) => p.freelancer == user.id, ProposalCreatedAtKey))
  }

  /** The freelancer holds an accepted proposal on the project. */
  predicate HoldsAccepted(proposals: seq<Proposal>, freelancer: nat, project: nat) {
    exists i :: 0 <= i < |proposals| && proposals[i].freelancer == freelancer
      && proposals[i].status == Accepted && proposals[i].project == project
  }

  predicate ActiveFor(user: User, proposals: seq<Proposal>, p: Project) {
    match user.role
    case Client => p.client == user.id && (p.status == Open || p.status == InProgress)
    case Freelancer => HoldsAccepted(proposals, user.id, p.id) && p.status == InProgress
    case Admin => false
  }

  /** `my_active_projects`: a client's own open or in-progress projects; for a
      freelancer, the in-progress projects on which they hold an accepted
      proposal; 403 for any other role. */
  function MyActiveProjects(user: User, projects: seq<Project>, proposals: seq<Proposal>): (r: Listing<Project>)
    ensures r.Denied? <==> user.role == Admin
    ensures r.Denied? ==> r.status == 403
    ensures r.Rows? ==> SortedDesc(r.rows, CreatedAtKey)
    ensures r.Rows? && user.role == Client ==>
      forall p :: p in r.rows <==> p in projects && p.client == user.id && (p.status == Open || p.status == InProgress)
    ensures r.Rows? && user.role == Freelancer ==>
      forall p :: p in r.rows <==> p in projects && HoldsAccepted(proposals, user.id, p.id) && p.status == InProgress
  {
    if user.role == Admin then Denied(403)
    else Rows(SelectSorted(projects, (p: Project) => ActiveFor(user, proposals, p), CreatedAtKey))
  }

  /** A freelancer's active projects never include one that is open, completed or cancelled. */
  lemma FreelancerActiveAreInProgress(user: User, projects: seq<Project>, proposals: seq<Proposal>, p: Project)
    requires user.role == Freelancer
    requires MyActiveProjects(user, projects, proposals).Rows?
    requires p in MyActiveProjects(user, projects, proposals).rows
    ensures p.status == InProgress && exists i :: 0 <= i < |proposals| && proposals[i].project == p.id && proposals[i].freelancer == user.id
  {
    var i :| 0 <= i < |proposals| && proposals[i].freelancer == user.id
      && proposals[i].status == Accepted && proposals[i].project == p.id;
  }

  /** The project-scoped proposal list: only proposals on the project in the
      URL, in stored order. A project id of 0 is falsy, so it lists every proposal. */
  function ProjectProposals(proposals: seq<Proposal>, projectId: nat): (r: seq<Proposal>)
    ensures projectId == 0 ==> r == proposals
    ensures projectId != 0 ==> forall p :: p in r <==> p in proposals && p.project == projectId
    ensures projectId != 0 ==> |r| == ProposalsCount(projectId, proposals)
  {
    if projectId == 0 then proposals
    else
      forall x ensures x in Filter(proposals, OnProject(projectId)) <==> x in proposals && x.project == projectId {
        FilterMembership(proposals, OnProject(projectId), x);
      }
      Filter(proposals, OnProject(projectId))
  }

  /** Removing the element at `k` from a sequence. */
  function RemoveAt<T>(s: seq<T>, k: nat): (r: seq<T>)
    requires k < |s|
    ensures |r| == |s| - 1
    ensures forall i :: 0 <= i < k ==> r[i] == s[i]
    ensures forall i :: k <= i < |r| ==> r[i] == s[i + 1]
  {
    s[..k] + s[k + 1..]
  }

  /** Removing one project keeps the ids unique and below the bound. */
  lemma RemoveAtKeepsIds(projects: seq<Project>, k: nat, bound: nat)
    requires k < |projects| && ProjectIdsUnique(projects)
    requires forall i :: 0 <= i < |projects| ==> projects[i].id < bound
    ensures ProjectIdsUnique(RemoveAt(projects, k))
    ensures forall i :: 0 <= i < |RemoveAt(projects, k)| ==> RemoveAt(projects, k)[i].id < bound
  {
    var r := RemoveAt(projects, k);
    forall i, j | 0 <= i < j < |r| ensures r[i].id != r[j].id {
      var i' := if i < k then i else i + 1;
      var j' := if j < k then j else j + 1;
      assert r[i] == projects[i'] && r[j] == projects[j'];
    }
  }

  /** Any other project is still there after one is removed. */
  lemma ExistsAfterRemove(projects: seq<Project>, k: nat, id: nat)
    requires k < |projects| && ProjectExists(projects, id) && projects[k].id != id
    ensures ProjectExists(RemoveAt(projects, k), id)
  {
    var r := RemoveAt(projects, k);
    var j :| 0 <= j < |projects| && projects[j].id == id;
    if j < k {
      assert r[j] == projects[j];
    } else {
      assert r[j - 1] == projects[j];
    }
  }

  /** Keeping a subset of the proposals keeps the pairs unique. */
  lemma {:induction false} FilterKeepsPairsUnique(ps: seq<Proposal>, keep: Proposal -> bool)
    requires ProposalPairsUnique(ps)
    ensures ProposalPairsUnique(Filter(ps, keep))
  {
    if ps != [] {
      var tail := ps[1..];
      PairsUniqueTail(ps);
      FilterKeepsPairsUnique(tail, keep);
      if keep(ps[0]) {
        var f := Filter(tail, keep);
        forall j | 0 <= j < |f| ensures (ps[0].project, ps[0].freelancer) != (f[j].project, f[j].freelancer) {
          assert f[j] in multiset(f);
          assert f[j] in multiset(tail);
          var k :| 0 <= k < |tail| && tail[k] == f[j];
          assert tail[k] == ps[k + 1];
        }
        PairsUniqueCons(ps[0], f);
        assert Filter(ps, keep) == [ps[0]] + f;
      }
    }
  }

  lemma PairsUniqueTail(ps: seq<Proposal>)
    requires ps != [] && ProposalPairsUnique(ps)
    ensures ProposalPairsUnique(ps[1..])
  {
    var tail := ps[1..];
    forall i, j | 0 <= i < j < |tail|
      ensures (tail[i].project, tail[i].freelancer) != (tail[j].project, tail[j].freelancer)
    {
      assert tail[i] == ps[i + 1] && tail[j] == ps[j + 1];
    }
  }

  lemma PairsUniqueCons(x: Proposal, f: seq<Proposal>)
    requires ProposalPairsUnique(f)
    requires forall j :: 0 <= j < |f| ==> (x.project, x.freelancer) != (f[j].project, f[j].freelancer)
    ensures ProposalPairsUnique([x] + f)
  {
    var r := [x] + f;
    forall i, j | 0 <= i < j < |r| ensures (r[i].project, r[i].freelancer) != (r[j].project, r[j].freelancer) {
      assert r[j] == f[j - 1];
      if i > 0 {
        assert r[i] == f[i - 1];
      }
    }
  }

  /** The store's invariant: ids are unique and below the next id, at most one
      proposal per (project, freelancer), and every proposal points at a stored
      project. */
  ghost predicate StoreValid(projects: seq<Project>, proposals: seq<Proposal>, nextProjectId: nat, nextProposalId: nat) {
    && ProjectIdsUnique(projects)
    && (forall i :: 0 <= i < |projects| ==> projects[i].id < nextProjectId)
    && (forall i :: 0 <= i < |proposals| ==> proposals[i].id < nextProposalId)
    && ProposalPairsUnique(proposals)
    && (forall i :: 0 <= i < |proposals| ==> ProjectExists(projects, proposals[i].project))
  }

  /** Deleting a project together with its proposals keeps the invariant. */
  lemma DeleteKeepsValid(projects: seq<Project>, proposals: seq<Proposal>, nextProjectId: nat, nextProposalId: nat, k: nat)
    requires StoreValid(projects, proposals, nextProjectId, nextProposalId) && k < |projects|
    ensures StoreValid(RemoveAt(projects, k), Filter(proposals, (p: Proposal) => p.project != projects[k].id),
                       nextProjectId, nextProposalId)
  {
    var id := projects[k].id;
    var keep := (p: Proposal) => p.project != id;
    var kept := Filter(proposals, keep);
    FilterKeepsPairsUnique(proposals, keep);
    RemoveAtKeepsIds(projects, k, nextProjectId);
    forall i | 0 <= i < |kept| ensures ProjectExists(RemoveAt(projects, k), kept[i].project) && kept[i].id < nextProposalId {
      assert kept[i] in multiset(kept);
      assert kept[i] in multiset(proposals);
      var m :| 0 <= m < |proposals| && proposals[m] == kept[i];
      ExistsAfterRemove(projects, k, kept[i].project);
    }
  }

  /** Storing a project with the next id keeps the invariant. */
  lemma AppendProjectKeepsValid(projects: seq<Project>, proposals: seq<Proposal>, nextProjectId: nat, nextProposalId: nat, p: Project)
    requires StoreValid(projects, proposals, nextProjectId, nextProposalId) && p.id == nextProjectId
    ensures StoreValid(projects + [p], proposals, nextProjectId + 1, nextProposalId)
  {
    var after := projects + [p];
    forall i | 0 <= i < |proposals| ensures ProjectExists(after, proposals[i].project) {
      var k :| 0 <= k < |projects| && projects[k].id == proposals[i].project;
      assert after[k] == projects[k];
    }
  }

  /** Replacing a project by one with the same id keeps the invariant. */
  lemma ReplaceProjectKeepsValid(projects: seq<Project>, proposals: seq<Proposal>, nextProjectId: nat, nextProposalId: nat, k: nat, q: Project)
    requires StoreValid(projects, proposals, nextProjectId, nextProposalId) && k < |projects| && q.id == projects[k].id
    ensures StoreValid(projects[k := q], proposals, nextProjectId, nextProposalId)
  {
    var after := projects[k := q];
    forall i | 0 <= i < |proposals| ensures ProjectExists(after, proposals[i].project) {
      var j :| 0 <= j < |projects| && projects[j].id == proposals[i].project;
      assert after[j].id == projects[j].id;
    }
  }

  /** The back end's project and proposal tables. */
  class ProjectStore {
    var projects: seq<Project>
    var proposals: seq<Proposal>
    var nextProjectId: nat
    var nextProposalId: nat

    ghost predicate Valid()
      reads this
    {
      StoreValid(projects, proposals, nextProjectId, nextProposalId)
    }

    constructor ()
      ensures Valid()
      ensures projects == [] && proposals == [] && nextProjectId == 1 && nextProposalId == 1
    {
      projects := [];
      proposals := [];
      nextProjectId := 1;
      nextProposalId := 1;
    }

    /** POST /projects/: any authenticated user may create; the client is the requester. */
    method CreateProject(requester: User, input: ProjectInput, now: int) returns (status: nat)
      requires Valid()
      modifies this
      ensures Valid()
      ensures status == (if ProjectInputValid(input) then 201 else 400)
      ensures status == 201 ==>
        projects == old(projects) + [NewProject(input, requester, old(nextProjectId), now)]
        && nextProjectId == old(nextProjectId) + 1
      ensures status == 400 ==> projects == old(projects) && nextProjectId == old(nextProjectId)
      ensures proposals == old(proposals) && nextProposalId == old(nextProposalId)
    {
      if !ProjectInputValid(input) {
        return 400;
      }
      var p := NewProject(input, requester, nextProjectId, now);
      AppendProjectKeepsValid(projects, proposals, nextProjectId, nextProposalId, p);
      projects, nextProjectId := projects + [p], nextProjectId + 1;
      status := 201;
    }

    /** PUT /projects/<id>/: 404 for an unknown project, 400 for an invalid body,
        500 when the requester is not the project's client; otherwise the writable
        fields are replaced. */
    method UpdateProject(requester: User, id: nat, input: ProjectInput) returns (status: nat)
      requires Valid()
      modifies this
      ensures Valid()
      ensures var k := ProjectIndex(old(projects), id);
        status == (if k.None? then 404
                   else if !ProjectInputValid(input) then 400
                   else if old(projects)[k.value].client != requester.id then 500
                   else 200)
      ensures status == 200 ==> var k := ProjectIndex(old(projects), id).value;
        projects == old(projects)[k := Projects.UpdateProject(old(projects)[k], input)]
      ensures status != 200 ==> projects == old(projects)
      ensures proposals == old(proposals) && nextProjectId == old(nextProjectId) && nextProposalId == old(nextProposalId)
    {
      var k := ProjectIndex(projects, id);
      if k.None? {
        return 404;
      }
      if !ProjectInputValid(input) {
        return 400;
      }
      if projects[k.value].client != requester.id {
        return 500;
      }
      var q := Projects.UpdateProject(projects[k.value], input);
      ReplaceProjectKeepsValid(projects, proposals, nextProjectId, nextProposalId, k.value, q);
      projects := projects[k.value := q];
      status := 200;
    }

    /** DELETE /projects/<id>/: 404 for an unknown project, 500 unless the requester
        is its client; otherwise the project and, by cascade, its proposals go. */
    method DeleteProject(requester: User, id: nat) returns (status: nat)
      requires Valid()
      modifies this
      ensures Valid()
      ensures var k := ProjectIndex(old(projects), id);
        status == (if k.None? then 404 else if old(projects)[k.value].client != requester.id then 500 else 204)
      ensures status == 204 ==>
        projects == RemoveAt(old(projects), ProjectIndex(old(projects), id).value)
        && proposals == Filter(old(proposals), (p: Proposal) => p.project != id)
      ensures status != 204 ==> projects == old(projects) && proposals == old(proposals)
      ensures nextProjectId == old(nextProjectId) && nextProposalId == old(nextProposalId)
    {
      var k := ProjectIndex(projects, id);
      if k.None? {
        return 404;
      }
      if projects[k.value].client != requester.id {
        return 500;
      }
      DeleteKeepsValid(projects, proposals, nextProjectId, nextProposalId, k.value);
      var keep := (p: Proposal) => p.project != id;
      projects := RemoveAt(projects, k.value);
      proposals := Filter(proposals, keep);
      status := 204;
    }

    /** POST /proposals/: 400 for an invalid body; 500 when the requester is not a
        freelancer or already has a proposal on the project; otherwise a proposal
        by the requester is stored. */
    method CreateProposal(requester: User, input: ProposalInput, now: int) returns (status: nat)
      requires Valid()
      modifies this
      ensures Valid()
      ensures status == (if !ProposalInputValid(old(projects), input) then 400
                         else if requester.role != Freelancer then 500
                         else if HasProposal(old(proposals), input.project, requester.id) then 500
                         else 201)
      ensures status == 201 ==>
        proposals == old(proposals) + [NewProposal(input, requester, old(nextProposalId), now)]
        && nextProposalId == old(nextProposalId) + 1
      ensures status != 201 ==> proposals == old(proposals) && nextProposalId == old(nextProposalId)
      ensures projects == old(projects) && nextProjectId == old(nextProjectId)
    {
      if !ProposalInputValid(projects, input) {
        return 400;
      }
      if requester.role != Freelancer {
        return 500;
      }
      if HasProposal(proposals, input.project, requester.id) {
        return 500;
      }
      AppendProposal(NewProposal(input, requester, nextProposalId, now));
      status := 201;
    }

    /** POST /projects/<projectId>/proposals/: no role check; the body is
        validated, then a (truthy) project in the URL replaces the one in the
        body; a URL project of 0 is falsy and leaves the body's. An unknown URL
        project or a second proposal by the requester is a 500. */
    method CreateProposalForProject(requester: User, projectId: nat, input: ProposalInput, now: int) returns (status: nat)
      requires Valid()
      modifies this
      ensures Valid()
      ensures var target := if projectId != 0 then projectId else input.project;
        status == (if !ProposalInputValid(old(projects), input) then 400
                   else if !ProjectExists(old(projects), target) then 500
                   else if HasProposal(old(proposals), target, requester.id) then 500
                   else 201)
      ensures status == 201 ==> var target := if projectId != 0 then projectId else input.project;
        proposals == old(proposals) + [NewProposal(input.(project := target), requester, old(nextProposalId), now)]
        && nextProposalId == old(nextProposalId) + 1
      ensures status != 201 ==> proposals == old(proposals) && nextProposalId == old(nextProposalId)
      ensures projects == old(projects) && nextProjectId == old(nextProjectId)
    {
      if !ProposalInputValid(projects, input) {
        return 400;
      }
      var target := if projectId != 0 then projectId else input.project;
      if !ProjectExists(projects, target) {
        return 500;
      }
      if HasProposal(proposals, target, requester.id) {
        return 500;
      }
      AppendProposal(NewProposal(input.(project := target), requester, nextProposalId, now));
      status := 201;
    }

    /** Stores a proposal whose pair is new and whose project exists. */
    method AppendProposal(p: Proposal)
      requires Valid()
      requires p.id == nextProposalId
      requires ProjectExists(projects, p.project) && !HasProposal(proposals, p.project, p.freelancer)
      modifies this
      ensures Valid()
      ensures proposals == old(proposals) + [p] && nextProposalId == old(nextProposalId) + 1
      ensures projects == old(projects) && nextProjectId == old(nextProjectId)
    {
      ghost var before := proposals;
      proposals := proposals + [p];
      nextProposalId := nextProposalId + 1;
      forall i, j | 0 <= i < j < |proposals|
        ensures (proposals[i].project, proposals[i].freelancer) != (proposals[j].project, proposals[j].freelancer)
      {
        if j == |before| {
          assert proposals[i] == before[i];
        }
      }
    }
  }
}
