/** Projects and proposals: the two enums and their defaults, the records, the
    serializers' `create` overrides that stamp the requesting user, and the
    detail serializer's `proposals_count`. */
module Projects {
  import opened Common
  import opened Text
  import opened Accounts

  datatype ProjectStatus = Open | InProgress | Completed | Cancelled

  function ProjectStatusName(s: ProjectStatus): string {
    match s
    case Open => "open"
    case InProgress => "in_progress"
    case Completed => "completed"
    case Cancelled => "cancelled"
  }

  /** Reads a stored project status; values outside the four choices are rejected. */
  function ParseProjectStatus(s: string): (r: Option<ProjectStatus>)
    ensures r.Some? ==> ProjectStatusName(r.value) == s
  {
    if s == "open" then Some(Open)
    else if s == "in_progress" then Some(InProgress)
    else if s == "completed" then Some(Completed)
    else if s == "cancelled" then Some(Cancelled)
    else None
  }

  lemma ProjectStatusRoundTrip(s: ProjectStatus)
    ensures ParseProjectStatus(ProjectStatusName(s)) == Some(s)
  {
  }

  datatype ProposalStatus = Pending | Accepted | Rejected

  function ProposalStatusName(s: ProposalStatus): string {
    match s
    case Pending => "pending"
    case Accepted => "accepted"
    case Rejected => "rejected"
  }

  function ParseProposalStatus(s: string): (r: Option<ProposalStatus>)
    ensures r.Some? ==> ProposalStatusName(r.value) == s
  {
    if s == "pending" then Some(Pending)
    else if s == "accepted" then Some(Accepted)
    else if s == "rejected" then Some(Rejected)
    else None
  }

  lemma ProposalStatusRoundTrip(s: ProposalStatus)
    ensures ParseProposalStatus(ProposalStatusName(s)) == Some(s)
  {
  }

  /** The stored values of the project categories, in declaration order. */
  const CategoryValues: seq<string> := [
    "web-development", "mobile-development", "graphic-design", "writing-translation",
    "marketing-sales", "video-animation", "data-science-analytics", "other"]

  /** A project; `budget` is optional, `createdAt` is a timestamp in milliseconds. */
  datatype Project = Project(
    id: nat, title: string, description: string, budget: Option<real>, category: string,
    skills: seq<string>, client: nat, status: ProjectStatus, createdAt: int)

  /** A proposal; `proposedBudget` is required. */
  datatype Proposal = Proposal(
    id: nat, project: nat, freelancer: nat, message: string, proposedBudget: real,
    timeline: string, status: ProposalStatus, createdAt: int)

  /** What a request says about the optional budget: nothing, an explicit
      `null`, or an amount. */
  datatype BudgetInput = Omitted | Null | Amount(value: real)

  /** What `DecimalField(max_digits=10, decimal_places=2)` accepts of a number:
      at most two decimal places and at most eight digits before the point. */
  predicate FitsDecimal(x: real) {
    && (x * 100.0).Floor as real == x * 100.0
    && -100000000.0 < x < 100000000.0
  }

  /** The writable fields a request may carry when creating or updating a project.
      A `client` in the request is accepted by the parser but never used. */
  datatype ProjectInput = ProjectInput(
    title: string, description: string, budget: BudgetInput, category: string,
    skills: Option<seq<string>>, status: Option<ProjectStatus>, client: Option<nat>)

  /** The writable fields of a proposal request; `freelancer` is read-only and ignored. */
  datatype ProposalInput = ProposalInput(
    project: nat, message: string, proposedBudget: real, timeline: string,
    status: Option<ProposalStatus>, freelancer: Option<nat>)

  /** `ProjectSerializer.create`: the client is always the requesting user; the id
      and creation time come from the store; title and description are stored
      stripped of surrounding white space; status and skills take their defaults
      when absent, and the budget is null unless an amount is given. */
  function NewProject(input: ProjectInput, requester: User, id: nat, now: int): (p: Project)
    ensures p.client == requester.id && p.id == id && p.createdAt == now
    ensures p.status == (if input.status.Some? then input.status.value else Open)
    ensures p.skills == (if input.skills.Some? then input.skills.value else [])
    ensures p.title == PyStrip(input.title)
    ensures p.description == PyStrip(input.description)
    ensures p.budget == (if input.budget.Amount? then Some(input.budget.value) else None)
    ensures p.category == input.category
  {
    Project(id, PyStrip(input.title), PyStrip(input.description),
            match input.budget case Amount(x) => Some(x) case _ => None,
            input.category,
            match input.skills case Some(s) => s case None => [],
            requester.id,
            match input.status case Some(s) => s case None => Open,
            now)
  }

  /** A new project created without status gets status `open`, whatever client it names. */
  lemma NewProjectDefaults(input: ProjectInput, requester: User, id: nat, now: int)
    requires input.status.None? && input.client.Some? && input.client.value != requester.id
    ensures NewProject(input, requester, id, now).status == Open
    ensures NewProject(input, requester, id, now).client != input.client.value
  {
  }

  /** `ProjectProposalSerializer.create`: the freelancer is always the requesting user. */
  function NewProposal(input: ProposalInput, requester: User, id: nat, now: int): (p: Proposal)
    ensures p.freelancer == requester.id && p.id == id && p.createdAt == now
    ensures p.project == input.project && p.proposedBudget == input.proposedBudget
    ensures p.status == (if input.status.Some? then input.status.value else Pending)
    ensures p.message == PyStrip(input.message)
    ensures p.timeline == PyStrip(input.timeline)
  {
    Proposal(id, input.project, requester.id, PyStrip(input.message), input.proposedBudget, PyStrip(input.timeline),
             match input.status case Some(s) => s case None => Pending,
             now)
  }

  /** An update writes only the writable fields: id, client and creation time
      stay; title and description are stored stripped; a field the request
      leaves out keeps its value, and only an explicit `null` clears the budget. */
  function UpdateProject(p: Project, input: ProjectInput): (q: Project)
    ensures q.id == p.id && q.client == p.client && q.createdAt == p.createdAt
    ensures q.title == PyStrip(input.title)
    ensures q.description == PyStrip(input.description)
    ensures q.category == input.category
    ensures input.budget.Omitted? ==> q.budget == p.budget
    ensures input.budget.Null? ==> q.budget.None?
    ensures input.budget.Amount? ==> q.budget == Some(input.budget.value)
    ensures q.status == (if input.status.Some? then input.status.value else p.status)
    ensures q.skills == (if input.skills.Some? then input.skills.value else p.skills)
  {
    p.(title := PyStrip(input.title), description := PyStrip(input.description),
       budget := match input.budget case Omitted => p.budget case Null => None case Amount(x) => Some(x),
       category := input.category,
       skills := match input.skills case Some(s) => s case None => p.skills,
       status := match input.status case Some(s) => s case None => p.status)
  }

  /** At most one proposal per (project, freelancer) pair. */
  ghost predicate ProposalPairsUnique(ps: seq<Proposal>) {
    forall i, j :: 0 <= i < j < |ps| ==> (ps[i].project, ps[i].freelancer) != (ps[j].project, ps[j].freelancer)
  }

  predicate HasProposal(ps: seq<Proposal>, project: nat, freelancer: nat) {
    exists i :: 0 <= i < |ps| && ps[i].project == project && ps[i].freelancer == freelancer
  }

  /** The proposal is on the project. */
  function OnProject(projectId: nat): Proposal -> bool {
    (p: Proposal) => p.project == projectId
  }

  /** `proposals_count` in the project detail: how many proposals name the project. */
  function ProposalsCount(projectId: nat, ps: seq<Proposal>): (n: nat)
    ensures n <= |ps|
    ensures n == 0 <==> forall i :: 0 <= i < |ps| ==> ps[i].project != projectId
  {
    CountNone(ps, OnProject(projectId));
    Count(ps, OnProject(projectId))
  }

  /** Adding a proposal for the project raises its count by one; one for another project leaves it. */
  lemma ProposalsCountAppend(projectId: nat, ps: seq<Proposal>, p: Proposal)
    ensures ProposalsCount(projectId, ps + [p]) == ProposalsCount(projectId, ps) + (if p.project == projectId then 1 else 0)
  {
    FilterAppend(ps, [p], OnProject(projectId));
  }
}
