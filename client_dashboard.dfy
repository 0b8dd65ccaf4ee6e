/** The client dashboard: the totals over the client's projects, the
    proposals gathered from the three most recent of them, and the state the
    page keeps while it loads. */
module ClientDashboard {
  import opened Common
  import opened DashboardData

  predicate IsActive(p: ProjectRow) {
    p.status == "open" || p.status == "in_progress"
  }

  predicate IsCompleted(p: ProjectRow) {
    p.status == "completed"
  }

  /** `active_projects`: the open and in-progress projects. */
  function ActiveProjects(ps: seq<ProjectRow>): (n: nat)
    ensures n == |Filter(ps, IsActive)| && n <= |ps|
    ensures n == |ps| <==> forall i :: 0 <= i < |ps| ==> IsActive(ps[i])
  {
    CountAll(ps, IsActive);
    Count(ps, IsActive)
  }

  /** `total_spent`: the budgets of the completed projects added up, a missing
      budget counting 0 and a decimal's text converted by `toNumber`. */
  function TotalSpent(ps: seq<ProjectRow>, toNumber: string -> real): real {
    BudgetTotal(Budgets(Filter(ps, IsCompleted)), toNumber)
  }

  /** One more project adds its budget to the total spent when it is
      completed and nothing otherwise. */
  lemma SpentGrows(ps: seq<ProjectRow>, p: ProjectRow, toNumber: string -> real)
    ensures TotalSpent(ps + [p], toNumber) ==
      TotalSpent(ps, toNumber) + (if IsCompleted(p) then BudgetValue(p.budget, toNumber) else 0.0)
  {
    FilterAppend(ps, [p], IsCompleted);
    var done, last := Filter(ps, IsCompleted), Filter([p], IsCompleted);
    BudgetsAppend(done, last);
    BudgetTotalAppend(Budgets(done), Budgets(last), toNumber);
    assert [p][1..] == [];
    if IsCompleted(p) {
      assert Budgets(last) == [p.budget];
    } else {
      assert Budgets(last) == [];
    }
  }

  /** While every budget arrives as a number, the reduce the page runs shows
      exactly the total spent. */
  lemma SpentAsWrittenOnNumbers(ps: seq<ProjectRow>, show: real -> string, toNumber: string -> real)
    requires AllNumbers(Budgets(ps))
    ensures SumAsWritten(Budgets(Filter(ps, IsCompleted)), Num(0.0), show) == Num(TotalSpent(ps, toNumber))
  {
    FilteredSumsNumbers(ps, IsCompleted, show, toNumber);
  }

  /** The ids of the (at most) three projects whose proposals are fetched. */
  function RecentIds(ps: seq<ProjectRow>): (ids: seq<nat>)
    ensures |ids| == Min(3, |ps|)
    ensures forall i :: 0 <= i < |ids| ==> ids[i] == ps[i].id
  {
    seq(Min(3, |ps|), i requires 0 <= i < Min(3, |ps|) => ps[i].id)
  }

  /** The lists the proposal calls returned, in project order; None where a call
      gave no data. */
  function Flatten<P>(lists: seq<Option<seq<P>>>): seq<P> {
    if lists == [] then []
    else (if lists[0].Some? then lists[0].value else []) + Flatten(lists[1..])
  }

  function SumLengths<P>(lists: seq<Option<seq<P>>>): nat {
    if lists == [] then 0
    else (if lists[0].Some? then |lists[0].value| else 0) + SumLengths(lists[1..])
  }

  /** The gathered list is as long as the returned lists together. */
  lemma {:induction false} FlattenLength<P>(lists: seq<Option<seq<P>>>)
    ensures |Flatten(lists)| == SumLengths(lists)
  {
    if lists != [] {
      FlattenLength(lists[1..]);
    }
  }

  lemma {:induction false} FlattenSnoc<P>(lists: seq<Option<seq<P>>>, last: Option<seq<P>>)
    ensures Flatten(lists + [last]) == Flatten(lists) + (if last.Some? then last.value else [])
  {
    if lists == [] {
      assert lists + [last] == [last] && [last][1..] == [];
      assert Flatten([last]) == (if last.Some? then last.value else []) + Flatten([]);
    } else {
      var l := lists + [last];
      assert l[0] == lists[0] && l[1..] == lists[1..] + [last];
      FlattenSnoc(lists[1..], last);
      var h := if lists[0].Some? then lists[0].value else [];
      var t := if last.Some? then last.value else [];
      assert Flatten(l) == h + (Flatten(lists[1..]) + t);
      assert Flatten(lists) == h + Flatten(lists[1..]);
      assert h + (Flatten(lists[1..]) + t) == (h + Flatten(lists[1..])) + t;
    }
  }

  /** The `forEach` that pushes every returned list and counts the proposals. */
  method CollectProposals<P>(lists: seq<Option<seq<P>>>) returns (all: seq<P>, total: nat)
    ensures all == Flatten(lists)
    ensures total == SumLengths(lists)
  {
    all, total := [], 0;
    var i := 0;
    while i < |lists|
      invariant 0 <= i <= |lists|
      invariant all == Flatten(lists[..i])
      invariant total == |all|
    {
      assert lists[..i + 1] == lists[..i] + [lists[i]];
      FlattenSnoc(lists[..i], lists[i]);
      if lists[i].Some? {
        all := all + lists[i].value;
        total := total + |lists[i].value|;
      }
      i := i + 1;
    }
    assert lists[..i] == lists;
    FlattenLength(lists);
  }

  /** The replies to the proposal calls for the given projects. */
  function RepliesFor(ids: seq<nat>, proposalsFor: nat -> Reply<seq<ProposalRow>>): (rs: seq<Reply<seq<ProposalRow>>>)
    ensures |rs| == |ids| && forall i :: 0 <= i < |ids| ==> rs[i] == proposalsFor(ids[i])
  {
    seq(|ids|, i requires 0 <= i < |ids| => proposalsFor(ids[i]))
  }

  /** What each reply contributes: its data, or nothing. */
  function DataOf(rs: seq<Reply<seq<ProposalRow>>>): (lists: seq<Option<seq<ProposalRow>>>)
    ensures |lists| == |rs|
    ensures forall i :: 0 <= i < |rs| ==> lists[i] == (if rs[i].Reply? then rs[i].data else None)
  {
    seq(|rs|, i requires 0 <= i < |rs| => if rs[i].Reply? then rs[i].data else None)
  }

  /** One rejected call rejects `Promise.all`. */
  predicate AnyThrew(rs: seq<Reply<seq<ProposalRow>>>) {
    exists i :: 0 <= i < |rs| && rs[i].Threw?
  }

  /** The five proposals the dashboard lists. */
  function FirstFive(all: seq<ProposalRow>): (r: seq<ProposalRow>)
    ensures |r| == Min(5, |all|) && r == all[..|r|]
  {
    all[..Min(5, |all|)]
  }

  datatype ClientStats = ClientStats(totalProjects: nat, activeProjects: nat, totalSpent: real, totalProposals: nat)

  class ClientDashboardPage {
    var projects: seq<ProjectRow>
    var recentProposals: seq<ProposalRow>
    var stats: ClientStats
    var loading: bool

    constructor ()
      ensures projects == [] && recentProposals == [] && stats == ClientStats(0, 0, 0.0, 0) && loading
    {
      projects, recentProposals := [], [];
      stats := ClientStats(0, 0, 0.0, 0);
      loading := true;
    }

    /** `fetchDashboardData`: the projects and their totals, then the proposals
        of the first three projects. Without project data nothing changes; a
        rejected proposal call leaves the proposals and their count as they
        were. Loading ends either way. `requested` are the projects whose
        proposals were asked for. */
    method FetchDashboardData(projectsReply: Reply<seq<ProjectRow>>, proposalsFor: nat -> Reply<seq<ProposalRow>>,
                              toNumber: string -> real)
      returns (requested: seq<nat>)
      modifies this
      ensures !loading
      ensures !(projectsReply.Reply? && projectsReply.data.Some?) ==>
        requested == [] && projects == old(projects) && recentProposals == old(recentProposals) && stats == old(stats)
      ensures projectsReply.Reply? && projectsReply.data.Some? ==> (
        var ps := projectsReply.data.value;
        && requested == RecentIds(ps)
        && projects == ps
        && stats.totalProjects == |ps|
        && stats.activeProjects == ActiveProjects(ps)
        && stats.totalSpent == TotalSpent(ps, toNumber))
      ensures projectsReply.Reply? && projectsReply.data.Some? && AnyThrew(RepliesFor(requested, proposalsFor)) ==>
        recentProposals == old(recentProposals) && stats.totalProposals == old(stats.totalProposals)
      ensures projectsReply.Reply? && projectsReply.data.Some? && !AnyThrew(RepliesFor(requested, proposalsFor)) ==>
        var lists := DataOf(RepliesFor(requested, proposalsFor));
        recentProposals == FirstFive(Flatten(lists)) && stats.totalProposals == SumLengths(lists)
    {
      loading := true;
      requested := [];
      if projectsReply.Reply? && projectsReply.data.Some? {
        var ps := projectsReply.data.value;
        projects := ps;
        stats := stats.(totalProjects := |ps|, activeProjects := ActiveProjects(ps), totalSpent := TotalSpent(ps, toNumber));
        requested := RecentIds(ps);
        var replies := RepliesFor(requested, proposalsFor);
        if !AnyThrew(replies) {
          var all, total := CollectProposals(DataOf(replies));
          recentProposals := FirstFive(all);
          stats := stats.(totalProposals := total);
        }
      }
      loading := false;
    }
  }
}
