/** The freelancer dashboard: the profile card, the proposal and active-project
    totals, the open projects it suggests, and the state the page keeps while
    it loads. */
module FreelancerDashboard {
  import opened Common
  import opened DashboardData
  import opened Display

  /** The parts of the freelancer's profile the dashboard shows; the rate is
      the JSON value the API sent (a decimal arrives as text). */
  datatype FreelancerProfile = FreelancerProfile(skills: Option<seq<string>>, hourlyRate: Option<JsValue>)

  /** The query of the "recent projects" call. */
  const RecentProjectsQuery: seq<(string, string)> := [("limit", "5"), ("status", "open")]

  const DefaultRate: real := 50.0
  const SkillLimit: nat := 6

  /** `profile?.hourly_rate || 50`: a missing rate, the number 0 or empty text
      shows 50; any other value is shown as sent, so the text "0.00" stays. */
  function RateShown(profile: Option<FreelancerProfile>): (rate: JsValue)
    ensures profile.Some? && profile.value.hourlyRate.Some? && Truthy(profile.value.hourlyRate.value) ==>
      rate == profile.value.hourlyRate.value
    ensures !(profile.Some? && profile.value.hourlyRate.Some? && Truthy(profile.value.hourlyRate.value)) ==>
      rate == Num(DefaultRate)
    ensures Truthy(rate)
  {
    if profile.Some? && profile.value.hourlyRate.Some? && Truthy(profile.value.hourlyRate.value)
    then profile.value.hourlyRate.value else Num(DefaultRate)
  }

  /** A zero rate sent as the decimal's text is shown, not replaced by 50. */
  lemma ZeroRateTextShown()
    ensures RateShown(Some(FreelancerProfile(None, Some(Str("0.00"))))) == Str("0.00")
    ensures RateShown(Some(FreelancerProfile(None, Some(Num(0.0))))) == Num(DefaultRate)
  {
  }

  /** `total_earnings`: the budgets of the active projects added up, a missing
      budget counting 0. */
  function TotalEarnings(active: seq<ProjectRow>, toNumber: string -> real): real {
    BudgetTotal(Budgets(active), toNumber)
  }

  /** While every budget arrives as a number, the page's reduce shows exactly
      the total earnings. */
  lemma EarningsAsWrittenOnNumbers(active: seq<ProjectRow>, show: real -> string, toNumber: string -> real)
    requires AllNumbers(Budgets(active))
    ensures SumAsWritten(Budgets(active), Num(0.0), show) == Num(TotalEarnings(active, toNumber))
  {
    AsWrittenSumsNumbers(Budgets(active), 0.0, show, toNumber);
  }

  /** One more active project adds its budget to the earnings. */
  lemma EarningsGrow(active: seq<ProjectRow>, p: ProjectRow, toNumber: string -> real)
    ensures TotalEarnings(active + [p], toNumber) == TotalEarnings(active, toNumber) + BudgetValue(p.budget, toNumber)
  {
    BudgetsAppend(active, [p]);
    BudgetTotalAppend(Budgets(active), Budgets([p]), toNumber);
    assert Budgets([p]) == [p.budget];
    assert Budgets([p])[1..] == [];
  }

  datatype FreelancerStats = FreelancerStats(totalProposals: nat, activeProjects: nat, totalEarnings: real, profileViews: nat)

  predicate HasData<T>(r: Reply<T>) {
    r.Reply? && r.data.Some?
  }

  class FreelancerDashboardPage {
    var profile: Option<FreelancerProfile>
    var proposals: seq<ProposalRow>
    var activeProjects: seq<ProjectRow>
    var recentProjects: seq<ProjectRow>
    var stats: FreelancerStats
    var loading: bool

    constructor ()
      ensures profile.None? && proposals == [] && activeProjects == [] && recentProjects == []
      ensures stats == FreelancerStats(0, 0, 0.0, 0) && loading
    {
      profile := None;
      proposals, activeProjects, recentProjects := [], [], [];
      stats := FreelancerStats(0, 0, 0.0, 0);
      loading := true;
    }

    /** `fetchDashboardData`: the four calls are awaited together, so one that
        throws leaves everything as it was; otherwise each call with data sets
        its part and the totals derived from it. Loading ends either way. */
    method FetchDashboardData(profileReply: Reply<FreelancerProfile>, proposalsReply: Reply<seq<ProposalRow>>,
                              activeReply: Reply<seq<ProjectRow>>, recentReply: Reply<seq<ProjectRow>>,
                              toNumber: string -> real)
      returns (recentQuery: seq<(string, string)>)
      modifies this
      ensures recentQuery == RecentProjectsQuery && !loading
      ensures stats.profileViews == old(stats.profileViews)
      ensures profileReply.Threw? || proposalsReply.Threw? || activeReply.Threw? || recentReply.Threw? ==>
        && profile == old(profile) && proposals == old(proposals) && activeProjects == old(activeProjects)
        && recentProjects == old(recentProjects) && stats == old(stats)
      ensures !(profileReply.Threw? || proposalsReply.Threw? || activeReply.Threw? || recentReply.Threw?) ==>
        && profile == (if HasData(profileReply) then profileReply.data else old(profile))
        && (HasData(proposalsReply) ==>
              proposals == proposalsReply.data.value && stats.totalProposals == |proposalsReply.data.value|)
        && (!HasData(proposalsReply) ==> proposals == old(proposals) && stats.totalProposals == old(stats.totalProposals))
        && (HasData(activeReply) ==>
              && activeProjects == activeReply.data.value
              && stats.activeProjects == |activeReply.data.value|
              && stats.totalEarnings == TotalEarnings(activeReply.data.value, toNumber))
        && (!HasData(activeReply) ==> (
              && activeProjects == old(activeProjects)
              && stats.activeProjects == old(stats.activeProjects)
              && stats.totalEarnings == old(stats.totalEarnings)))
        && recentProjects == (if HasData(recentReply) then recentReply.data.value else old(recentProjects))
    {
      loading := true;
      recentQuery := RecentProjectsQuery;
      if !(profileReply.Threw? || proposalsReply.Threw? || activeReply.Threw? || recentReply.Threw?) {
        if HasData(profileReply) {
          profile := profileReply.data;
        }
        if HasData(proposalsReply) {
          proposals := proposalsReply.data.value;
          stats := stats.(totalProposals := |proposals|);
        }
        if HasData(activeReply) {
          activeProjects := activeReply.data.value;
          stats := stats.(activeProjects := |activeProjects|, totalEarnings := TotalEarnings(activeProjects, toNumber));
        }
        if HasData(recentReply) {
          recentProjects := recentReply.data.value;
        }
      }
      loading := false;
    }

    /** The profile card's skill row: shown only for a non-empty skill list,
        six badges at most and an overflow badge for the rest. */
    function SkillRow(): (row: Option<Badges>)
      reads this
      ensures row.Some? <==> profile.Some? && profile.value.skills.Some? && |profile.value.skills.value| > 0
      ensures row.Some? ==> row.value == SkillBadges(profile.value.skills.value, SkillLimit)
    {
      if profile.Some? && profile.value.skills.Some? && |profile.value.skills.value| > 0
      then Some(SkillBadges(profile.value.skills.value, SkillLimit)) else None
    }
  }
}
