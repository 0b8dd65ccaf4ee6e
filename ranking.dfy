/** The three freelancer leaderboards of the profiles API: `top_freelancers`,
    `newcomer_freelancers` and `featured_freelancers`. Each scores a freelancer
    from counts over their proposals, their rating and a profile-completeness
    score, keeps the ones that pass a filter, sorts by a lexicographic key and
    keeps a prefix. Decimal arithmetic is exact (`real`); times are milliseconds. */
module Ranking {
  import opened Common
  import opened Text
  import opened Sorting
  import opened Accounts
  import opened Projects
  import opened Profiles

  /** One of the freelancer's proposals, as the annotations see it: the status of
      the project it was made on and when it was made. */
  datatype ProposalFact = ProposalFact(projectStatus: ProjectStatus, createdAt: int)

  /** A profile row with what the annotations join onto it. */
  datatype Candidate = Candidate(
    profile: Profile, role: Role, joinedAt: int, proposals: seq<ProposalFact>, publicDemos: nat)

  // ---- counts ----

  function TotalProposals(c: Candidate): nat { |c.proposals| }

  predicate OnCompletedProject(f: ProposalFact) { f.projectStatus == Completed }

  /** "Accepted" is read off the project's status, not the proposal's. */
  predicate OnStartedProject(f: ProposalFact) { f.projectStatus == InProgress || f.projectStatus == Completed }

  function CompletedProjects(c: Candidate): nat { Count(c.proposals, OnCompletedProject) }

  function AcceptedProposals(c: Candidate): nat { Count(c.proposals, OnStartedProject) }

  /** Proposals made at or after `since`. */
  function ProposalsSince(c: Candidate, since: int): nat {
    Count(c.proposals, (f: ProposalFact) => f.createdAt >= since)
  }

  /** Proposals made within a week of joining. */
  function EarlyProposals(c: Candidate): nat {
    Count(c.proposals, (f: ProposalFact) => f.createdAt <= c.joinedAt + 7 * DayMs)
  }

  /** Completed proposals are among the accepted ones, which are among all. */
  lemma CountsOrdered(c: Candidate)
    ensures CompletedProjects(c) <= AcceptedProposals(c) <= TotalProposals(c)
  {
    CountMonotone(c.proposals, OnCompletedProject, OnStartedProject);
  }

  // ---- profile completeness ----

  function Points(present: bool): nat { if present then 20 else 0 }

  /** 20 points each for a bio, skills, an hourly rate, a location and an avatar. */
  function Completeness(p: Profile): (r: nat)
    ensures r <= 100 && r % 20 == 0
  {
    Points(p.bio != "") + Points(|p.skills| > 0) + Points(p.hourlyRate.Some?)
      + Points(p.location != "") + Points(p.avatar != "")
  }

  /** Full marks exactly when all five parts are filled in; none exactly when none is. */
  lemma CompletenessExtremes(p: Profile)
    ensures Completeness(p) == 100 <==> p.bio != "" && |p.skills| > 0 && p.hourlyRate.Some? && p.location != "" && p.avatar != ""
    ensures Completeness(p) == 0 <==> p.bio == "" && |p.skills| == 0 && p.hourlyRate.None? && p.location == "" && p.avatar == ""
  {
  }

  /** A freshly created profile scores nothing. */
  lemma NewProfileIncomplete(id: nat, user: nat, now: int)
    ensures Completeness(NewProfile(id, user, now)) == 0
  {
  }

  /** The completeness the query computes: `skills__len` on a JSON field is a
      lookup of the key `"len"`, which a list never has, so the skills part
      always scores 20. */
  function CompletenessAsQueried(p: Profile): (r: nat)
    ensures r >= 20
  {
    Points(p.bio != "") + 20 + Points(p.hourlyRate.Some?)
      + Points(p.location != "") + Points(p.avatar != "")
  }

  /** The query gives a profile without skills 20 points it should not have. */
  lemma SkillsLenIsKeyLookup(p: Profile)
    ensures CompletenessAsQueried(p) == Completeness(p) + (if |p.skills| == 0 then 20 else 0)
    ensures CompletenessAsQueried(NewProfile(0, 0, 0)) == 20 && Completeness(NewProfile(0, 0, 0)) == 0
  {
  }

  // ---- rates ----

  lemma {:induction false} RatioAtMostHundred(a: nat, b: nat)
    requires 0 < b && a <= b
    ensures 0.0 <= a as real * 100.0 / b as real <= 100.0
  {
    var x, y := a as real * 100.0, b as real;
    assert x <= 100.0 * y;
    assert x / y <= (100.0 * y) / y;
    assert (100.0 * y) / y == 100.0;
  }

  /** `success_rate`: 0 without proposals, otherwise the accepted percentage. */
  function SuccessRate(c: Candidate): (r: real)
    ensures 0.0 <= r <= 100.0
    ensures TotalProposals(c) == 0 ==> r == 0.0
    ensures r == 100.0 <== TotalProposals(c) > 0 && AcceptedProposals(c) == TotalProposals(c)
  {
    CountsOrdered(c);
    if TotalProposals(c) == 0 then 0.0
    else
      RatioAtMostHundred(AcceptedProposals(c), TotalProposals(c));
      AcceptedProposals(c) as real * 100.0 / TotalProposals(c) as real
  }

  /** `completion_rate`: 0 without accepted proposals, otherwise the completed
      percentage of the accepted ones. */
  function CompletionRate(c: Candidate): (r: real)
    ensures 0.0 <= r <= 100.0
    ensures AcceptedProposals(c) == 0 ==> r == 0.0
  {
    CountsOrdered(c);
    if AcceptedProposals(c) == 0 then 0.0
    else
      RatioAtMostHundred(CompletedProjects(c), AcceptedProposals(c));
      CompletedProjects(c) as real * 100.0 / AcceptedProposals(c) as real
  }

  /** The ratings the score bounds assume; the column itself admits up to 9.99. */
  predicate RatingOnScale(c: Candidate) { 0.0 <= c.profile.rating <= 5.0 }

  // ---- top freelancers ----

  function ExperiencePoints(completed: nat): real {
    if completed >= 10 then 25.0 else completed as real * 2.5
  }

  /** The composite score: rating 40, experience 25, success rate 20, activity in
      the last 30 days 10, completeness 5. */
  function TopScore(c: Candidate, now: int): real {
    c.profile.rating / 5.0 * 40.0
      + ExperiencePoints(CompletedProjects(c))
      + SuccessRate(c) / 100.0 * 20.0
      + (if ProposalsSince(c, now - 30 * DayMs) > 0 then 10.0 else 0.0)
      + Completeness(c.profile) as real / 100.0 * 5.0
  }

  lemma TopScoreBounds(c: Candidate, now: int)
    requires RatingOnScale(c)
    ensures 0.0 <= TopScore(c, now) <= 100.0
  {
    var _ := SuccessRate(c);
  }

  /** A rating of 5, ten completed projects, every proposal accepted, recent
      activity and a complete profile reach exactly 100. */
  lemma TopScoreMaximum(c: Candidate, now: int)
    requires c.profile.rating == 5.0 && CompletedProjects(c) >= 10
    requires AcceptedProposals(c) == TotalProposals(c) && ProposalsSince(c, now - 30 * DayMs) > 0
    requires Completeness(c.profile) == 100
    ensures TopScore(c, now) == 100.0
  {
    CountsOrdered(c);
    var _ := SuccessRate(c);
  }

  predicate TopEligible(c: Candidate) {
    c.role == Freelancer && c.profile.rating >= 3.5 && TotalProposals(c) >= 1
  }

  function TopKey(now: int): Candidate -> Rank {
    (c: Candidate) => Rank(TopScore(c, now), c.profile.rating, CompletedProjects(c) as real)
  }

  /** `top_freelancers`: eligible freelancers by composite score, then rating,
      then completed projects; at most 10. */
  function TopFreelancers(cs: seq<Candidate>, now: int): seq<Candidate> {
    TopN(Filter(cs, TopEligible), TopKey(now), 10)
  }

  /** What a leaderboard returns: `n` rows, or as many as are eligible when that
      is fewer, each one eligible and from the input, in descending key order,
      and no eligible row that was left out outranks a row that was kept; with
      `n` or fewer eligible rows all are kept. */
  ghost predicate Leaderboard(r: seq<Candidate>, cs: seq<Candidate>, eligible: Candidate -> bool, key: Candidate -> Rank, n: nat) {
    && |r| == Min(n, Count(cs, eligible))
    && (forall x :: x in r ==> x in cs && eligible(x))
    && SortedDesc(r, key)
    && (forall i, x :: 0 <= i < |r| && x in multiset(Filter(cs, eligible)) - multiset(r) ==> AtLeast(key(r[i]), key(x)))
    && (Count(cs, eligible) <= n ==> multiset(r) == multiset(Filter(cs, eligible)))
  }

  lemma LeaderboardOf(cs: seq<Candidate>, eligible: Candidate -> bool, key: Candidate -> Rank, n: nat)
    ensures Leaderboard(TopN(Filter(cs, eligible), key, n), cs, eligible, key, n)
  {
    var f := Filter(cs, eligible);
    var r := TopN(f, key, n);
    TopNSpec(f, key, n);
    assert |f| == Count(cs, eligible);
    forall x | x in r ensures x in cs && eligible(x) {
      TopNMembers(f, key, n, x);
      FilterMembership(cs, eligible, x);
    }
    if |f| <= n {
      assert r == SortDesc(f, key);
    }
  }

  lemma TopFreelancersSpec(cs: seq<Candidate>, now: int)
    ensures Leaderboard(TopFreelancers(cs, now), cs, TopEligible, TopKey(now), 10)
  {
    LeaderboardOf(cs, TopEligible, TopKey(now), 10);
  }

  // ---- newcomers ----

  /** `days_since_joining`, bucketed: 1, 7, 30, 60 or 90. */
  function DaysSinceJoining(joinedAt: int, now: int): (d: nat)
    ensures d in {1, 7, 30, 60, 90}
  {
    if joinedAt >= now - DayMs then 1
    else if joinedAt >= now - 7 * DayMs then 7
    else if joinedAt >= now - 30 * DayMs then 30
    else if joinedAt >= now - 60 * DayMs then 60
    else 90
  }

  function RecencyPoints(days: nat): real {
    if days <= 7 then 30.0 else if days <= 30 then 25.0 else if days <= 60 then 15.0 else 5.0
  }

  /** Joining later never lowers the recency points. */
  lemma RecencyMonotone(j1: int, j2: int, now: int)
    requires j1 <= j2
    ensures RecencyPoints(DaysSinceJoining(j1, now)) <= RecencyPoints(DaysSinceJoining(j2, now))
  {
  }

  function EarlyActivityPoints(early: nat, total: nat): real {
    if early >= 3 then 25.0 else if early >= 1 then 15.0 else if total >= 1 then 10.0 else 0.0
  }

  function InitialSuccessPoints(accepted: nat, total: nat): real {
    if accepted >= 1 then 20.0 else if total >= 3 then 10.0 else if total >= 1 then 5.0 else 0.0
  }

  /** Recency 30, early activity 25, completeness 25, initial success 20. */
  function NewcomerScore(c: Candidate, now: int): real {
    RecencyPoints(DaysSinceJoining(c.joinedAt, now))
      + EarlyActivityPoints(EarlyProposals(c), TotalProposals(c))
      + Completeness(c.profile) as real / 100.0 * 25.0
      + InitialSuccessPoints(AcceptedProposals(c), TotalProposals(c))
  }

  lemma NewcomerScoreBounds(c: Candidate, now: int)
    ensures 5.0 <= NewcomerScore(c, now) <= 100.0
  {
  }

  /** Someone who joined today, made three proposals in their first week, one of
      them accepted, and has a complete profile scores exactly 100. */
  lemma NewcomerScoreMaximum(c: Candidate, now: int)
    requires c.joinedAt >= now - DayMs && EarlyProposals(c) >= 3 && AcceptedProposals(c) >= 1
    requires Completeness(c.profile) == 100
    ensures NewcomerScore(c, now) == 100.0
  {
  }

  predicate NewcomerEligible(now: int, c: Candidate) {
    c.role == Freelancer && c.joinedAt >= now - 90 * DayMs && Completeness(c.profile) >= 40
  }

  function NewcomerKey(now: int): Candidate -> Rank {
    (c: Candidate) => Rank(NewcomerScore(c, now), c.joinedAt as real, 0.0)
  }

  /** `newcomer_freelancers`: recent joiners with at least 40% completeness, by
      score and then newest join first; at most 10. */
  function NewcomerFreelancers(cs: seq<Candidate>, now: int): seq<Candidate> {
    TopN(Filter(cs, (c: Candidate) => NewcomerEligible(now, c)), NewcomerKey(now), 10)
  }

  lemma NewcomerFreelancersSpec(cs: seq<Candidate>, now: int)
    ensures Leaderboard(NewcomerFreelancers(cs, now), cs, (c: Candidate) => NewcomerEligible(now, c), NewcomerKey(now), 10)
  {
    LeaderboardOf(cs, (c: Candidate) => NewcomerEligible(now, c), NewcomerKey(now), 10);
  }

  // ---- featured ----

  const HighDemandKeywords: seq<string> := ["react", "python", "javascript", "design"]

  /** Whether some skill, lower-cased by `lower`, contains the keyword. */
  predicate SkillsMention(skills: seq<string>, lower: string -> string, keyword: string) {
    exists i :: 0 <= i < |skills| && Includes(lower(skills[i]), keyword)
  }

  /** How many of the four keywords the skills mention. */
  function HighDemandHits(skills: seq<string>, lower: string -> string): (n: nat)
    ensures n <= 4
  {
    (if SkillsMention(skills, lower, "react") then 1 else 0)
      + (if SkillsMention(skills, lower, "python") then 1 else 0)
      + (if SkillsMention(skills, lower, "javascript") then 1 else 0)
      + (if SkillsMention(skills, lower, "design") then 1 else 0)
  }

  function PricingPoints(rate: Option<real>): real {
    match rate
    case None => 0.0
    case Some(r) => if r <= 50.0 then 10.0 else if r <= 100.0 then 7.5 else 5.0
  }

  /** The category-diversity bonus by number of skills. */
  function DiversityPoints(skills: seq<string>): real {
    if |skills| >= 5 then 10.0 else if |skills| >= 3 then 5.0 else 0.0
  }

  /** The diversity bonus the query computes: `skills__len__gte` is again a lookup
      of the key `"len"`, which never matches, so the bonus is always 0. */
  function DiversityPointsAsQueried(skills: seq<string>): real { 0.0 }

  lemma DiversityIsKeyLookup()
    ensures DiversityPointsAsQueried(["a", "b", "c", "d", "e"]) == 0.0
    ensures DiversityPoints(["a", "b", "c", "d", "e"]) == 10.0
  {
  }

  function ExperienceFeaturedPoints(completed: nat): real {
    if completed >= 5 then 7.5 else completed as real * 1.5
  }

  /** Overall performance: rating 12, success rate 10.5, experience 7.5. */
  function Performance(c: Candidate): (r: real)
    ensures RatingOnScale(c) ==> 0.0 <= r <= 30.0
  {
    c.profile.rating / 5.0 * 12.0 + SuccessRate(c) / 100.0 * 10.5 + ExperienceFeaturedPoints(CompletedProjects(c))
  }

  /** Market demand: 5 per keyword hit, competitive pricing, skill diversity. */
  function MarketDemand(c: Candidate, lower: string -> string): (r: real)
    ensures 0.0 <= r <= 40.0
  {
    HighDemandHits(c.profile.skills, lower) as real * 5.0
      + PricingPoints(c.profile.hourlyRate) + DiversityPoints(c.profile.skills)
  }

  /** Market demand as the query adds it up, with the diversity bonus it never
      awards: at most 30, and short of the intended figure by exactly that bonus. */
  function MarketDemandAsQueried(c: Candidate, lower: string -> string): (r: real)
    ensures 0.0 <= r <= 30.0
    ensures r == MarketDemand(c, lower) - DiversityPoints(c.profile.skills)
  {
    HighDemandHits(c.profile.skills, lower) as real * 5.0
      + PricingPoints(c.profile.hourlyRate) + DiversityPointsAsQueried(c.profile.skills)
  }

  function ConsistencyPoints(n: nat): real {
    if n >= 3 then 10.0 else if n >= 1 then 5.0 else 0.0
  }

  /** Reliability: completion rate 10, activity in the last 90 days 10. */
  function Reliability(c: Candidate, now: int): (r: real)
    ensures 0.0 <= r <= 20.0
  {
    CompletionRate(c) / 100.0 * 10.0 + ConsistencyPoints(ProposalsSince(c, now - 90 * DayMs))
  }

  function PortfolioPoints(demos: nat): real {
    if demos >= 2 then 5.0 else if demos >= 1 then 2.5 else 0.0
  }

  /** Professional presence: completeness 10, public demos 5. */
  function Presence(c: Candidate): (r: real)
    ensures 0.0 <= r <= 15.0
  {
    Completeness(c.profile) as real / 100.0 * 10.0 + PortfolioPoints(c.publicDemos)
  }

  /** Presence as the query adds it up, from the completeness it computes: never
      below 2, and 2 above the intended figure exactly when there are no skills. */
  function PresenceAsQueried(c: Candidate): (r: real)
    ensures 2.0 <= r <= 15.0
    ensures r == Presence(c) + (if |c.profile.skills| == 0 then 2.0 else 0.0)
  {
    SkillsLenIsKeyLookup(c.profile);
    CompletenessAsQueried(c.profile) as real / 100.0 * 10.0 + PortfolioPoints(c.publicDemos)
  }

  /** Client satisfaction: activity in the last 30 days. */
  function Satisfaction(c: Candidate, now: int): (r: real)
    ensures 0.0 <= r <= 10.0
  {
    var recent := ProposalsSince(c, now - 30 * DayMs);
    if recent >= 2 then 10.0 else if recent >= 1 then 5.0 else 0.0
  }

  /** The `featured_score` annotation as the query computes it, from the parts
      it really produces: it can pass 100 by 5. */
  function FeaturedScoreAsWritten(c: Candidate, now: int, lower: string -> string): (r: real)
    ensures RatingOnScale(c) ==> 2.0 <= r <= 105.0
  {
    Performance(c) + MarketDemandAsQueried(c, lower) + Reliability(c, now) + PresenceAsQueried(c) + Satisfaction(c, now)
  }

  /** A freelancer at the top of every part: rating 5, five proposals made at
      `now` on completed projects, four of the keywords among five skills, a
      rate of 40, a complete profile and two public demos. */
  function TopSample(now: int): Candidate {
    var p := Profile(1, 1, "", "bio", TopSampleSkills, Some(40.0), "Chennai", "", "avatars/1/avatar.jpg", 5.0, 0, now);
    Candidate(p, Freelancer, now, seq(5, _ => ProposalFact(Completed, now)), 2)
  }

  const TopSampleSkills: seq<string> := ["react", "python", "javascript", "design", "sql"]

  /** Skills compared as they are. */
  function AsIs(s: string): string { s }

  lemma TopSampleCounts(now: int)
    ensures var c := TopSample(now);
      && TotalProposals(c) == 5 && CompletedProjects(c) == 5 && AcceptedProposals(c) == 5
      && ProposalsSince(c, now - 90 * DayMs) == 5 && ProposalsSince(c, now - 30 * DayMs) == 5
  {
    var facts := TopSample(now).proposals;
    CountAll(facts, OnCompletedProject);
    CountAll(facts, OnStartedProject);
    CountAll(facts, (f: ProposalFact) => f.createdAt >= now - 90 * DayMs);
    CountAll(facts, (f: ProposalFact) => f.createdAt >= now - 30 * DayMs);
  }

  lemma TopSampleHits()
    ensures HighDemandHits(TopSampleSkills, AsIs) == 4
  {
    var skills := TopSampleSkills;
    assert Includes(AsIs(skills[0]), "react");
    assert Includes(AsIs(skills[1]), "python");
    assert Includes(AsIs(skills[2]), "javascript");
    assert Includes(AsIs(skills[3]), "design");
  }

  /** The query's sum really reaches 105, past the 0-100 range the score is
      documented to have. */
  lemma FeaturedScoreExceedsHundred(now: int)
    ensures RatingOnScale(TopSample(now)) && FeaturedScoreAsWritten(TopSample(now), now, AsIs) == 105.0
  {
    var c := TopSample(now);
    TopSampleCounts(now);
    TopSampleHits();
    assert Performance(c) == 30.0;
    assert MarketDemandAsQueried(c, AsIs) == 30.0;
    assert Reliability(c, now) == 20.0;
    assert PresenceAsQueried(c) == 15.0;
    assert Satisfaction(c, now) == 10.0;
  }

  /** The featured score as documented: the intended completeness and diversity
      bonus, with market demand held to its 25% share, which keeps the total
      within 0-100. */
  function FeaturedScore(c: Candidate, now: int, lower: string -> string): (r: real)
    ensures RatingOnScale(c) ==> 0.0 <= r <= 100.0
    ensures r <= FeaturedScoreAsWritten(c, now, lower) + DiversityPoints(c.profile.skills)
  {
    var market := MarketDemand(c, lower);
    Performance(c) + (if market <= 25.0 then market else 25.0) + Reliability(c, now) + Presence(c) + Satisfaction(c, now)
  }

  /** The two agree for a freelancer with one or two skills (no diversity bonus,
      completeness counted right) whose market demand stays within its share. */
  lemma FeaturedScoresAgree(c: Candidate, now: int, lower: string -> string)
    requires 1 <= |c.profile.skills| < 3 && MarketDemand(c, lower) <= 25.0
    ensures FeaturedScore(c, now, lower) == FeaturedScoreAsWritten(c, now, lower)
  {
  }

  /** The query's thresholds, on the completeness it computes. */
  predicate FeaturedEligible(c: Candidate) {
    && c.role == Freelancer && c.profile.rating >= 3.0 && TotalProposals(c) >= 1
    && CompletenessAsQueried(c.profile) >= 60
  }

  /** The query's order: its uncapped `featured_score`, then rating, then completed projects. */
  function FeaturedKey(now: int, lower: string -> string): Candidate -> Rank {
    (c: Candidate) => Rank(FeaturedScoreAsWritten(c, now, lower), c.profile.rating, CompletedProjects(c) as real)
  }

  /** `featured_freelancers`: eligible freelancers by featured score, then rating,
      then completed projects; at most 6. */
  function FeaturedFreelancers(cs: seq<Candidate>, now: int, lower: string -> string): seq<Candidate> {
    TopN(Filter(cs, FeaturedEligible), FeaturedKey(now, lower), 6)
  }

  lemma FeaturedFreelancersSpec(cs: seq<Candidate>, now: int, lower: string -> string)
    ensures Leaderboard(FeaturedFreelancers(cs, now, lower), cs, FeaturedEligible, FeaturedKey(now, lower), 6)
  {
    LeaderboardOf(cs, FeaturedEligible, FeaturedKey(now, lower), 6);
  }
}
