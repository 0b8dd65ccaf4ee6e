/** The project browsing screens: the projects page with its search and two
    filters, and the featured-projects list of the home page. Both fetch the
    project list, and render each card's age, skills, category and (on the
    home page) deadline and proposal count. */
module ProjectsPage {
  import opened Common
  import opened Display

  /** A project card's data: the fields the cards read. A missing skill list,
      deadline or proposal count is None; `createdAt` and `deadline` are
      milliseconds. */
  datatype ListedProject = ListedProject(
    id: nat, category: string, skills: Option<seq<string>>, createdAt: int,
    deadline: Option<int>, proposalsCount: Option<nat>)

  // ---------------------------------------------------------------------------
  // Projects page
  // ---------------------------------------------------------------------------

  /** A filter value that restricts the list: set and not `all`. */
  predicate Restricts(filter: string) {
    filter != "" && filter != "all"
  }

  /** The position of each query parameter the page may send. */
  function KeyRank(key: string): nat {
    if key == "search" then 0 else if key == "category" then 1 else 2
  }

  /** The query of `fetchProjects`: `search` for a non-empty term, then
      `category` and `status` for filters other than `all`. */
  function ProjectsQuery(searchTerm: string, categoryFilter: string, statusFilter: string): seq<(string, string)> {
    (if searchTerm != "" then [("search", searchTerm)] else [])
    + (if Restricts(categoryFilter) then [("category", categoryFilter)] else [])
    + (if Restricts(statusFilter) then [("status", statusFilter)] else [])
  }

  /** Each parameter is sent exactly when its input restricts the list, with
      that input as its value, and the parameters come in a fixed order. */
  lemma ProjectsQueryParams(searchTerm: string, categoryFilter: string, statusFilter: string)
    ensures var q := ProjectsQuery(searchTerm, categoryFilter, statusFilter);
      && ((exists i :: 0 <= i < |q| && q[i].0 == "search") <==> searchTerm != "")
      && ((exists i :: 0 <= i < |q| && q[i].0 == "category") <==> Restricts(categoryFilter))
      && ((exists i :: 0 <= i < |q| && q[i].0 == "status") <==> Restricts(statusFilter))
      && (forall i :: 0 <= i < |q| ==> (
        || q[i] == ("search", searchTerm)
        || q[i] == ("category", categoryFilter)
        || q[i] == ("status", statusFilter)))
      && (forall i, j :: 0 <= i < j < |q| ==> KeyRank(q[i].0) < KeyRank(q[j].0))
  {
    var search := if searchTerm != "" then [("search", searchTerm)] else [];
    var category := if Restricts(categoryFilter) then [("category", categoryFilter)] else [];
    var status := if Restricts(statusFilter) then [("status", statusFilter)] else [];
    var q := search + category + status;
    assert q == ProjectsQuery(searchTerm, categoryFilter, statusFilter);
    assert searchTerm != "" ==> q[0].0 == "search";
    assert Restricts(categoryFilter) ==> q[|search|].0 == "category";
    assert Restricts(statusFilter) ==> q[|search| + |category|].0 == "status";
  }

  /** Cleared filters ask for the whole list. */
  lemma ClearedQueryIsEmpty()
    ensures ProjectsQuery("", "all", "all") == []
  {
  }

  /** The card's skill row: shown for a non-empty list, four badges at most. */
  function CardSkills(skills: Option<seq<string>>): (row: Option<Badges>)
    ensures row.Some? <==> skills.Some? && |skills.value| > 0
    ensures row.Some? ==> row.value == SkillBadges(skills.value, 4)
  {
    if skills.Some? && |skills.value| > 0 then Some(SkillBadges(skills.value, 4)) else None
  }

  /** No two choices of a category list share a value. */
  predicate DistinctValues(options: seq<CategoryOption>) {
    forall i, j :: 0 <= i < j < |options| ==> options[i].value != options[j].value
  }

  /** In a list of distinct values, every choice with a caption shows that caption. */
  lemma ListedCategoryShowsCaption(options: seq<CategoryOption>, i: nat)
    requires DistinctValues(options) && i < |options| && options[i].caption != ""
    ensures CategoryLabel(options, options[i].value) == options[i].caption
  {
    assert forall j :: 0 <= j < i ==> options[j].value != options[i].value;
  }

  /** The page's own list: a category slug shows its caption. */
  lemma KnownCategoryShowsCaption()
    ensures CategoryLabel(Categories, "web-development") == "Web Development"
    ensures CategoryLabel(Categories, "all") == "All Categories"
  {
    assert Categories[0].value != "web-development";
  }

  /** A category outside the list shows as it is. */
  lemma UnknownCategoryShownRaw(category: string)
    requires forall i :: 0 <= i < |Categories| ==> Categories[i].value != category
    ensures CategoryLabel(Categories, category) == category
  {
  }

  class ProjectsList {
    var projects: seq<ListedProject>
    var loading: bool
    var searchTerm: string
    var categoryFilter: string
    var statusFilter: string

    constructor ()
      ensures projects == [] && loading && searchTerm == "" && categoryFilter == "all" && statusFilter == "all"
    {
      projects, loading := [], true;
      searchTerm, categoryFilter, statusFilter := "", "all", "all";
    }

    /** `fetchProjects`: the parameters are appended one by one; the reply's
        data (or `[]`) replaces the list, an exception leaves it. Loading ends
        either way. */
    method FetchProjects(reply: Reply<seq<ListedProject>>) returns (query: seq<(string, string)>)
      modifies this
      ensures query == ProjectsQuery(searchTerm, categoryFilter, statusFilter)
      ensures reply.Reply? ==> projects == (if reply.data.Some? then reply.data.value else [])
      ensures reply.Threw? ==> projects == old(projects)
      ensures !loading
      ensures searchTerm == old(searchTerm) && categoryFilter == old(categoryFilter) && statusFilter == old(statusFilter)
    {
      var term, category, status := searchTerm, categoryFilter, statusFilter;
      query := [];
      if term != "" {
        query := query + [("search", term)];
      }
      if category != "" && category != "all" {
        query := query + [("category", category)];
      }
      if status != "" && status != "all" {
        query := query + [("status", status)];
      }
      loading := true;
      if reply.Reply? {
        projects := if reply.data.Some? then reply.data.value else [];
      }
      loading := false;
    }

    method SetFilters(term: string, category: string, status: string)
      modifies this
      ensures searchTerm == term && categoryFilter == category && statusFilter == status
      ensures projects == old(projects) && loading == old(loading)
    {
      searchTerm, categoryFilter, statusFilter := term, category, status;
    }

    /** "Clear Filters": the next fetch asks for every project. */
    method ClearFilters()
      modifies this
      ensures searchTerm == "" && categoryFilter == "all" && statusFilter == "all"
      ensures ProjectsQuery(searchTerm, categoryFilter, statusFilter) == []
      ensures projects == old(projects) && loading == old(loading)
    {
      searchTerm, categoryFilter, statusFilter := "", "all", "all";
    }
  }

  // ---------------------------------------------------------------------------
  // Featured projects
  // ---------------------------------------------------------------------------

  /** The query of the featured list. */
  const FeaturedQuery: seq<(string, string)> := [("limit", "6"), ("status", "open")]

  /** `project.proposals_count || 0`. */
  function ProposalsShown(p: ListedProject): (n: nat)
    ensures p.proposalsCount.Some? ==> n == p.proposalsCount.value
    ensures p.proposalsCount.None? ==> n == 0
  {
    if p.proposalsCount.Some? then p.proposalsCount.value else 0
  }

  /** The card's deadline bucket at time `now`. A missing deadline is an
      invalid date: every comparison of its day count fails and the card reads
      "Due " and the date's text. */
  function FeaturedDeadline(p: ListedProject, now: int): (l: DeadlineLabel)
    ensures p.deadline.None? ==> l == DueOn
    ensures p.deadline.Some? ==> l == Deadline(p.deadline.value - now)
  {
    if p.deadline.Some? then Deadline(p.deadline.value - now) else DueOn
  }

  class FeaturedList {
    var projects: seq<ListedProject>
    var loading: bool

    constructor ()
      ensures projects == [] && loading
    {
      projects, loading := [], true;
    }

    /** The mount effect: six open projects are asked for; the reply's data (or
        `[]`) replaces the list, an exception leaves it. */
    method FetchProjects(reply: Reply<seq<ListedProject>>) returns (query: seq<(string, string)>)
      modifies this
      ensures query == FeaturedQuery
      ensures reply.Reply? ==> projects == (if reply.data.Some? then reply.data.value else [])
      ensures reply.Threw? ==> projects == old(projects)
      ensures !loading
    {
      query := FeaturedQuery;
      if reply.Reply? {
        projects := if reply.data.Some? then reply.data.value else [];
      }
      loading := false;
    }
  }
}
