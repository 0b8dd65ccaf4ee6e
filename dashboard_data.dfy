/** What the client and freelancer dashboards share: the project and proposal
    rows they read, the budget totals they display, and the role gate each
    page applies before loading. */
module DashboardData {
  import opened Common
  import opened Accounts

  // ---------------------------------------------------------------------------
  // Budgets as the API sends them
  // ---------------------------------------------------------------------------

  /** A budget as a JSON value: a number, or the text the API renders a
      decimal as. */
  datatype JsValue = Num(n: real) | Str(s: string)

  /** A project row of either dashboard: its id, its budget (None when null or
      missing) and its status. */
  datatype ProjectRow = ProjectRow(id: nat, budget: Option<JsValue>, status: string)

  /** A proposal row; the dashboards only list and colour them. */
  datatype ProposalRow = ProposalRow(id: nat, status: string)

  /** JavaScript truthiness of a JSON value: a number other than 0, or non-empty text. */
  predicate Truthy(v: JsValue) {
    if v.Num? then v.n != 0.0 else v.s != ""
  }

  /** `p.budget || 0`. */
  function OrZero(b: Option<JsValue>): (v: JsValue)
    ensures b.None? ==> v == Num(0.0)
    ensures b.Some? && Truthy(b.value) ==> v == b.value
    ensures b.Some? && b.value.Num? ==> v == b.value
    ensures b.Some? && b.value.Str? ==> v == (if b.value.s == "" then Num(0.0) else b.value)
  {
    match b
    case None => Num(0.0)
    case Some(Num(n)) => Num(n)
    case Some(Str(s)) => if s == "" then Num(0.0) else Str(s)
  }

  /** JavaScript's `+`: numbers add; as soon as one side is text both sides are
      written out and joined. `show` is the number-to-text conversion. */
  function JsPlus(a: JsValue, b: JsValue, show: real -> string): (r: JsValue)
    ensures a.Num? && b.Num? ==> r == Num(a.n + b.n)
    ensures r.Str? <==> a.Str? || b.Str?
  {
    if a.Num? && b.Num? then Num(a.n + b.n)
    else Str(JsText(a, show) + JsText(b, show))
  }

  function JsText(v: JsValue, show: real -> string): string {
    match v
    case Num(n) => show(n)
    case Str(s) => s
  }

  /** `budgets.reduce((sum, b) => sum + (b || 0), acc)`, as written. */
  function SumAsWritten(budgets: seq<Option<JsValue>>, acc: JsValue, show: real -> string): JsValue
  {
    if budgets == [] then acc
    else SumAsWritten(budgets[1..], JsPlus(acc, OrZero(budgets[0]), show), show)
  }

  /** A budget's amount: a number as it is, a decimal's text converted by
      `toNumber`, a missing one 0. */
  function BudgetValue(b: Option<JsValue>, toNumber: string -> real): (x: real)
    ensures b.None? ==> x == 0.0
    ensures b.Some? && b.value.Num? ==> x == b.value.n
    ensures b.Some? && b.value.Str? ==> x == toNumber(b.value.s)
  {
    match b
    case None => 0.0
    case Some(Num(n)) => n
    case Some(Str(s)) => toNumber(s)
  }

  /** The total the dashboards mean to show: the sum of the amounts. */
  function BudgetTotal(budgets: seq<Option<JsValue>>, toNumber: string -> real): real {
    if budgets == [] then 0.0 else BudgetValue(budgets[0], toNumber) + BudgetTotal(budgets[1..], toNumber)
  }

  lemma {:induction false} BudgetTotalAppend(a: seq<Option<JsValue>>, b: seq<Option<JsValue>>, toNumber: string -> real)
    ensures BudgetTotal(a + b, toNumber) == BudgetTotal(a, toNumber) + BudgetTotal(b, toNumber)
  {
    if a == [] {
      assert a + b == b;
    } else {
      assert (a + b)[1..] == a[1..] + b;
      BudgetTotalAppend(a[1..], b, toNumber);
    }
  }

  predicate AllNumbers(budgets: seq<Option<JsValue>>) {
    forall i :: 0 <= i < |budgets| ==> budgets[i].None? || budgets[i].value.Num?
  }

  /** Filtering rows whose budgets are all numbers keeps only numeric budgets. */
  lemma FilterNumbers(ps: seq<ProjectRow>, p: ProjectRow -> bool)
    requires AllNumbers(Budgets(ps))
    ensures AllNumbers(Budgets(Filter(ps, p)))
  {
    var sub := Filter(ps, p);
    forall i | 0 <= i < |sub| ensures sub[i].budget.None? || sub[i].budget.value.Num? {
      assert sub[i] in multiset(sub);
      assert sub[i] in ps;
      var j :| 0 <= j < |ps| && ps[j] == sub[i];
      assert Budgets(ps)[j] == ps[j].budget;
    }
  }

  /** While every budget is a number, the reduce computes the intended total. */
  lemma {:induction false} AsWrittenSumsNumbers(budgets: seq<Option<JsValue>>, acc: real,
                                                show: real -> string, toNumber: string -> real)
    requires AllNumbers(budgets)
    ensures SumAsWritten(budgets, Num(acc), show) == Num(acc + BudgetTotal(budgets, toNumber))
  {
    if budgets != [] {
      AsWrittenSumsNumbers(budgets[1..], acc + BudgetValue(budgets[0], toNumber), show, toNumber);
    }
  }

  /** The same for the budgets of the rows a filter keeps. */
  lemma FilteredSumsNumbers(ps: seq<ProjectRow>, p: ProjectRow -> bool, show: real -> string, toNumber: string -> real)
    requires AllNumbers(Budgets(ps))
    ensures SumAsWritten(Budgets(Filter(ps, p)), Num(0.0), show) == Num(BudgetTotal(Budgets(Filter(ps, p)), toNumber))
  {
    var budgets := Budgets(Filter(ps, p));
    FilterNumbers(ps, p);
    AsWrittenSumsNumbers(budgets, 0.0, show, toNumber);
    assert 0.0 + BudgetTotal(budgets, toNumber) == BudgetTotal(budgets, toNumber);
  }

  /** Decimal budgets sent as text are joined, not added: two completed
      projects of "100.00" and "50.00" give the text "0100.0050.00". */
  lemma TextBudgetsConcatenate(show: real -> string)
    requires show(0.0) == "0"
    ensures SumAsWritten([Some(Str("100.00")), Some(Str("50.00"))], Num(0.0), show) == Str("0100.0050.00")
  {
    var bs := [Some(Str("100.00")), Some(Str("50.00"))];
    assert bs[1..] == [Some(Str("50.00"))];
    assert JsPlus(Num(0.0), Str("100.00"), show) == Str("0100.00");
    assert JsPlus(Str("0100.00"), Str("50.00"), show) == Str("0100.0050.00");
  }

  /** The budgets of a list of projects, in order. */
  function Budgets(ps: seq<ProjectRow>): (bs: seq<Option<JsValue>>)
    ensures |bs| == |ps| && forall i :: 0 <= i < |ps| ==> bs[i] == ps[i].budget
  {
    seq(|ps|, i requires 0 <= i < |ps| => ps[i].budget)
  }

  lemma BudgetsAppend(a: seq<ProjectRow>, b: seq<ProjectRow>)
    ensures Budgets(a + b) == Budgets(a) + Budgets(b)
  {
  }

  // ---------------------------------------------------------------------------
  // Role gate
  // ---------------------------------------------------------------------------

  /** What a dashboard's effect does for the signed-in state. */
  datatype GateAction = FetchData | RedirectTo(path: string) | Stay

  /** The effect of the dashboard reserved for `owner`: load for that role,
      send any other signed-in user to `elsewhere`, do nothing when signed out. */
  function Gate(signedIn: bool, role: Option<Role>, owner: Role, elsewhere: string): (a: GateAction)
    ensures a == FetchData <==> signedIn && role == Some(owner)
    ensures a.RedirectTo? <==> signedIn && role != Some(owner)
    ensures a.RedirectTo? ==> a.path == elsewhere
    ensures a == Stay <==> !signedIn
  {
    if signedIn && role == Some(owner) then FetchData
    else if signedIn then RedirectTo(elsewhere)
    else Stay
  }

  /** The dashboard's content renders only for a signed-in user of its role;
      everyone else sees the access-denied card. */
  predicate ContentShown(signedIn: bool, role: Option<Role>, owner: Role) {
    signedIn && role == Some(owner)
  }

  const ClientDashboardPath: string := "/client/dashboard"
  const FreelancerDashboardPath: string := "/freelancer/dashboard"

  function ClientGate(signedIn: bool, role: Option<Role>): GateAction {
    Gate(signedIn, role, Client, FreelancerDashboardPath)
  }

  function FreelancerGate(signedIn: bool, role: Option<Role>): GateAction {
    Gate(signedIn, role, Freelancer, ClientDashboardPath)
  }

  /** Content is shown exactly where the page loads its data. */
  lemma ShownIffLoaded(signedIn: bool, role: Option<Role>)
    ensures ContentShown(signedIn, role, Client) <==> ClientGate(signedIn, role) == FetchData
    ensures ContentShown(signedIn, role, Freelancer) <==> FreelancerGate(signedIn, role) == FetchData
  {
  }

  /** A signed-in user who is neither client nor freelancer (an admin, or a
      profile not loaded yet) is sent from each dashboard to the other. */
  lemma OtherRolesBounce(role: Option<Role>)
    requires role != Some(Client) && role != Some(Freelancer)
    ensures ClientGate(true, role) == RedirectTo(FreelancerDashboardPath)
    ensures FreelancerGate(true, role) == RedirectTo(ClientDashboardPath)
  {
  }
}
