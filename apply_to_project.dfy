/** The apply-to-project server action: validation of the application form,
    the proposal sent to the API under the API's field names, and the API's
    field errors renamed back to the form's names. */
module ApplyToProject {
  import opened Common
  import opened Text
  import opened ServerActions

  /** The proposal as the API receives it: `project` is `parseInt(projectId)`,
      None when that is `NaN` (sent as `null`). The token stays out. */
  datatype ProposalData = ProposalData(project: Option<int>, message: string, proposedBudget: real, timeline: string)

  datatype ProposalRequest = ProposalRequest(authorization: string, body: ProposalData)

  datatype Field = ProjectId | Message | ProposedBudget | Timeline | Token

  /** `z.coerce.number()` of the budget entry: `Number(null)` is 0; None is `NaN`. */
  function BudgetValue(fd: FormData, toNumber: string -> Option<real>): (b: Option<real>)
    ensures Get(fd, "proposedBudget").None? ==> b == Some(0.0)
    ensures Get(fd, "proposedBudget").Some? ==> b == toNumber(Get(fd, "proposedBudget").value)
  {
    match Get(fd, "proposedBudget")
    case None => Some(0.0)
    case Some(t) => toNumber(t)
  }

  predicate StringWithin(v: Option<string>, lo: nat, hi: nat) {
    v.Some? && lo <= |v.value| <= hi
  }

  /** Whether `ApplicationSchema` accepts one field. */
  predicate FieldOk(fd: FormData, toNumber: string -> Option<real>, f: Field) {
    match f
    case ProjectId => Get(fd, "projectId").Some? && Get(fd, "projectId").value != ""
    case Message => StringWithin(Get(fd, "message"), 10, 1000)
    case ProposedBudget => BudgetValue(fd, toNumber).Some? && BudgetValue(fd, toNumber).value > 0.0
    case Timeline => StringWithin(Get(fd, "timeline"), 1, 100)
    case Token => Get(fd, "token").Some? && Get(fd, "token").value != ""
  }

  const AllFields: set<Field> := {ProjectId, Message, ProposedBudget, Timeline, Token}

  /** Every field passes. */
  predicate Valid(fd: FormData, toNumber: string -> Option<real>) {
    FieldOk(fd, toNumber, ProjectId) && FieldOk(fd, toNumber, Message) && FieldOk(fd, toNumber, ProposedBudget) && FieldOk(fd, toNumber, Timeline) && FieldOk(fd, toNumber, Token)
  }

  /** The fields `ApplicationSchema` rejects. */
  function ApplicationErrors(fd: FormData, toNumber: string -> Option<real>): (errors: set<Field>)
    ensures forall f :: f in errors <==> !FieldOk(fd, toNumber, f)
    ensures errors == {} <==> Valid(fd, toNumber)
  {
    set f | f in AllFields && !FieldOk(fd, toNumber, f)
  }

  /** A form without a budget entry is always refused for its budget. */
  lemma MissingBudgetRefused(fd: FormData, toNumber: string -> Option<real>)
    requires Get(fd, "proposedBudget").None?
    ensures ProposedBudget in ApplicationErrors(fd, toNumber)
  {
  }

  /** A budget text that coerces to `NaN` is refused, not sent. */
  lemma NaNBudgetRefused(fd: FormData, toNumber: string -> Option<real>)
    requires Get(fd, "proposedBudget").Some? && toNumber(Get(fd, "proposedBudget").value).None?
    ensures ProposedBudget in ApplicationErrors(fd, toNumber)
  {
  }

  /** The proposal sent once the form is valid, under the API's field names. */
  function ProposalFor(fd: FormData, toNumber: string -> Option<real>, parseInt: string -> Option<int>): (r: ProposalRequest)
    requires Valid(fd, toNumber)
    ensures r.authorization == "Bearer " + Get(fd, "token").value
    ensures r.body.project == parseInt(Get(fd, "projectId").value)
    ensures r.body.message == Get(fd, "message").value && r.body.timeline == Get(fd, "timeline").value
    ensures Some(r.body.proposedBudget) == BudgetValue(fd, toNumber) && r.body.proposedBudget > 0.0
  {
    ProposalRequest("Bearer " + Get(fd, "token").value,
      ProposalData(parseInt(Get(fd, "projectId").value), Get(fd, "message").value,
        BudgetValue(fd, toNumber).value, Get(fd, "timeline").value))
  }

  const NetworkFallback: string := "Network error: Could not submit application. Please try again."

  /** `applyToProject`. A 400 answer's array-valued fields come back under the
      form's names (`proposed_budget` as `proposedBudget`, `project` as
      `projectId`). */
  method Apply(fd: FormData, toNumber: string -> Option<real>, parseInt: string -> Option<int>, outcome: Outcome)
    returns (sent: Option<ProposalRequest>, state: ActionState<Field>)
    ensures ApplicationErrors(fd, toNumber) != {} ==>
      sent.None? && state == ValidationFailed(ApplicationErrors(fd, toNumber))
    ensures ApplicationErrors(fd, toNumber) == {} ==> sent == Some(ProposalFor(fd, toNumber, parseInt))
    ensures ApplicationErrors(fd, toNumber) == {} && outcome.Replied? && outcome.status == 400 ==>
      state.FieldErrors? && RenamedArrayFields(outcome.body, state.errors)
    ensures ApplicationErrors(fd, toNumber) == {} && !(outcome.Replied? && outcome.status == 400) ==>
      state == ReplyState(outcome, map[], NetworkFallback)
    ensures state.Succeeded? ==> sent.Some? && outcome.Replied? && Ok(outcome.status)
  {
    var errors := ApplicationErrors(fd, toNumber);
    if errors != {} {
      return None, ValidationFailed(errors);
    }
    sent := Some(ProposalFor(fd, toNumber, parseInt));
    var fieldErrors := map[];
    if outcome.Replied? && outcome.status == 400 {
      fieldErrors := CollectRenamedArrayFields(outcome.body);
    }
    state := ReplyState(outcome, fieldErrors, NetworkFallback);
  }
}
