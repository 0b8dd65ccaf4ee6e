/** The post-project server action: it reads the submitted form, validates it
    with its own schema, sends the project to the API without the token, and
    reports the API's answer to the form. */
module PostProject {
  import opened Common
  import opened Text
  import opened ServerActions

  /** The validated project as the API receives it (the token stays out). */
  datatype ProjectData = ProjectData(
    title: string, description: string, category: string, budget: Option<real>, skills: seq<string>)

  /** The API call: the bearer header and the JSON body. */
  datatype ProjectRequest = ProjectRequest(authorization: string, body: ProjectData)

  /** The `skills` entries that are not blank, unmodified and in order. */
  function SubmittedSkills(fd: FormData): (r: seq<string>)
    ensures forall i :: 0 <= i < |r| ==> !IsBlank(r[i])
    ensures forall s :: s in r <==> ("skills", s) in fd && !IsBlank(s)
  {
    FilterMembershipAll(GetAll(fd, "skills"), (s: string) => !IsBlank(s));
    Filter(GetAll(fd, "skills"), (s: string) => !IsBlank(s))
  }

  /** The budget handed to the schema: `undefined`, or what `Number` made of
      the entry's text, None standing for `NaN`. */
  datatype BudgetEntry = Undefined | Coerced(n: Option<real>)

  /** The budget handed to the schema: `undefined` when the entry is missing or
      empty, otherwise `Number(...)` of its text (`toNumber`, None for `NaN`). */
  function SubmittedBudget(fd: FormData, toNumber: string -> Option<real>): (b: BudgetEntry)
    ensures b.Undefined? <==> Get(fd, "budget").None? || Get(fd, "budget").value == ""
    ensures b.Coerced? ==> b.n == toNumber(Get(fd, "budget").value)
  {
    match Get(fd, "budget")
    case None => Undefined
    case Some(t) => if t == "" then Undefined else Coerced(toNumber(t))
  }

  /** A `z.string().min(lo).max(hi)` field read with `get`: `null` fails. */
  predicate StringWithin(v: Option<string>, lo: nat, hi: nat) {
    v.Some? && lo <= |v.value| <= hi
  }

  /** The schema's fields, each under its form name. */
  datatype Field = Title | Description | Category | Budget | Skills | Token

  /** Whether `ProjectSchema` accepts one field of the form. */
  predicate FieldOk(fd: FormData, toNumber: string -> Option<real>, f: Field) {
    match f
    case Title => StringWithin(Get(fd, "title"), 5, 100)
    case Description => StringWithin(Get(fd, "description"), 50, 2000)
    case Category => Get(fd, "category").Some?
    case Budget =>
      var b := SubmittedBudget(fd, toNumber);
      b.Undefined? || (b.n.Some? && b.n.value > 0.0)
    case Skills =>
      && 1 <= |SubmittedSkills(fd)| <= 10
      && forall i :: 0 <= i < |SubmittedSkills(fd)| ==> |SubmittedSkills(fd)[i]| <= 50
    case Token => Get(fd, "token").Some? && Get(fd, "token").value != ""
  }

  const AllFields: set<Field> := {Title, Description, Category, Budget, Skills, Token}

  /** Every field passes. */
  predicate Valid(fd: FormData, toNumber: string -> Option<real>) {
    FieldOk(fd, toNumber, Title) && FieldOk(fd, toNumber, Description) && FieldOk(fd, toNumber, Category) && FieldOk(fd, toNumber, Budget) && FieldOk(fd, toNumber, Skills) && FieldOk(fd, toNumber, Token)
  }

  /** The fields `ProjectSchema` rejects (`error.flatten().fieldErrors`). */
  function ProjectErrors(fd: FormData, toNumber: string -> Option<real>): (errors: set<Field>)
    ensures forall f :: f in errors <==> !FieldOk(fd, toNumber, f)
    ensures errors == {} <==> Valid(fd, toNumber)
  {
    set f | f in AllFields && !FieldOk(fd, toNumber, f)
  }

  /** The skills field passes exactly when the kept skills are 1 to 10 entries of at most 50 characters. */
  lemma SkillsFieldOk(fd: FormData, toNumber: string -> Option<real>, skills: seq<string>)
    requires SubmittedSkills(fd) == skills
    ensures FieldOk(fd, toNumber, Skills) <==> 1 <= |skills| <= 10 && forall i :: 0 <= i < |skills| ==> |skills[i]| <= 50
  {
  }

  /** A budget text that `Number` cannot read (`NaN`) is refused, not sent. */
  lemma NaNBudgetRefused(fd: FormData, toNumber: string -> Option<real>)
    requires Get(fd, "budget").Some? && Get(fd, "budget").value != ""
    requires toNumber(Get(fd, "budget").value).None?
    ensures Budget in ProjectErrors(fd, toNumber)
  {
  }

  /** The request sent once the form is valid. */
  function ProjectRequestFor(fd: FormData, toNumber: string -> Option<real>): (r: ProjectRequest)
    requires Valid(fd, toNumber)
    ensures r.authorization == "Bearer " + Get(fd, "token").value
    ensures r.body.title == Get(fd, "title").value && r.body.description == Get(fd, "description").value
    ensures r.body.category == Get(fd, "category").value && r.body.skills == SubmittedSkills(fd)
    ensures r.body.budget.None? <==> SubmittedBudget(fd, toNumber).Undefined?
    ensures r.body.budget.Some? ==> Some(r.body.budget.value) == SubmittedBudget(fd, toNumber).n && r.body.budget.value > 0.0
    ensures 1 <= |r.body.skills| <= 10
  {
    ProjectRequest("Bearer " + Get(fd, "token").value,
      ProjectData(Get(fd, "title").value, Get(fd, "description").value, Get(fd, "category").value,
        if SubmittedBudget(fd, toNumber).Coerced? then SubmittedBudget(fd, toNumber).n else None,
        SubmittedSkills(fd)))
  }

  const NetworkFallback: string := "Network error: Could not post project. Please try again."

  /** `postProject`. An invalid form is answered at once and nothing is sent;
      otherwise the request goes out and `outcome` is the API's answer. */
  method Post(fd: FormData, toNumber: string -> Option<real>, outcome: Outcome)
    returns (sent: Option<ProjectRequest>, state: ActionState<Field>)
    ensures ProjectErrors(fd, toNumber) != {} ==> sent.None? && state == ValidationFailed(ProjectErrors(fd, toNumber))
    ensures ProjectErrors(fd, toNumber) == {} ==> sent == Some(ProjectRequestFor(fd, toNumber))
    ensures ProjectErrors(fd, toNumber) == {} && outcome.Replied? && outcome.status == 400 ==>
      state == FieldErrors(ArrayFields(outcome.body))
    ensures ProjectErrors(fd, toNumber) == {} && !(outcome.Replied? && outcome.status == 400) ==>
      state == ReplyState(outcome, map[], NetworkFallback)
    ensures state.Succeeded? ==> sent.Some? && outcome.Replied? && Ok(outcome.status)
  {
    var errors := ProjectErrors(fd, toNumber);
    if errors != {} {
      return None, ValidationFailed(errors);
    }
    sent := Some(ProjectRequestFor(fd, toNumber));
    var fieldErrors := map[];
    if outcome.Replied? && outcome.status == 400 {
      fieldErrors := CollectArrayFields(outcome.body);
    }
    state := ReplyState(outcome, fieldErrors, NetworkFallback);
  }
}
