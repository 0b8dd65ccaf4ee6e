/** The post-project form: its client-side schema, the form data it submits
    to the post-project action, and the rule that disables it. The schema is
    meant to match the action's; `ValidFormPassesAction` proves that a form
    the client accepts, with skills from the skill editor, passes the action's
    schema and reaches the API unchanged. */
module ProjectForm {
  import opened Common
  import opened Text
  import opened Accounts
  import opened SkillEditor
  import opened ServerActions
  import PostProject

  /** The form's values after zod's coercion: `budget` is None while the field
      was never filled (`undefined`), else the coerced number. */
  datatype ProjectFormValues = ProjectFormValues(
    title: string, description: string, category: Option<string>, budget: Option<real>, skills: seq<string>)

  datatype FormField = Title | Description | Category | Budget | Skills

  /** Whether `projectFormSchema` accepts one field. The category is only
      required to be a string, so the empty default passes. */
  predicate FormFieldOk(v: ProjectFormValues, f: FormField) {
    match f
    case Title => 5 <= |v.title| <= 100
    case Description => 50 <= |v.description| <= 2000
    case Category => v.category.Some?
    case Budget => v.budget.None? || v.budget.value > 0.0
    case Skills => 1 <= |v.skills| <= 10 && forall i :: 0 <= i < |v.skills| ==> 1 <= |v.skills[i]| <= 50
  }

  const AllFormFields: set<FormField> := {Title, Description, Category, Budget, Skills}

  /** Every field passes. */
  predicate FormValid(v: ProjectFormValues) {
    FormFieldOk(v, Title) && FormFieldOk(v, Description) && FormFieldOk(v, Category)
    && FormFieldOk(v, Budget) && FormFieldOk(v, Skills)
  }

  /** The fields `projectFormSchema` rejects; the form submits when there are none. */
  function FormErrors(v: ProjectFormValues): (errors: set<FormField>)
    ensures forall f :: f in errors <==> !FormFieldOk(v, f)
    ensures errors == {} <==> FormValid(v)
  {
    set f | f in AllFormFields && !FormFieldOk(v, f)
  }

  /** A skill list the editor keeps always satisfies the schema's bound on
      entries; only emptiness can make the skills field fail. */
  lemma EditorSkillsPassSchema(v: ProjectFormValues)
    requires WellFormedSkills(v.skills, ProjectSkillCap)
    requires forall i :: 0 <= i < |v.skills| ==> |v.skills[i]| <= 50
    ensures FormFieldOk(v, Skills) <==> v.skills != []
  {
  }

  /** The form data `handleFormSubmit` builds: title, description, category,
      the budget only when it is truthy (`numberText` is `toString`), one
      `skills` entry per skill in order, and the token last. */
  function FormEntries(v: ProjectFormValues, token: string, numberText: real -> string): FormData
    requires v.category.Some?
  {
    [("title", v.title), ("description", v.description), ("category", v.category.value)]
    + BudgetEntry(v.budget, numberText)
    + SkillEntries(v.skills)
    + [("token", token)]
  }

  function BudgetEntry(budget: Option<real>, numberText: real -> string): (r: FormData)
    ensures |r| <= 1
  {
    if budget.Some? && budget.value != 0.0 then [("budget", numberText(budget.value))] else []
  }

  function SkillEntries(skills: seq<string>): (r: FormData)
    ensures |r| == |skills|
    ensures forall i :: 0 <= i < |r| ==> r[i] == ("skills", skills[i])
  {
    seq(|skills|, i requires 0 <= i < |skills| => ("skills", skills[i]))
  }

  /** Reading the skill entries back gives the skills. */
  lemma {:induction false} SkillEntriesRoundTrip(skills: seq<string>)
    ensures GetAll(SkillEntries(skills), "skills") == skills
  {
    if skills != [] {
      assert SkillEntries(skills)[1..] == SkillEntries(skills[1..]);
      SkillEntriesRoundTrip(skills[1..]);
      assert [skills[0]] + skills[1..] == skills;
    }
  }

  /** No skill entry carries another name. */
  lemma SkillEntriesOnlySkills(skills: seq<string>, name: string)
    requires name != "skills"
    ensures Get(SkillEntries(skills), name).None? && GetAll(SkillEntries(skills), name) == []
  {
    var r := SkillEntries(skills);
    assert forall i :: 0 <= i < |r| ==> r[i].0 != name;
    GetIsFirstOfGetAll(r, name);
  }

  /** What happens on submit. */
  datatype SubmitOutcome =
    | Ignored                       // no user or no profile: nothing happens
    | MissingToken                  // the "Authentication Error" toast
    | Dispatched(formData: FormData)

  /** `handleFormSubmit`, called with values the schema accepted. The form
      data is built entry by entry, as the handler appends to it. */
  method HandleFormSubmit(v: ProjectFormValues, hasUser: bool, hasProfile: bool, token: Option<string>,
                          numberText: real -> string)
    returns (outcome: SubmitOutcome)
    requires FormValid(v)
    ensures !hasUser || !hasProfile ==> outcome == Ignored
    ensures hasUser && hasProfile && (token.None? || token.value == "") ==> outcome == MissingToken
    ensures hasUser && hasProfile && token.Some? && token.value != "" ==>
      outcome == Dispatched(FormEntries(v, token.value, numberText))
  {
    if !hasUser || !hasProfile {
      return Ignored;
    }
    if token.None? || token.value == "" {
      return MissingToken;
    }
    assert FormFieldOk(v, Category);
    var fd: FormData := [("title", v.title), ("description", v.description), ("category", v.category.value)];
    if v.budget.Some? && v.budget.value != 0.0 {
      fd := fd + [("budget", numberText(v.budget.value))];
    }
    var head := fd;
    var i := 0;
    while i < |v.skills|
      invariant 0 <= i <= |v.skills|
      invariant fd == head + SkillEntries(v.skills[..i])
    {
      assert SkillEntries(v.skills[..i + 1]) == SkillEntries(v.skills[..i]) + [("skills", v.skills[i])];
      fd := fd + [("skills", v.skills[i])];
      i := i + 1;
    }
    assert v.skills[..i] == v.skills;
    fd := fd + [("token", token.value)];
    outcome := Dispatched(fd);
  }

  /** `isFormDisabled`: while the session loads, without a user, or for any
      role but client. */
  predicate IsFormDisabled(loadingAuth: bool, user: Option<Role>) {
    loadingAuth || user.None? || user.value != Client
  }

  /** Only a signed-in client with the session loaded can use the form. */
  lemma FormEnabledOnlyForClients(loadingAuth: bool, user: Option<Role>)
    ensures !IsFormDisabled(loadingAuth, user) <==> !loadingAuth && user == Some(Client)
  {
  }

  /** The first three entries, read by name. */
  lemma HeadEntries(v: ProjectFormValues, name: string)
    requires v.category.Some?
    ensures var head: FormData := [("title", v.title), ("description", v.description), ("category", v.category.value)];
      && Get(head, name) == (if name == "title" then Some(v.title) else if name == "description" then Some(v.description)
                            else if name == "category" then Some(v.category.value) else None)
      && (name != "title" && name != "description" && name != "category" ==> GetAll(head, name) == [])
  {
    var c: FormData := [("category", v.category.value)];
    GetCons(("category", v.category.value), [], name);
    assert [("category", v.category.value)] + [] == c;
    GetCons(("description", v.description), c, name);
    GetCons(("title", v.title), [("description", v.description)] + c, name);
    assert [("title", v.title)] + ([("description", v.description)] + c)
      == [("title", v.title), ("description", v.description), ("category", v.category.value)];
  }

  /** The named entries of the submitted form read back as the values. */
  lemma FormEntriesRead(v: ProjectFormValues, token: string, numberText: real -> string)
    requires v.category.Some?
    ensures var fd := FormEntries(v, token, numberText);
      && Get(fd, "title") == Some(v.title)
      && Get(fd, "description") == Some(v.description)
      && Get(fd, "category") == Some(v.category.value)
      && Get(fd, "budget") == (if v.budget.Some? && v.budget.value != 0.0 then Some(numberText(v.budget.value)) else None)
      && Get(fd, "token") == Some(token)
  {
    HeadEntryRead(v, token, numberText, "title");
    HeadEntryRead(v, token, numberText, "description");
    HeadEntryRead(v, token, numberText, "category");
    TailEntriesRead(v, token, numberText);
  }

  /** A name among the first three entries reads back from the whole form. */
  lemma HeadEntryRead(v: ProjectFormValues, token: string, numberText: real -> string, name: string)
    requires v.category.Some?
    requires name == "title" || name == "description" || name == "category"
    ensures Get(FormEntries(v, token, numberText), name)
      == Some(if name == "title" then v.title else if name == "description" then v.description else v.category.value)
  {
    var head: FormData := [("title", v.title), ("description", v.description), ("category", v.category.value)];
    var rest := BudgetEntry(v.budget, numberText) + SkillEntries(v.skills) + [("token", token)];
    assert FormEntries(v, token, numberText) == head + rest;
    HeadEntries(v, name);
    GetAppend(head, rest, name);
  }

  /** The budget and the token, past the first three entries and the skills. */
  lemma TailEntriesRead(v: ProjectFormValues, token: string, numberText: real -> string)
    requires v.category.Some?
    ensures var fd := FormEntries(v, token, numberText);
      && Get(fd, "budget") == (if v.budget.Some? && v.budget.value != 0.0 then Some(numberText(v.budget.value)) else None)
      && Get(fd, "token") == Some(token)
  {
    var head: FormData := [("title", v.title), ("description", v.description), ("category", v.category.value)];
    var budget := BudgetEntry(v.budget, numberText);
    var skills := SkillEntries(v.skills);
    var tail: FormData := [("token", token)];
    assert FormEntries(v, token, numberText) == head + (budget + (skills + tail));
    HeadEntries(v, "budget");
    HeadEntries(v, "token");
    SkillEntriesOnlySkills(v.skills, "budget");
    SkillEntriesOnlySkills(v.skills, "token");
    GetAppend(skills, tail, "budget");
    GetAppend(skills, tail, "token");
    GetAppend(budget, skills + tail, "budget");
    GetAppend(budget, skills + tail, "token");
    GetAppend(head, budget + (skills + tail), "budget");
    GetAppend(head, budget + (skills + tail), "token");
  }

  /** The `skills` entries of the submitted form read back as the skills. */
  lemma FormEntriesSkills(v: ProjectFormValues, token: string, numberText: real -> string)
    requires v.category.Some?
    ensures GetAll(FormEntries(v, token, numberText), "skills") == v.skills
  {
    var head: FormData := [("title", v.title), ("description", v.description), ("category", v.category.value)];
    var budget := BudgetEntry(v.budget, numberText);
    var skills := SkillEntries(v.skills);
    var tail: FormData := [("token", token)];
    assert FormEntries(v, token, numberText) == head + (budget + (skills + tail));
    HeadEntries(v, "skills");
    GetAllAppend(head, budget + (skills + tail), "skills");
    GetAllAppend(budget, skills + tail, "skills");
    GetAllAppend(skills, tail, "skills");
    SkillEntriesRoundTrip(v.skills);
    assert GetAll(head, "skills") == [] && GetAll(budget, "skills") == [] && GetAll(tail, "skills") == [];
  }

  /** Skills from the skill editor survive the action's blank filter. */
  lemma TrimmedSkillsKept(skills: seq<string>)
    requires forall i :: 0 <= i < |skills| ==> skills[i] != [] && IsTrimmed(skills[i])
    ensures Filter(skills, (s: string) => !IsBlank(s)) == skills
  {
    forall i | 0 <= i < |skills| ensures !IsBlank(skills[i]) {
      TrimmedIsFixpoint(skills[i]);
    }
    FilterAllPass(skills, (s: string) => !IsBlank(s));
  }

  /** What the post-project action reads from the submitted form. */
  lemma ActionReadsForm(v: ProjectFormValues, token: string,
                        numberText: real -> string, toNumber: string -> Option<real>)
    requires v.category.Some?
    requires forall i :: 0 <= i < |v.skills| ==> v.skills[i] != [] && IsTrimmed(v.skills[i])
    requires v.budget.Some? && v.budget.value != 0.0 ==>
      numberText(v.budget.value) != "" && toNumber(numberText(v.budget.value)) == v.budget
    ensures var fd := FormEntries(v, token, numberText);
      && Get(fd, "title") == Some(v.title)
      && Get(fd, "description") == Some(v.description)
      && Get(fd, "category") == Some(v.category.value)
      && Get(fd, "token") == Some(token)
      && PostProject.SubmittedSkills(fd) == v.skills
      && PostProject.SubmittedBudget(fd, toNumber)
           == (if v.budget.None? || v.budget == Some(0.0) then PostProject.Undefined else PostProject.Coerced(v.budget))
  {
    FormEntriesRead(v, token, numberText);
    FormEntriesSkills(v, token, numberText);
    TrimmedSkillsKept(v.skills);
  }

  /** Values the client schema accepts, with skills from the skill editor and
      a stored token, pass every field of the post-project action's schema. */
  lemma ValidFormValidForAction(v: ProjectFormValues, token: string,
                                numberText: real -> string, toNumber: string -> Option<real>)
    requires FormValid(v)
    requires forall i :: 0 <= i < |v.skills| ==> v.skills[i] != [] && IsTrimmed(v.skills[i])
    requires token != ""
    requires v.budget.Some? ==> numberText(v.budget.value) != "" && toNumber(numberText(v.budget.value)) == v.budget
    ensures v.category.Some?
    ensures PostProject.Valid(FormEntries(v, token, numberText), toNumber)
  {
    ActionReadsForm(v, token, numberText, toNumber);
    ReadValuesValid(FormEntries(v, token, numberText), toNumber, v.title, v.description,
      if v.budget == Some(0.0) then None else v.budget, v.skills);
  }

  /** Form data whose entries read back as values within the action schema's
      bounds passes that schema. */
  lemma ReadValuesValid(fd: FormData, toNumber: string -> Option<real>, title: string, description: string,
                        budget: Option<real>, skills: seq<string>)
    requires Get(fd, "title") == Some(title) && 5 <= |title| <= 100
    requires Get(fd, "description") == Some(description) && 50 <= |description| <= 2000
    requires Get(fd, "category").Some? && Get(fd, "token").Some? && Get(fd, "token").value != ""
    requires PostProject.SubmittedBudget(fd, toNumber) == (if budget.None? then PostProject.Undefined else PostProject.Coerced(budget))
    requires budget.None? || budget.value > 0.0
    requires PostProject.SubmittedSkills(fd) == skills && 1 <= |skills| <= 10
    requires forall i :: 0 <= i < |skills| ==> |skills[i]| <= 50
    ensures PostProject.Valid(fd, toNumber)
  {
    PostProject.SkillsFieldOk(fd, toNumber, skills);
  }

  /** The schemas agree: values the client schema accepts, with skills from
      the skill editor (trimmed, non-blank) and a stored token, pass the
      post-project action's schema, and the action sends exactly those values,
      the token only in the header. `toNumber` (`Number`) must read back the
      budget's text. */
  lemma ValidFormPassesAction(v: ProjectFormValues, token: string,
                              numberText: real -> string, toNumber: string -> Option<real>)
    requires FormValid(v)
    requires forall i :: 0 <= i < |v.skills| ==> v.skills[i] != [] && IsTrimmed(v.skills[i])
    requires token != ""
    requires v.budget.Some? ==> numberText(v.budget.value) != "" && toNumber(numberText(v.budget.value)) == v.budget
    ensures v.category.Some?
    ensures PostProject.ProjectErrors(FormEntries(v, token, numberText), toNumber) == {}
    ensures PostProject.ProjectRequestFor(FormEntries(v, token, numberText), toNumber)
      == PostProject.ProjectRequest("Bearer " + token,
           PostProject.ProjectData(v.title, v.description, v.category.value, v.budget, v.skills))
  {
    ValidFormValidForAction(v, token, numberText, toNumber);
    assert FormFieldOk(v, Budget);
    ActionReadsForm(v, token, numberText, toNumber);
  }
}
