/** The update-profile server action: validation, the profile update sent to
    the API with the skills and rate fields parsed, and the reported result. */
module UpdateProfile {
  import opened Common
  import opened Text
  import opened ServerActions
  import opened ProfileInput

  /** The update as the API receives it. The token and the raw skills and rate
      texts stay out. */
  datatype UpdateData = UpdateData(name: string, bio: string, skills: seq<string>, hourlyRate: Option<real>)

  datatype UpdateRequest = UpdateRequest(authorization: string, body: UpdateData)

  datatype Field = Name | Bio | Skills | HourlyRate | Token

  /** Whether `UpdateProfileSchema` accepts one field. `get` answers `null` for
      a missing entry and `.optional()` admits only `undefined`, so the bio,
      skills and rate entries must be present. */
  predicate FieldOk(fd: FormData, f: Field) {
    match f
    case Name => Get(fd, "name").Some? && 2 <= |Get(fd, "name").value| <= 50
    case Bio => Get(fd, "bio").Some? && |Get(fd, "bio").value| <= 500
    case Skills => Get(fd, "skills").Some?
    case HourlyRate => Get(fd, "hourly_rate").Some?
    case Token => Get(fd, "token").Some? && Get(fd, "token").value != ""
  }

  const AllFields: set<Field> := {Name, Bio, Skills, HourlyRate, Token}

  /** Every field passes. */
  predicate Valid(fd: FormData) {
    FieldOk(fd, Name) && FieldOk(fd, Bio) && FieldOk(fd, Skills) && FieldOk(fd, HourlyRate) && FieldOk(fd, Token)
  }

  /** The fields `UpdateProfileSchema` rejects. */
  function UpdateErrors(fd: FormData): (errors: set<Field>)
    ensures forall f :: f in errors <==> !FieldOk(fd, f)
    ensures errors == {} <==> Valid(fd)
  {
    set f | f in AllFields && !FieldOk(fd, f)
  }

  /** The update sent once the form is valid. */
  function UpdateFor(fd: FormData, parseFloat: string -> Option<real>): (r: UpdateRequest)
    requires Valid(fd)
    ensures r.authorization == "Bearer " + Get(fd, "token").value
    ensures r.body.name == Get(fd, "name").value && r.body.bio == Get(fd, "bio").value
    ensures forall i :: 0 <= i < |r.body.skills| ==> IsListItem(r.body.skills[i])
    ensures r.body.skills == SkillsFromText(Get(fd, "skills").value)
    ensures r.body.hourlyRate.None? <==>
      Get(fd, "hourly_rate").value == "" || parseFloat(Get(fd, "hourly_rate").value).None?
    ensures r.body.hourlyRate == RateFromText(Get(fd, "hourly_rate").value, parseFloat)
  {
    UpdateRequest("Bearer " + Get(fd, "token").value,
      UpdateData(Get(fd, "name").value, Get(fd, "bio").value,
        SkillsFromText(Get(fd, "skills").value), RateFromText(Get(fd, "hourly_rate").value, parseFloat)))
  }

  /** A skills entry written as `skills.join(", ")` reaches the API as the same list. */
  lemma JoinedSkillsReachApi(fd: FormData, parseFloat: string -> Option<real>, skills: seq<string>)
    requires Valid(fd)
    requires Get(fd, "skills") == Some(JoinWith(skills, ", "))
    requires forall i :: 0 <= i < |skills| ==> IsListItem(skills[i])
    ensures UpdateFor(fd, parseFloat).body.skills == skills
  {
    SkillsTextRoundTrip(skills);
  }

  const NetworkFallback: string := "Network error: Could not update profile. Please try again."

  /** `updateProfile`. */
  method Update(fd: FormData, parseFloat: string -> Option<real>, outcome: Outcome)
    returns (sent: Option<UpdateRequest>, state: ActionState<Field>)
    ensures UpdateErrors(fd) != {} ==> sent.None? && state == ValidationFailed(UpdateErrors(fd))
    ensures UpdateErrors(fd) == {} ==> sent == Some(UpdateFor(fd, parseFloat))
    ensures UpdateErrors(fd) == {} && outcome.Replied? && outcome.status == 400 ==>
      state == FieldErrors(ArrayFields(outcome.body))
    ensures UpdateErrors(fd) == {} && !(outcome.Replied? && outcome.status == 400) ==>
      state == ReplyState(outcome, map[], NetworkFallback)
    ensures state.Succeeded? ==> sent.Some? && outcome.Replied? && Ok(outcome.status)
  {
    var errors := UpdateErrors(fd);
    if errors != {} {
      return None, ValidationFailed(errors);
    }
    sent := Some(UpdateFor(fd, parseFloat));
    var fieldErrors := map[];
    if outcome.Replied? && outcome.status == 400 {
      fieldErrors := CollectArrayFields(outcome.body);
    }
    state := ReplyState(outcome, fieldErrors, NetworkFallback);
  }
}
