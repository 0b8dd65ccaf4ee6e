/** The profile edit form of the profile components: pre-filled from the
    signed-in user's profile, checked by its own schema, and sent to
    `updateMyProfile` with the skills split out of their comma-separated field
    and the rate parsed. */
module ProfileEditForm {
  import opened Common
  import opened Text
  import opened ProfileInput

  /** The profile the auth context holds; a missing or null field is None. The
      rate is given as its text (`hourly_rate.toString()`). */
  datatype UserProfile = UserProfile(
    name: Option<string>, bio: Option<string>, skills: Option<seq<string>>, hourlyRate: Option<string>)

  /** The form's four text fields. */
  datatype ProfileValues = ProfileValues(name: string, bio: string, skills: string, hourlyRate: string)

  /** What `updateMyProfile` receives. */
  datatype ProfileData = ProfileData(name: string, bio: string, skills: seq<string>, hourlyRate: Option<real>)

  /** `x || ""` for an optional text. */
  function OrEmpty(x: Option<string>): (s: string)
    ensures x.None? ==> s == ""
    ensures x.Some? ==> s == x.value
  {
    if x.Some? then x.value else ""
  }

  /** The fields pre-filled from a profile, or all empty without one. */
  function Defaults(profile: Option<UserProfile>): (v: ProfileValues)
    ensures profile.None? ==> v == ProfileValues("", "", "", "")
  {
    match profile
    case None => ProfileValues("", "", "", "")
    case Some(p) =>
      ProfileValues(OrEmpty(p.name), OrEmpty(p.bio),
        if p.skills.Some? then JoinWith(p.skills.value, ", ") else "",
        RateText(p.hourlyRate))
  }

  // ---------------------------------------------------------------------------
  // Schema
  // ---------------------------------------------------------------------------

  /** The fields the schema constrains; skills and rate are any text. */
  datatype Field = Name | Bio

  predicate FieldOk(v: ProfileValues, f: Field) {
    match f
    case Name => 2 <= |v.name| <= 50
    case Bio => |v.bio| <= 500
  }

  predicate Valid(v: ProfileValues) {
    FieldOk(v, Name) && FieldOk(v, Bio)
  }

  /** The fields the form marks invalid; the form submits only when there are none. */
  function FormErrors(v: ProfileValues): (errors: set<Field>)
    ensures forall f :: f in errors <==> !FieldOk(v, f)
    ensures errors == {} <==> Valid(v)
  {
    set f | f in {Name, Bio} && !FieldOk(v, f)
  }

  /** The data sent for valid fields: name and bio as typed, the skills split
      on commas and trimmed with empty pieces dropped, the rate parsed or null. */
  function SubmitPayload(v: ProfileValues, parseFloat: string -> Option<real>): (d: ProfileData)
    ensures d.name == v.name && d.bio == v.bio
    ensures forall i :: 0 <= i < |d.skills| ==> IsListItem(d.skills[i])
    ensures v.skills == "" ==> d.skills == []
    ensures v.hourlyRate == "" ==> d.hourlyRate.None?
    ensures v.hourlyRate != "" ==> d.hourlyRate == parseFloat(v.hourlyRate)
  {
    ProfileData(v.name, v.bio, SkillsFromText(v.skills), RateFromText(v.hourlyRate, parseFloat))
  }

  // ---------------------------------------------------------------------------
  // Pre-fill and submit
  // ---------------------------------------------------------------------------

  /** Without a profile the name field is empty, so the form cannot be submitted
      until a name is typed. */
  lemma NoProfileBlocksSubmit()
    ensures FormErrors(Defaults(None)) == {Name}
  {
    assert !FieldOk(Defaults(None), Name);
    assert FieldOk(Defaults(None), Bio);
  }

  /** A pre-filled form passes the schema exactly when the stored name has 2 to
      50 characters and the stored bio at most 500. */
  lemma PrefillValidity(p: UserProfile)
    ensures Valid(Defaults(Some(p))) <==> 2 <= |OrEmpty(p.name)| <= 50 && |OrEmpty(p.bio)| <= 500
  {
  }

  /** Submitting the pre-filled form unchanged sends the stored profile back:
      the same name and bio (empty for missing ones), the same skills when each
      is non-empty, trimmed and comma-free, and the stored rate parsed again. */
  lemma PrefillSubmitsStored(p: UserProfile, parseFloat: string -> Option<real>)
    requires p.skills.Some? ==> forall i :: 0 <= i < |p.skills.value| ==> IsListItem(p.skills.value[i])
    ensures var d := SubmitPayload(Defaults(Some(p)), parseFloat);
      && d.name == OrEmpty(p.name) && d.bio == OrEmpty(p.bio)
      && d.skills == (if p.skills.Some? then p.skills.value else [])
      && (p.hourlyRate.None? ==> d.hourlyRate.None?)
      && (p.hourlyRate.Some? && p.hourlyRate.value != "" ==> d.hourlyRate == parseFloat(p.hourlyRate.value))
  {
    if p.skills.Some? {
      SkillsTextRoundTrip(p.skills.value);
    }
    RateRoundTrip(p.hourlyRate, parseFloat);
  }

  /** The toast shown after a submission. */
  datatype Toast = Updated | UpdateFailed(description: string)

  const UnexpectedError: string := "An unexpected error occurred."

  /** The toast for the API's answer: its truthy `error`, the fixed sentence
      for an exception, success otherwise. */
  function ReplyToast(reply: Reply<bool>): (t: Toast)
    ensures t.Updated? <==> reply.Reply? && (reply.error.None? || reply.error.value == "")
    ensures reply.Threw? ==> t == UpdateFailed(UnexpectedError)
    ensures reply.Reply? && reply.error.Some? && reply.error.value != "" ==> t == UpdateFailed(reply.error.value)
  {
    match reply
    case Threw => UpdateFailed(UnexpectedError)
    case Reply(_, error) => if error.Some? && error.value != "" then UpdateFailed(error.value) else Updated
  }

  class EditForm {
    var values: ProfileValues
    var isLoading: bool

    /** The form as first rendered for the profile at hand. */
    constructor (profile: Option<UserProfile>)
      ensures values == Defaults(profile) && !isLoading
    {
      values := Defaults(profile);
      isLoading := false;
    }

    /** The effect run when the context's profile changes: a profile resets the
        fields, none leaves them. */
    method ProfileChanged(profile: Option<UserProfile>)
      modifies this
      ensures profile.Some? ==> values == Defaults(profile)
      ensures profile.None? ==> values == old(values)
      ensures isLoading == old(isLoading)
    {
      if profile.Some? {
        values := Defaults(profile);
      }
    }

    /** The user edits the fields. */
    method Edit(v: ProfileValues)
      modifies this
      ensures values == v && isLoading == old(isLoading)
    {
      values := v;
    }

    /** Submitting: invalid fields stop it before anything is sent; valid ones
        send the payload, show the toast for the answer, ask the context to
        refresh the profile on success, and end with loading off. */
    method Submit(parseFloat: string -> Option<real>, reply: Reply<bool>)
      returns (sent: Option<ProfileData>, toast: Option<Toast>, refreshed: bool)
      modifies this
      ensures values == old(values)
      ensures !Valid(values) ==> sent.None? && toast.None? && !refreshed && isLoading == old(isLoading)
      ensures Valid(values) ==> sent == Some(SubmitPayload(values, parseFloat)) && toast == Some(ReplyToast(reply)) && !isLoading
      ensures refreshed <==> Valid(values) && ReplyToast(reply).Updated?
    {
      if FormErrors(values) != {} {
        return None, None, false;
      }
      isLoading := true;
      sent := Some(SubmitPayload(values, parseFloat));
      var t := ReplyToast(reply);
      toast := Some(t);
      refreshed := t.Updated?;
      isLoading := false;
    }
  }
}
