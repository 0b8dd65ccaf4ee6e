/** The profile edit page: it loads the stored profile into its fields, edits
    the skills with the 20-entry editor, and saves bio, location, rate and
    skills, sending the user to their dashboard afterwards. */
module ProfileEditPage {
  import opened Common
  import opened Text
  import opened Accounts
  import opened SkillEditor
  import opened ProfileInput
  import opened Display

  /** The profile as `getMyProfile` returns it; a missing or null field is None.
      The rate arrives as the decimal's text. */
  datatype StoredProfile = StoredProfile(
    bio: Option<string>, location: Option<string>, hourlyRate: Option<string>, skills: Option<seq<string>>)

  /** What `handleSave` sends. */
  datatype SavePayload = SavePayload(bio: string, location: string, hourlyRate: Option<real>, skills: seq<string>)

  /** The payload for the page's fields: bio and location trimmed, the rate
      parsed or null when empty, the skills as they are. */
  function PayloadFor(bio: string, location: string, hourlyRate: string, skills: seq<string>,
                      parseFloat: string -> Option<real>): (p: SavePayload)
    ensures IsTrimmed(p.bio) && IsTrimmed(p.location)
    ensures exists k :: Padded(bio, p.bio, k, IsSpace)
    ensures exists k :: Padded(location, p.location, k, IsSpace)
    ensures hourlyRate == "" ==> p.hourlyRate.None?
    ensures hourlyRate != "" ==> p.hourlyRate == parseFloat(hourlyRate)
    ensures p.skills == skills
  {
    SavePayload(Trim(bio), Trim(location), RateFromText(hourlyRate, parseFloat), skills)
  }

  /** Saving twice sends the same bio and location: trimming is idempotent. */
  lemma PayloadStable(bio: string, location: string, hourlyRate: string, skills: seq<string>,
                      parseFloat: string -> Option<real>)
    ensures var p := PayloadFor(bio, location, hourlyRate, skills, parseFloat);
      PayloadFor(p.bio, p.location, hourlyRate, skills, parseFloat) == p
  {
    TrimIdempotent(bio);
    TrimIdempotent(location);
  }

  /** Where a successful save goes. */
  function DashboardFor(role: Option<Role>): (path: string)
    ensures role == Some(Freelancer) <==> path == "/freelancer/dashboard"
    ensures role != Some(Freelancer) <==> path == "/client/dashboard"
  {
    if role == Some(Freelancer) then "/freelancer/dashboard" else "/client/dashboard"
  }

  const PreviewSkillLimit: nat := 6

  class EditPage {
    var bio: string
    var location: string
    var hourlyRate: string
    const editor: SkillList
    var loading: bool

    /** The page's initial state: empty fields, loading. */
    constructor ()
      ensures bio == "" && location == "" && hourlyRate == "" && loading
      ensures fresh(editor) && editor.cap == ProfileSkillCap && editor.skills == [] && editor.input == ""
    {
      bio, location, hourlyRate := "", "", "";
      editor := new SkillList(ProfileSkillCap, []);
      loading := true;
    }

    /** `fetchProfile`: a profile fills the fields, `''` or `[]` standing in for
        anything missing; an error or an exception leaves them. Loading ends
        either way. */
    method FetchProfile(reply: Reply<StoredProfile>)
      modifies this, editor
      ensures !loading
      ensures reply.Reply? && reply.data.Some? ==> (
        var p := reply.data.value;
        && bio == (if p.bio.Some? then p.bio.value else "")
        && location == (if p.location.Some? then p.location.value else "")
        && hourlyRate == RateText(p.hourlyRate)
        && editor.skills == (if p.skills.Some? then p.skills.value else []))
      ensures !(reply.Reply? && reply.data.Some?) ==> (
        && bio == old(bio) && location == old(location) && hourlyRate == old(hourlyRate)
        && editor.skills == old(editor.skills))
      ensures editor.input == old(editor.input)
    {
      loading := true;
      if reply.Reply? && reply.data.Some? {
        var p := reply.data.value;
        bio := if p.bio.Some? then p.bio.value else "";
        location := if p.location.Some? then p.location.value else "";
        hourlyRate := RateText(p.hourlyRate);
        editor.skills := if p.skills.Some? then p.skills.value else [];
      }
      loading := false;
    }

    /** `handleSave`: the payload of the current fields goes out; a reply
        with data redirects by role, anything else stays on the page. */
    method HandleSave(role: Option<Role>, parseFloat: string -> Option<real>, reply: Reply<bool>)
      returns (sent: SavePayload, redirect: Option<string>)
      ensures sent == PayloadFor(bio, location, hourlyRate, editor.skills, parseFloat)
      ensures reply.Reply? && reply.data.Some? <==> redirect.Some?
      ensures redirect.Some? ==> redirect.value == DashboardFor(role)
    {
      sent := PayloadFor(bio, location, hourlyRate, editor.skills, parseFloat);
      redirect := None;
      if reply.Reply? && reply.data.Some? {
        redirect := Some(DashboardFor(role));
      }
    }

    /** The preview card's skill row. */
    function Preview(): (b: Badges)
      reads this, editor
      ensures |b.shown| == Min(|editor.skills|, PreviewSkillLimit)
      ensures b.more.Some? <==> |editor.skills| > PreviewSkillLimit
    {
      SkillBadges(editor.skills, PreviewSkillLimit)
    }
  }
}
