/** Freelancer profiles and video demos: the records and their defaults, the
    avatar storage path, the serializer's `avatar_url` and read-only fields, the
    data-URL parsing of `update_my_profile`, and the ownership and visibility
    rules of the profile and demo detail views. */
module Profiles {
  import opened Common
  import opened Text
  import opened Sorting

  /** A profile. `avatar` is the stored file name, `""` when there is none;
      `rating` is a two-decimal value below 10 in magnitude. */
  datatype Profile = Profile(
    id: nat, user: nat, headline: string, bio: string, skills: seq<string>,
    hourlyRate: Option<real>, location: string, website: string, avatar: string,
    rating: real, totalProjects: nat, createdAt: int)

  /** What `DecimalField(max_digits=3, decimal_places=2)` can hold. */
  predicate RatingRepresentable(r: real) {
    -9.99 <= r <= 9.99 && (r * 100.0).Floor as real == r * 100.0
  }

  /** The profile `get_or_create` makes for a user who has none. */
  function NewProfile(id: nat, user: nat, now: int): (p: Profile)
    ensures p.user == user && p.rating == 0.0 && p.totalProjects == 0
    ensures p.skills == [] && p.hourlyRate.None? && p.avatar == "" && p.bio == "" && p.location == ""
    ensures RatingRepresentable(p.rating)
  {
    Profile(id, user, "", "", [], None, "", "", "", 0.0, 0, now)
  }

  /** At most one profile per user. */
  ghost predicate OneProfilePerUser(profiles: seq<Profile>) {
    forall i, j :: 0 <= i < j < |profiles| ==> profiles[i].user != profiles[j].user
  }

  /** `user_avatar_path`: the uploaded file name plays no part. */
  function AvatarPath(userId: nat, filename: string): (r: string)
    ensures StartsWith(r, "avatars/") && EndsWith(r, "/avatar.jpg")
  {
    "avatars/" + NatToString(userId) + "/avatar.jpg"
  }

  /** Where the storage puts the avatar: `AvatarPath` when that name is free;
      when it is taken (by the previous upload, which is not deleted), the
      storage inserts its own `suffix` before the extension. */
  function StoredAvatarPath(userId: nat, suffix: string): (r: string)
    ensures StartsWith(r, "avatars/" + NatToString(userId) + "/avatar") && EndsWith(r, ".jpg")
    ensures suffix == "" ==> r == AvatarPath(userId, "avatar.jpg")
  {
    var dir := "avatars/" + NatToString(userId) + "/avatar";
    var r := dir + suffix + ".jpg";
    assert r[..|dir|] == dir;
    r
  }

  /** Reads the user id back out of an avatar path. */
  function AvatarPathOwner(path: string): Option<nat>
  {
    if |path| > 19 && path[..8] == "avatars/" && path[|path| - 11..] == "/avatar.jpg"
       && AllDigits(path[8..|path| - 11])
    then Some(ParseDigits(path[8..|path| - 11]))
    else None
  }

  /** The path names the user it was made for, so two users never share an avatar path. */
  lemma AvatarPathNamesOwner(userId: nat, filename: string)
    ensures AvatarPathOwner(AvatarPath(userId, filename)) == Some(userId)
  {
    var digits := NatToString(userId);
    var path := AvatarPath(userId, filename);
    assert path[8..|path| - 11] == digits;
    DigitsRoundTrip(userId);
  }

  lemma AvatarPathInjective(u: nat, v: nat, f: string, g: string)
    requires AvatarPath(u, f) == AvatarPath(v, g)
    ensures u == v
  {
    AvatarPathNamesOwner(u, f);
    AvatarPathNamesOwner(v, g);
  }

  /** `get_avatar_url`: nothing without an avatar; with a request, the media URL
      made absolute against the request's origin; otherwise the media URL itself. */
  function AvatarUrl(avatar: string, mediaUrl: string, origin: Option<string>): (r: Option<string>)
    ensures r.None? <==> avatar == ""
    ensures r.Some? ==> EndsWith(r.value, mediaUrl + avatar)
    ensures r.Some? && origin.Some? ==> StartsWith(r.value, origin.value)
    ensures r.Some? && origin.None? ==> StartsWith(r.value, mediaUrl)
  {
    if avatar == "" then None
    else
      var url := mediaUrl + avatar;
      match origin
      case Some(o) =>
        var r := o + url;
        assert r[|r| - |url|..] == url;
        assert r[..|o|] == o;
        Some(r)
      case None =>
        assert url[..|mediaUrl|] == mediaUrl;
        Some(url)
  }

  /** The writable profile fields a (partial) update may carry; the read-only
      ones a client may send as well are listed so that the model can ignore them.
      `avatar` is left out (None), `null` (Some(None)), or an uploaded file,
      given by the name the storage stored it under. */
  datatype ProfileInput = ProfileInput(
    headline: Option<string>, bio: Option<string>, skills: Option<seq<string>>,
    hourlyRate: Option<Option<real>>, location: Option<string>, website: Option<string>,
    avatar: Option<Option<string>>,
    rating: Option<real>, totalProjects: Option<nat>, user: Option<nat>)

  function Pick<T>(given: Option<T>, current: T): T {
    match given case Some(v) => v case None => current
  }

  /** A text field of the update: a value sent is stored stripped. */
  function PickText(given: Option<string>, current: string): string {
    match given case Some(v) => PyStrip(v) case None => current
  }

  /** A serializer update: each writable field sent replaces the stored one,
      the text fields with surrounding Python white space stripped; fields not
      sent keep their value; a `null` avatar clears it; id, user, rating, total
      projects and creation time never change. */
  function ApplyProfileUpdate(p: Profile, input: ProfileInput): (q: Profile)
    ensures q.id == p.id && q.user == p.user && q.rating == p.rating
    ensures q.totalProjects == p.totalProjects && q.createdAt == p.createdAt
    ensures input.avatar.None? ==> q.avatar == p.avatar
    ensures input.avatar == Some(None) ==> q.avatar == ""
    ensures input.avatar.Some? && input.avatar.value.Some? ==> q.avatar == input.avatar.value.value
    ensures input.headline.Some? ==> q.headline == PyStrip(input.headline.value)
    ensures input.headline.None? ==> q.headline == p.headline
    ensures input.bio.Some? ==> q.bio == PyStrip(input.bio.value)
    ensures input.bio.None? ==> q.bio == p.bio
    ensures input.location.Some? ==> q.location == PyStrip(input.location.value)
    ensures input.location.None? ==> q.location == p.location
    ensures input.website.Some? ==> q.website == PyStrip(input.website.value)
    ensures input.website.None? ==> q.website == p.website
    ensures input.skills.Some? ==> q.skills == input.skills.value
    ensures input.skills.None? ==> q.skills == p.skills
    ensures input.hourlyRate.Some? ==> q.hourlyRate == input.hourlyRate.value
    ensures input.hourlyRate.None? ==> q.hourlyRate == p.hourlyRate
  {
    p.(headline := PickText(input.headline, p.headline), bio := PickText(input.bio, p.bio),
       skills := Pick(input.skills, p.skills), hourlyRate := Pick(input.hourlyRate, p.hourlyRate),
       location := PickText(input.location, p.location), website := PickText(input.website, p.website),
       avatar := match input.avatar case None => p.avatar case Some(None) => "" case Some(Some(f)) => f)
  }

  /** The result of reading the `avatar_data` field. */
  datatype AvatarData = AvatarData(payload: string, ext: string) | BadImage

  const DataUrlMarker: string := ";base64,"

  /** `avatar_data` handling: a value starting with `data:image` must split on
      `;base64,` into exactly a header and a payload, and the extension is what
      follows the header's last `/`; any other value is a bare payload with
      extension `jpg`. `decodes` stands for base64 decoding plus opening the
      image; when it fails the request is rejected. */
  function ParseAvatarData(data: string, decodes: string -> bool): (r: AvatarData)
    ensures !StartsWith(data, "data:image") ==>
      r == (if decodes(data) then AvatarData(data, "jpg") else BadImage)
    ensures StartsWith(data, "data:image") && |SplitOn(data, DataUrlMarker)| != 2 ==> r == BadImage
    ensures r.AvatarData? ==> decodes(r.payload)
    ensures StartsWith(data, "data:image") && |SplitOn(data, DataUrlMarker)| == 2 ==>
      (r.AvatarData? <==> decodes(SplitOn(data, DataUrlMarker)[1]))
    ensures r.AvatarData? && StartsWith(data, "data:image") ==>
      !Includes(r.payload, DataUrlMarker) && '/' !in r.ext
      && exists header :: data == header + DataUrlMarker + r.payload && EndsWith(header, r.ext)
  {
    if StartsWith(data, "data:image") then
      var parts := SplitOn(data, DataUrlMarker);
      if |parts| != 2 then BadImage
      else
        var header := parts[0];
        var pieces := SplitOn(header, "/");
        var ext := pieces[|pieces| - 1];
        if !decodes(parts[1]) then BadImage
        else
          JoinSplit(data, DataUrlMarker);
          assert JoinWith(parts, DataUrlMarker) == parts[0] + DataUrlMarker + parts[1];
          JoinSplit(header, "/");
          JoinEndsWithLast(pieces, "/");
          SplitPiecesFree(header, '/');
          assert ext in pieces;
          SplitPieceFree(data, DataUrlMarker);
          assert parts[1] in parts;
          AvatarData(parts[1], ext)
    else if decodes(data) then AvatarData(data, "jpg")
    else BadImage
  }

  /** PUT /profiles/me/update/: 404 without a profile; 400 when `avatar_data`
      is sent and cannot be read or the body fails validation (`valid`);
      otherwise 200 with the writable fields updated and, when an image was
      sent, the avatar stored in the user's avatar directory under the name
      the storage chose (`suffix` is what it added to a name already taken).
      The serializer runs after the image is stored, so an `avatar` field in
      the body (a file or `null`) has the last word. */
  function UpdateMyProfile(profile: Option<Profile>, avatarData: Option<string>, input: ProfileInput,
                           valid: bool, decodes: string -> bool, suffix: string): (r: (nat, Option<Profile>))
    ensures r.0 == 404 <==> profile.None?
    ensures r.0 == 200 <==>
      (profile.Some? && valid && (avatarData.None? || ParseAvatarData(avatarData.value, decodes).AvatarData?))
    ensures r.0 in {200, 400, 404}
    ensures r.1.Some? <==> r.0 == 200
    ensures r.0 == 200 ==>
      && r.1.value.rating == profile.value.rating
      && r.1.value.totalProjects == profile.value.totalProjects
      && r.1.value.user == profile.value.user
    ensures r.0 == 200 && avatarData.Some? && input.avatar.None? ==>
      && StartsWith(r.1.value.avatar, "avatars/" + NatToString(profile.value.user) + "/avatar")
      && EndsWith(r.1.value.avatar, ".jpg")
      && (suffix == "" ==> r.1.value.avatar == AvatarPath(profile.value.user, "avatar.jpg"))
    ensures r.0 == 200 ==> r.1.value == ApplyProfileUpdate(profile.value, input).(avatar := r.1.value.avatar)
    ensures r.0 == 200 && avatarData.None? && input.avatar.None? ==> r.1.value.avatar == profile.value.avatar
    ensures r.0 == 200 && input.avatar == Some(None) ==> r.1.value.avatar == ""
    ensures r.0 == 200 && input.avatar.Some? && input.avatar.value.Some? ==> r.1.value.avatar == input.avatar.value.value
  {
    match profile
    case None => (404, None)
    case Some(p) =>
      if avatarData.Some? && ParseAvatarData(avatarData.value, decodes).BadImage? then (400, None)
      else if !valid then (400, None)
      else
        var withAvatar := if avatarData.Some? then p.(avatar := StoredAvatarPath(p.user, suffix)) else p;
        (200, Some(ApplyProfileUpdate(withAvatar, input)))
  }

  /** A video demo; `owner` is the user whose profile it belongs to. */
  datatype Demo = Demo(
    id: nat, owner: nat, title: string, description: string, category: string,
    tags: seq<string>, isPublic: bool, createdAt: int)

  /** The writable fields of a demo request; `profile` is read-only and ignored. */
  datatype DemoInput = DemoInput(
    title: string, description: string, category: string, tags: Option<seq<string>>,
    isPublic: Option<bool>, profile: Option<nat>)

  /** `VideoDemoSerializer.create`: the demo always belongs to the requester; it is
      public and untagged unless the request says otherwise; its text fields are
      stored with surrounding Python white space stripped. */
  function NewDemo(input: DemoInput, requester: nat, id: nat, now: int): (d: Demo)
    ensures d.owner == requester && d.id == id && d.createdAt == now
    ensures d.isPublic == (input.isPublic.None? || input.isPublic.value)
    ensures d.tags == (if input.tags.Some? then input.tags.value else [])
    ensures d.title == PyStrip(input.title) && d.description == PyStrip(input.description)
    ensures d.category == PyStrip(input.category)
  {
    Demo(id, requester, PyStrip(input.title), PyStrip(input.description), PyStrip(input.category),
         Pick(input.tags, []), Pick(input.isPublic, true), now)
  }

  /** A demo submitted for someone else's profile is still filed under the requester. */
  lemma DemoOwnerIsRequester(input: DemoInput, requester: nat, id: nat, now: int)
    requires input.profile.Some? && input.profile.value != requester
    ensures NewDemo(input, requester, id, now).owner != input.profile.value
  {
  }

  function DemoKey(d: Demo): Rank { Rank(d.createdAt as real, 0.0, 0.0) }

  /** The demo detail queryset: anonymous viewers see public demos; a signed-in
      viewer sees public demos and their own. Newest first. */
  function VisibleDemos(viewer: Option<nat>, demos: seq<Demo>): (r: seq<Demo>)
    ensures forall d :: d in r <==> d in demos && (d.isPublic || (viewer.Some? && d.owner == viewer.value))
    ensures SortedDesc(r, DemoKey)
  {
    SelectSorted(demos, (d: Demo) => d.isPublic || (viewer.Some? && d.owner == viewer.value), DemoKey)
  }

  /** A private demo is hidden from everyone but its owner. */
  lemma PrivateDemoHidden(viewer: Option<nat>, demos: seq<Demo>, d: Demo)
    requires d in demos && !d.isPublic
    ensures d in VisibleDemos(viewer, demos) <==> viewer == Some(d.owner)
  {
  }

  function DemoWithId(demos: seq<Demo>, id: nat): (r: Option<Demo>)
    ensures r.Some? ==> r.value in demos && r.value.id == id
    ensures r.None? ==> forall d :: d in demos ==> d.id != id
  {
    if demos == [] then None
    else if demos[0].id == id then Some(demos[0])
    else DemoWithId(demos[1..], id)
  }

  const NotAuthenticated: nat := 401

  /** PUT/DELETE on a demo: anonymous writers are refused; a demo the viewer
      cannot see is 404; an invalid body on a visible demo is 400, whoever owns
      it; a visible demo owned by someone else raises a `PermissionError` (500);
      the owner succeeds with `okStatus`. A DELETE is the same with `valid` true. */
  function DemoWriteStatus(viewer: Option<nat>, demos: seq<Demo>, id: nat, valid: bool, okStatus: nat): (status: nat)
    ensures viewer.None? ==> status == NotAuthenticated
    ensures status == okStatus && okStatus !in {NotAuthenticated, 400, 404, 500} ==>
      valid && viewer.Some? && exists d :: d in demos && d.id == id && d.owner == viewer.value
    ensures viewer.Some? && (forall d :: d in demos ==> d.id != id) ==> status == 404
    ensures viewer.Some? && !valid && (exists d :: d in demos && d.id == id && (d.isPublic || d.owner == viewer.value)) ==>
      status == 400
  {
    if viewer.None? then NotAuthenticated
    else
      match DemoWithId(VisibleDemos(viewer, demos), id)
      case None =>
        assert forall d :: d in demos && d.id == id ==> d !in VisibleDemos(viewer, demos) || d.id != id;
        404
      case Some(d) => if !valid then 400 else if d.owner != viewer.value then 500 else okStatus
  }

  /** Someone else's demo is never changed: the answer is 404 for a private one,
      and 400 or 500 for a public one, as the body is invalid or valid. */
  lemma NonOwnerCannotWriteDemo(viewer: nat, demos: seq<Demo>, d: Demo, valid: bool, okStatus: nat)
    requires d in demos && d.owner != viewer
    requires forall e :: e in demos && e.id == d.id ==> e == d
    ensures DemoWriteStatus(Some(viewer), demos, d.id, valid, okStatus) ==
      (if !d.isPublic then 404 else if !valid then 400 else 500)
  {
    var visible := VisibleDemos(Some(viewer), demos);
    assert d.isPublic ==> d in visible;
    match DemoWithId(visible, d.id)
    case None =>
    case Some(e) =>
      assert e in demos;
  }

  /** The owner of a demo, sending a valid body, is answered with `okStatus`. */
  lemma OwnerCanWriteDemo(viewer: nat, demos: seq<Demo>, d: Demo, okStatus: nat)
    requires d in demos && d.owner == viewer
    requires forall e :: e in demos && e.id == d.id ==> e == d
    ensures DemoWriteStatus(Some(viewer), demos, d.id, true, okStatus) == okStatus
  {
    var visible := VisibleDemos(Some(viewer), demos);
    assert d in visible;
    match DemoWithId(visible, d.id)
    case None =>
    case Some(e) =>
      assert e in demos;
  }

  function ProfileWithId(profiles: seq<Profile>, id: nat): (r: Option<Profile>)
    ensures r.Some? ==> r.value in profiles && r.value.id == id
    ensures r.None? ==> forall p :: p in profiles ==> p.id != id
  {
    if profiles == [] then None
    else if profiles[0].id == id then Some(profiles[0])
    else ProfileWithId(profiles[1..], id)
  }

  /** PUT on /profiles/<id>/: anonymous writers are refused, an unknown profile
      is 404, an invalid body 400, and anyone but the profile's user gets the
      `PermissionError` (500). A DELETE is the same with `valid` true. */
  function ProfileWriteStatus(viewer: Option<nat>, profiles: seq<Profile>, id: nat, valid: bool, okStatus: nat): (status: nat)
    ensures viewer.None? ==> status == NotAuthenticated
    ensures viewer.Some? && ProfileWithId(profiles, id).Some? && valid ==>
      (status == okStatus <==> ProfileWithId(profiles, id).value.user == viewer.value || okStatus == 500)
    ensures viewer.Some? && ProfileWithId(profiles, id).None? ==> status == 404
  {
    if viewer.None? then NotAuthenticated
    else
      match ProfileWithId(profiles, id)
      case None => 404
      case Some(p) => if !valid then 400 else if p.user != viewer.value then 500 else okStatus
  }
}
