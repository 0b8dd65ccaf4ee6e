/** The custom user model: e-mail is the login identifier and must be unique;
    every user has one of three roles. */
module Accounts {
  import opened Common

  datatype Role = Client | Freelancer | Admin

  /** The stored value of each role choice. */
  function RoleName(r: Role): string {
    match r
    case Client => "client"
    case Freelancer => "freelancer"
    case Admin => "admin"
  }

  /** Reads a stored role; anything outside the three choices is rejected. */
  function ParseRole(s: string): (r: Option<Role>)
    ensures r.Some? ==> RoleName(r.value) == s
  {
    if s == "client" then Some(Client)
    else if s == "freelancer" then Some(Freelancer)
    else if s == "admin" then Some(Admin)
    else None
  }

  lemma RoleRoundTrip(r: Role)
    ensures ParseRole(RoleName(r)) == Some(r)
  {
  }

  /** A user as the rest of the model sees it; `name` may be blank. */
  datatype User = User(id: nat, email: string, username: string, role: Role, name: string)

  ghost predicate EmailsUnique(users: seq<User>) {
    forall i, j :: 0 <= i < j < |users| ==> users[i].email != users[j].email
  }

  ghost predicate IdsUnique(users: seq<User>) {
    forall i, j :: 0 <= i < j < |users| ==> users[i].id != users[j].id
  }

  ghost predicate UsernamesUnique(users: seq<User>) {
    forall i, j :: 0 <= i < j < |users| ==> users[i].username != users[j].username
  }

  datatype SignupError =
    | MissingEmail | EmailTaken | MissingUsername | UsernameTaken | MissingRole | UnknownRole(role: string)
    | TooLong(field: string)

  /** `max_length` of the e-mail (the `EmailField` default), the username
      (inherited from `AbstractUser`) and the display name. */
  const EmailMaxLength: nat := 254
  const UsernameMaxLength: nat := 150
  const NameMaxLength: nat := 255

  datatype Created = Created(users: seq<User>, user: User) | Refused(error: SignupError)

  predicate EmailInUse(users: seq<User>, email: string) {
    exists i :: 0 <= i < |users| && users[i].email == email
  }

  predicate UsernameInUse(users: seq<User>, username: string) {
    exists i :: 0 <= i < |users| && users[i].username == username
  }

  /** Adds a user the way the model's field definitions allow: e-mail present,
      not yet used and within its length, a non-blank username within its length
      and not yet used (the inherited `username` is unique too), a role among
      the three choices; the display name may be empty but not too long. The
      new user gets the next id. */
  function CreateUser(users: seq<User>, nextId: nat, email: string, username: string, role: string, name: string): (r: Created)
    ensures r.Created? <==>
      && email != "" && |email| <= EmailMaxLength && !EmailInUse(users, email)
      && username != "" && |username| <= UsernameMaxLength && !UsernameInUse(users, username)
      && role != "" && ParseRole(role).Some? && |name| <= NameMaxLength
    ensures r.Created? ==> r.users == users + [r.user] && r.user.email == email && RoleName(r.user.role) == role && r.user.id == nextId
    ensures r.Created? ==> r.user.username == username && r.user.name == name
    ensures r.Created? && EmailsUnique(users) ==> EmailsUnique(r.users)
    ensures r.Created? && UsernamesUnique(users) ==> UsernamesUnique(r.users)
  {
    if email == "" then Refused(MissingEmail)
    else if |email| > EmailMaxLength then Refused(TooLong("email"))
    else if EmailInUse(users, email) then Refused(EmailTaken)
    else if username == "" then Refused(MissingUsername)
    else if |username| > UsernameMaxLength then Refused(TooLong("username"))
    else if UsernameInUse(users, username) then Refused(UsernameTaken)
    else if |name| > NameMaxLength then Refused(TooLong("name"))
    else if role == "" then Refused(MissingRole)
    else match ParseRole(role)
      case None => Refused(UnknownRole(role))
      case Some(rl) =>
        var u := User(nextId, email, username, rl, name);
        Created(users + [u], u)
  }
}
