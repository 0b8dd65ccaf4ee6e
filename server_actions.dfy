/** What the three server actions (post a project, apply to a project, update
    a profile) share: reading a multipart form, the JSON values the API
    answers with, the result states handed back to the page, and the loops
    that turn the API's 400 answer into a field-error map. */
module ServerActions {
  import opened Common
  import opened Text

  /** A multipart form: its (name, value) entries in the order they were appended. */
  type FormData = seq<(string, string)>

  /** `formData.getAll(name)`: every value under `name`, in order. */
  function GetAll(fd: FormData, name: string): (r: seq<string>)
    ensures |r| <= |fd|
    ensures forall v :: v in r <==> (name, v) in fd
  {
    if fd == [] then []
    else
      var rest := GetAll(fd[1..], name);
      assert fd == [fd[0]] + fd[1..];
      if fd[0].0 == name then [fd[0].1] + rest else rest
  }

  /** `formData.get(name)`: the first value under `name`, or None (`null`). */
  function Get(fd: FormData, name: string): (r: Option<string>)
    ensures r.None? <==> forall i :: 0 <= i < |fd| ==> fd[i].0 != name
    ensures r.Some? ==> (name, r.value) in fd
  {
    if fd == [] then None
    else if fd[0].0 == name then Some(fd[0].1)
    else Get(fd[1..], name)
  }

  /** `get` is the head of `getAll`. */
  lemma {:induction false} GetIsFirstOfGetAll(fd: FormData, name: string)
    ensures Get(fd, name) == if GetAll(fd, name) == [] then None else Some(GetAll(fd, name)[0])
  {
    if fd != [] && fd[0].0 != name {
      GetIsFirstOfGetAll(fd[1..], name);
    }
  }

  /** Reading past a first entry of another name. */
  lemma GetCons(e: (string, string), rest: FormData, name: string)
    ensures Get([e] + rest, name) == if e.0 == name then Some(e.1) else Get(rest, name)
    ensures GetAll([e] + rest, name) == if e.0 == name then [e.1] + GetAll(rest, name) else GetAll(rest, name)
  {
    assert ([e] + rest)[1..] == rest;
  }

  lemma {:induction false} GetAllAppend(a: FormData, b: FormData, name: string)
    ensures GetAll(a + b, name) == GetAll(a, name) + GetAll(b, name)
  {
    if a == [] {
      assert a + b == b;
    } else {
      assert (a + b)[1..] == a[1..] + b;
      GetAllAppend(a[1..], b, name);
    }
  }

  lemma {:induction false} GetAppend(a: FormData, b: FormData, name: string)
    ensures Get(a + b, name) == if Get(a, name).Some? then Get(a, name) else Get(b, name)
  {
    if a == [] {
      assert a + b == b;
    } else {
      assert (a + b)[1..] == a[1..] + b;
      GetAppend(a[1..], b, name);
    }
  }

  /** A JSON value as the API sends it. */
  datatype Json =
    | JNull
    | JBool(b: bool)
    | JNumber(n: real)
    | JString(s: string)
    | JArray(items: seq<Json>)
    | JObject

  /** JavaScript truthiness of a JSON value. */
  predicate Truthy(v: Json) {
    match v
    case JNull => false
    case JBool(b) => b
    case JNumber(n) => n != 0.0
    case JString(s) => s != ""
    case JArray(_) => true
    case JObject => true
  }

  /** What the API call produced: a response (its status and its JSON body as an
      object, `{}` when the body is not JSON), or a thrown error with its
      message when it is an `Error`. */
  datatype Outcome =
    | Replied(status: nat, body: map<string, Json>)
    | Threw(message: Option<string>)

  /** `response.ok`. */
  predicate Ok(status: nat) {
    200 <= status <= 299
  }

  /** The state an action hands back to its form; `F` names the schema's fields. */
  datatype ActionState<F> =
    | ValidationFailed(fields: set<F>)             // "Validation failed. Please check your input."
    | FieldErrors(errors: map<string, seq<Json>>)  // "Please correct the errors below."
    | FormError(error: Json)                       // one `_form` error, "Failed to ..."
    | NetworkError(reason: string)                 // one `_form` error, no message
    | Succeeded(id: Option<Json>)

  /** The specification of the error-map loop: exactly the array-valued fields. */
  function ArrayFields(body: map<string, Json>): map<string, seq<Json>> {
    map k | k in body && body[k].JArray? :: body[k].items
  }

  /** The `Object.keys(errorData).forEach` loop of the post-project and
      update-profile actions. */
  method CollectArrayFields(body: map<string, Json>) returns (errors: map<string, seq<Json>>)
    ensures errors == ArrayFields(body)
    ensures forall k :: k in errors <==> k in body && body[k].JArray?
  {
    errors := map[];
    var remaining := body.Keys;
    while remaining != {}
      invariant remaining <= body.Keys
      invariant forall k :: k in errors <==> k in body && k !in remaining && body[k].JArray?
      invariant forall k :: k in errors ==> body[k] == JArray(errors[k])
      decreases |remaining|
    {
      var k :| k in remaining;
      if body[k].JArray? {
        errors := errors[k := body[k].items];
      }
      remaining := remaining - {k};
    }
  }

  /** The apply-to-project action's names for the API's fields. */
  function FormFieldName(apiField: string): (name: string)
    ensures apiField == "proposed_budget" ==> name == "proposedBudget"
    ensures apiField == "project" ==> name == "projectId"
    ensures apiField != "proposed_budget" && apiField != "project" ==> name == apiField
    ensures name != apiField ==> apiField in {"proposed_budget", "project"}
  {
    if apiField == "proposed_budget" then "proposedBudget"
    else if apiField == "project" then "projectId"
    else apiField
  }

  /** The specification of the renaming loop: each array-valued field under its
      form name. Where two API fields share a form name, the loop keeps the
      one it visits last, so only the set of names and each field's value are
      stated, not the winner. */
  ghost predicate RenamedArrayFields(body: map<string, Json>, errors: map<string, seq<Json>>) {
    && (forall name :: name in errors <==> exists k :: k in body && body[k].JArray? && FormFieldName(k) == name)
    && (forall name :: name in errors ==> exists k :: k in body && FormFieldName(k) == name && body[k] == JArray(errors[name]))
  }

  /** The `Object.keys(errorData).forEach` loop of the apply-to-project action. */
  method CollectRenamedArrayFields(body: map<string, Json>) returns (errors: map<string, seq<Json>>)
    ensures RenamedArrayFields(body, errors)
  {
    errors := map[];
    var remaining := body.Keys;
    while remaining != {}
      invariant remaining <= body.Keys
      invariant forall name :: name in errors <==>
        exists k :: k in body && k !in remaining && body[k].JArray? && FormFieldName(k) == name
      invariant forall name :: name in errors ==>
        exists k :: k in body && FormFieldName(k) == name && body[k] == JArray(errors[name])
      decreases |remaining|
    {
      var k :| k in remaining;
      if body[k].JArray? {
        errors := errors[FormFieldName(k) := body[k].items];
      }
      remaining := remaining - {k};
    }
  }

  /** With no clash of form names, the renamed map has one entry per array
      field, under its form name. */
  lemma RenamedWithoutClash(body: map<string, Json>, errors: map<string, seq<Json>>, k: string)
    requires RenamedArrayFields(body, errors)
    requires "proposedBudget" !in body && "projectId" !in body
    requires k in body && body[k].JArray?
    ensures FormFieldName(k) in errors && errors[FormFieldName(k)] == body[k].items
  {
    var name := FormFieldName(k);
    var k' :| k' in body && FormFieldName(k') == name && body[k'] == JArray(errors[name]);
    assert k' == k;
  }

  /** The single `_form` error of a failed call that is not a 400: the body's
      `detail` when truthy, else "Server error: <status>". */
  function FailureDetail(status: nat, body: map<string, Json>): (e: Json)
    ensures Truthy(e)
    ensures "detail" in body && Truthy(body["detail"]) ==> e == body["detail"]
    ensures !("detail" in body && Truthy(body["detail"])) ==> e == JString("Server error: " + NatToString(status))
  {
    if "detail" in body && Truthy(body["detail"]) then body["detail"]
    else JString("Server error: " + NatToString(status))
  }

  /** The `_form` error of a thrown call: the error's message when it is an
      `Error`, else the action's own fallback sentence. */
  function NetworkMessage(message: Option<string>, fallback: string): string {
    match message
    case Some(m) => "Network error: " + m
    case None => fallback
  }

  /** The state an action reports for the API's outcome, the 400 branch given
      by its error map. */
  function ReplyState<F>(outcome: Outcome, errors: map<string, seq<Json>>, fallback: string): (s: ActionState<F>)
    ensures s.Succeeded? <==> outcome.Replied? && Ok(outcome.status)
    ensures s.FieldErrors? <==> outcome.Replied? && outcome.status == 400
    ensures s.FieldErrors? ==> s.errors == errors
    ensures s.NetworkError? <==> outcome.Threw?
  {
    match outcome
    case Threw(m) => NetworkError(NetworkMessage(m, fallback))
    case Replied(status, body) =>
      if Ok(status) then Succeeded(if "id" in body then Some(body["id"]) else None)
      else if status == 400 then FieldErrors(errors)
      else FormError(FailureDetail(status, body))
  }
}
