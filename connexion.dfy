/** The login screen (src/components/Connexion.jsx): a two-field form, a
    submit handler that stores the session and redirects by role. */
module Connexion {
  import opened Remote
  import opened Browser

  /** A form slot: inputs store their `value`, checkboxes their `checked`. */
  datatype FieldValue = Str(s: string) | Checked(b: bool)

  /** The parts of `e.target` the change handler reads. */
  datatype ChangeEvent = ChangeEvent(name: string, inputType: string, value: string, checked: bool)

  /** The body of a successful `/auth/login` call: `success`, and under `data`
      the token and the user. */
  datatype LoginReply = LoginReply(success: bool, token: string, user: User)

  const InitialForm: map<string, FieldValue> := map["email" := Str(""), "password" := Str("")]
  const LoginFailedText := "Email ou mot de passe incorrect"

  /** `handleChange`: the named field receives `checked` for a checkbox and
      `value` otherwise; every other field is kept. */
  function ApplyChange(form: map<string, FieldValue>, e: ChangeEvent): (r: map<string, FieldValue>)
    ensures r.Keys == form.Keys + {e.name}
    ensures r[e.name] == if e.inputType == "checkbox" then Checked(e.checked) else Str(e.value)
    ensures forall k :: k in form && k != e.name ==> r[k] == form[k]
  {
    form[e.name := if e.inputType == "checkbox" then Checked(e.checked) else Str(e.value)]
  }

  /** The body posted to `/auth/login`: the form's email and password and
      nothing else. */
  function LoginRequest(form: map<string, FieldValue>): (r: map<string, FieldValue>)
    requires "email" in form && "password" in form
    ensures r.Keys == {"email", "password"}
    ensures r["email"] == form["email"] && r["password"] == form["password"]
  {
    map["email" := form["email"], "password" := form["password"]]
  }

  /** Where a successful login sends the user: administrators to the
      dashboard, everybody else to the home page. */
  function RedirectFor(user: User): (r: string)
    ensures r == "/dashboard" <==> user.role == "admin"
    ensures r == "/dashboard" || r == "/"
  {
    if user.role == "admin" then "/dashboard" else "/"
  }

  /** Storage after a successful login: the token, then the user. */
  function StoreSession(items: map<string, Stored>, reply: LoginReply): map<string, Stored>
  {
    items["token" := Text(reply.token)]["user" := UserRecord(reply.user)]
  }

  /** After a login the session slots hold exactly the reply's token and user,
      every other slot is unchanged, and the token guard passes exactly when
      the server's token is a non-empty string. */
  lemma StoreSessionContents(items: map<string, Stored>, reply: LoginReply)
    ensures var after := StoreSession(items, reply);
      && after.Keys == items.Keys + {"token", "user"}
      && after["token"] == Text(reply.token) && after["user"] == UserRecord(reply.user)
      && (forall k :: k in items && k != "token" && k != "user" ==> after[k] == items[k])
      && (HasToken(after) <==> reply.token != "")
  {
  }

  class LoginPage {
    var form: map<string, FieldValue>
    var error: string
    var isLoading: bool

    ghost predicate Valid()
      reads this
    {
      "email" in form && "password" in form
    }

    constructor ()
      ensures Valid() && form == InitialForm && error == "" && !isLoading
    {
      form := InitialForm;
      error := "";
      isLoading := false;
    }

    method HandleChange(e: ChangeEvent)
      requires Valid()
      modifies this`form
      ensures Valid() && form == ApplyChange(old(form), e)
    {
      form := ApplyChange(form, e);
    }

    /** `handleSubmit`: `res` is the awaited `/auth/login` call. The session is
        stored and the user redirected only when the reply's `success` flag is
        set; a rejected call shows the server's `msg` or the fixed message and
        stores nothing. The error is cleared at the start and loading ends on
        every path. */
    method HandleSubmit(res: Outcome<LoginReply>, storage: SecureStorage, router: Router)
      returns (request: map<string, FieldValue>)
      requires Valid()
      modifies this, storage, router
      ensures Valid() && form == old(form) && !isLoading
      ensures request == LoginRequest(old(form))
      ensures res.Success? && res.value.success ==>
        && storage.items == StoreSession(old(storage.items), res.value)
        && router.pathname == RedirectFor(res.value.user)
        && error == ""
      ensures res.Success? && !res.value.success ==>
        storage.items == old(storage.items) && router.pathname == old(router.pathname) && error == ""
      ensures res.Failure? ==>
        && storage.items == old(storage.items) && router.pathname == old(router.pathname)
        && error == Or(res.error.msg, LoginFailedText)
    {
      isLoading := true;
      error := "";
      request := LoginRequest(form);
      match res {
        case Success(reply) =>
          if reply.success {
            storage.SetItem("token", Text(reply.token));
            storage.SetItem("user", UserRecord(reply.user));
            router.Navigate(RedirectFor(reply.user));
          }
        case Failure(e) =>
          error := Or(e.msg, LoginFailedText);
      }
      isLoading := false;
    }
  }
}
