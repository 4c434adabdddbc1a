/** The administrator's profile page (src/components/Dashboard/Profil.jsx):
    an edit form whose password must be confirmed, and an update that sends
    the password only when one is typed. */
module Profil {
  import opened Remote

  /** The profile fields the form edits. */
  datatype Profile = Profile(name: string, email: string, phone: string)

  /** The body of a successful `/admin/profile` update: the new user and the
      server's message. */
  datatype UpdateReply = UpdateReply(user: Profile, msg: Option<string>)

  const FormFields: set<string> := {"name", "email", "phone", "password", "confirmPassword"}

  const LoadErrorText := "Erreur lors du chargement du profil"
  const MismatchText := "Les mots de passe ne correspondent pas"
  const UpdateErrorText := "Erreur lors de la mise à jour du profil"

  /** The form filled from a profile, with both password fields empty (after
      the load and on "Annuler"). */
  function FormFor(p: Profile): (r: map<string, string>)
    ensures r.Keys == FormFields
    ensures r["name"] == p.name && r["email"] == p.email && r["phone"] == p.phone
    ensures r["password"] == "" && r["confirmPassword"] == ""
  {
    map["name" := p.name, "email" := p.email, "phone" := p.phone, "password" := "", "confirmPassword" := ""]
  }

  /** The validation of `handleSubmit`: a typed password that is not repeated
      identically. An empty password is never checked. */
  predicate PasswordMismatch(form: map<string, string>)
    requires FormFields <= form.Keys
  {
    form["password"] != "" && form["password"] != form["confirmPassword"]
  }

  /** `updateData`: name, email and phone always, the password only when one
      is typed, the confirmation never; every value as typed. */
  function UpdatePayload(form: map<string, string>): (r: map<string, string>)
    requires FormFields <= form.Keys
    ensures r.Keys == {"name", "email", "phone"} + (if form["password"] != "" then {"password"} else {})
    ensures "confirmPassword" !in r
    ensures forall k :: k in r ==> r[k] == form[k]
  {
    var base := map["name" := form["name"], "email" := form["email"], "phone" := form["phone"]];
    if form["password"] != "" then base["password" := form["password"]] else base
  }

  /** A form that passes validation never changes the password to anything
      but what was typed twice, and one that keeps the password empty sends
      exactly the three profile fields. */
  lemma SentPasswordIsConfirmed(form: map<string, string>)
    requires FormFields <= form.Keys
    ensures !PasswordMismatch(form) && "password" in UpdatePayload(form) ==>
      UpdatePayload(form)["password"] == form["confirmPassword"]
    ensures form["password"] == "" ==> UpdatePayload(form).Keys == {"name", "email", "phone"}
  {
  }

  /** After a load or a cancel, the form sends back the profile unchanged and
      no password. */
  lemma UntouchedFormResendsProfile(p: Profile)
    ensures !PasswordMismatch(FormFor(p))
    ensures UpdatePayload(FormFor(p)) == map["name" := p.name, "email" := p.email, "phone" := p.phone]
  {
    var f := FormFor(p);
    assert UpdatePayload(f).Keys == {"name", "email", "phone"};
  }

  class ProfilePage {
    var profile: Option<Profile>
    var loading: bool
    var error: Option<string>
    var isEditing: bool
    var form: map<string, string>
    var successMessage: Option<string>

    ghost predicate Valid()
      reads this
    {
      FormFields <= form.Keys
    }

    constructor ()
      ensures Valid() && profile == None && loading && error == None && !isEditing
      ensures form == FormFor(Profile("", "", "")) && successMessage == None
    {
      profile, loading, error, isEditing := None, true, None, false;
      form := FormFor(Profile("", "", ""));
      successMessage := None;
    }

    /** `fetchProfile`: the loaded profile fills the form; a failure shows the
        fixed load error. */
    method FetchProfile(res: Outcome<Profile>)
      requires Valid()
      modifies this`profile, this`form, this`error, this`loading
      ensures Valid() && !loading
      ensures res.Success? ==> profile == Some(res.value) && form == FormFor(res.value) && error == old(error)
      ensures res.Failure? ==> profile == old(profile) && form == old(form) && error == Some(LoadErrorText)
    {
      loading := true;
      match res {
        case Success(p) =>
          profile := Some(p);
          form := FormFor(p);
        case Failure(_) =>
          error := Some(LoadErrorText);
      }
      loading := false;
    }

    /** "Modifier". */
    method StartEditing()
      modifies this`isEditing
      ensures isEditing
    {
      isEditing := true;
    }

    /** `handleEditChange`: only the named field changes. */
    method HandleEditChange(name: string, value: string)
      requires Valid()
      modifies this`form
      ensures Valid() && form == old(form)[name := value]
    {
      form := form[name := value];
    }

    /** `handleSubmit`: a password mismatch only shows the mismatch error and
        sends nothing. Otherwise the payload is sent; on success the profile
        becomes the returned user, the server's message is shown and the page
        leaves edit mode; on failure the server's `msg` or the fixed text is
        shown and the profile is kept. Returns the payload sent, if any. */
    method HandleSubmit(res: Outcome<UpdateReply>) returns (sent: Option<map<string, string>>)
      requires Valid()
      modifies this`profile, this`successMessage, this`isEditing, this`error, this`loading
      ensures Valid() && form == old(form)
      ensures PasswordMismatch(old(form)) ==>
        && sent == None && error == Some(MismatchText)
        && profile == old(profile) && isEditing == old(isEditing)
        && successMessage == old(successMessage) && loading == old(loading)
      ensures !PasswordMismatch(old(form)) ==> sent == Some(UpdatePayload(old(form))) && !loading
      ensures !PasswordMismatch(old(form)) && res.Success? ==>
        && profile == Some(res.value.user) && successMessage == res.value.msg
        && !isEditing && error == old(error)
      ensures !PasswordMismatch(old(form)) && res.Failure? ==>
        && profile == old(profile) && successMessage == old(successMessage)
        && isEditing == old(isEditing) && error == Some(Or(res.error.msg, UpdateErrorText))
    {
      if form["password"] != "" && form["password"] != form["confirmPassword"] {
        error := Some(MismatchText);
        return None;
      }
      loading := true;
      sent := Some(UpdatePayload(form));
      match res {
        case Success(reply) =>
          profile := Some(reply.user);
          successMessage := reply.msg;
          isEditing := false;
        case Failure(e) =>
          error := Some(Or(e.msg, UpdateErrorText));
      }
      loading := false;
    }

    /** "Annuler": leaves edit mode, clears the error and refills the form
        from the current profile with empty passwords. */
    method CancelEdit()
      requires profile.Some?
      modifies this`isEditing, this`error, this`form
      ensures Valid() && !isEditing && error == None && form == FormFor(profile.value)
    {
      isEditing := false;
      error := None;
      form := FormFor(profile.value);
    }
  }
}
