/** The account record the sign-in form hands to the page when it is
    submitted. No credential is checked: the record is derived from the
    form's fields alone. */
module Auth {
  import opened Records
  import opened Text

  /** Which form is shown. */
  datatype FormType = Login | Register

  /** The form's fields as typed. */
  datatype FormData = FormData(name: string, email: string, password: string, artistName: string, bio: string)

  /** The bio every signed-in (not registered) account gets. */
  const LoginBio: string := "Art enthusiast and creator"

  /** The account built by the registration form. `artistName` falls back to
      the full name when left empty (the `||` of the source treats an empty
      string as missing). */
  function RegisteredUser(form: FormData, id: int, joinedDate: string): (u: User)
    ensures u.id == id && u.joinedDate == joinedDate
    ensures u.name == form.name && u.email == form.email && u.bio == form.bio
    ensures u.artworks == []
    ensures form.artistName != "" ==> u.artistName == form.artistName
    ensures form.artistName == "" ==> u.artistName == form.name
  {
    User(id, form.name, form.email, if form.artistName != "" then form.artistName else form.name,
         form.bio, [], joinedDate)
  }

  /** The account built by the login form: both names are the part of the
      email before its first `@`. */
  function LoggedInUser(form: FormData, id: int, joinedDate: string): (u: User)
    ensures u.id == id && u.joinedDate == joinedDate
    ensures u.email == form.email && u.bio == LoginBio && u.artworks == []
    ensures u.artistName == u.name
    ensures |u.name| <= |form.email| && u.name == form.email[..|u.name|]
    ensures '@' !in u.name
    ensures |u.name| < |form.email| ==> form.email[|u.name|] == '@'
    ensures '@' !in form.email ==> u.name == form.email
  {
    var handle := BeforeFirst(form.email, '@');
    User(id, handle, form.email, handle, LoginBio, [], joinedDate)
  }

  /** `handleSubmit`: which record is built depends on the form type. */
  function SubmittedUser(kind: FormType, form: FormData, id: int, joinedDate: string): (u: User)
    ensures kind == Register ==> u == RegisteredUser(form, id, joinedDate)
    ensures kind == Login ==> u == LoggedInUser(form, id, joinedDate)
    ensures u.id == id && u.email == form.email && u.artworks == []
  {
    match kind
    case Register => RegisteredUser(form, id, joinedDate)
    case Login => LoggedInUser(form, id, joinedDate)
  }

  /** For an email `handle@rest` whose handle holds no `@`, login names the
      account `handle`, whatever `rest` is. */
  lemma LoginNameIsHandle(form: FormData, handle: string, rest: string, id: int, joinedDate: string)
    requires '@' !in handle
    requires form.email == handle + "@" + rest
    ensures LoggedInUser(form, id, joinedDate).name == handle
  {
    assert form.email[|handle|] == '@';
    assert form.email[..|handle|] == handle;
  }

  /** Only the email decides the account a login builds: password, name,
      artist name and bio typed into the form are ignored. */
  lemma LoginDependsOnlyOnEmail(form: FormData, other: FormData, id: int, joinedDate: string)
    requires form.email == other.email
    ensures LoggedInUser(form, id, joinedDate) == LoggedInUser(other, id, joinedDate)
  {
  }

  /** The password never reaches the registered account. */
  lemma RegisterIgnoresPassword(form: FormData, password: string, id: int, joinedDate: string)
    ensures RegisteredUser(form, id, joinedDate) == RegisteredUser(form.(password := password), id, joinedDate)
  {
  }
}
