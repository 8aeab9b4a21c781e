/**
 * The stand-alone login page (`src/pages/Login.tsx`): after the shared
 * checks it goes straight to the dashboard, with no request to the server.
 */
module LoginPage {
  import opened Wrappers
  import opened LoginCheck

  /** "Please enter the name", with the trailing space this page writes. */
  const NameMissing: string := "សូមបញ្ចូល ឈ្មោះ "
  /** "Please enter the password". */
  const PasswordMissing: string := "សូមបញ្ចូល ពាក្យសម្ងាត់"
  const DashboardRoute: string := "/dashboard"

  /** The error a submit shows for each outcome of the checks. */
  function ErrorOf(r: CheckResult): (message: string)
    ensures message == "" <==> r == Ready
  {
    match r
    case MissingIdentifier => NameMissing
    case MissingPassword => PasswordMissing
    case Ready => ""
  }

  class LoginForm {
    var identifier: string
    var password: string
    var error: string

    constructor()
      ensures identifier == "" && password == "" && error == ""
    {
      identifier := "";
      password := "";
      error := "";
    }

    /** The input labelled `name`. */
    method SetIdentifier(text: string)
      modifies this
      ensures identifier == text && password == old(password) && error == old(error)
    {
      identifier := text;
    }

    /** The input labelled `password`. */
    method SetPassword(text: string)
      modifies this
      ensures password == text && identifier == old(identifier) && error == old(error)
    {
      password := text;
    }

    /**
     * `handleSubmit`: the old error is cleared; a blank field sets its error
     * and stays; otherwise the page moves to the dashboard with no error.
     */
    method HandleSubmit() returns (navigateTo: Option<string>)
      modifies this
      ensures error == ErrorOf(Check(old(identifier), old(password)))
      ensures navigateTo == if Check(old(identifier), old(password)) == Ready then Some(DashboardRoute) else None
      ensures navigateTo.Some? <==> error == ""
      ensures identifier == old(identifier) && password == old(password)
    {
      error := "";
      var check := Check(identifier, password);
      if check == MissingIdentifier {
        error := NameMissing;
        return None;
      }
      if check == MissingPassword {
        error := PasswordMissing;
        return None;
      }
      navigateTo := Some(DashboardRoute);
    }
  }
}
