/** The sign-in screen of `components/Login.tsx`. */
module Login {
  import opened Wrappers
  import opened Seqs
  import opened Domain
  import Constants

  const DEMO_PASSWORD: string := "password"
  const INVALID_CREDENTIALS: string := "Invalid credentials. Hint: password is \"password\"."
  const FALLBACK_MODERATOR_EMAIL: string := "rahim@wellhealth.com"

  /** The credential check: the first of `[admin, ...moderators]` whose email
      is exactly the one entered, provided the password is the static one. */
  function Authenticate(admin: User, moderators: seq<User>, email: string, password: string): Option<User> {
    var found := Find([admin] + moderators, (u: User) => u.email == email);
    if found.Some? && password == DEMO_PASSWORD then found else None
  }

  /** Sign-in succeeds exactly when some account has the entered email and
      the password is "password"; the account signed in is the first match,
      so the admin wins over a moderator with the same email. */
  lemma AuthenticateSpec(admin: User, moderators: seq<User>, email: string, password: string)
    ensures var all := [admin] + moderators;
      Authenticate(admin, moderators, email, password).Some? <==>
        (exists i :: 0 <= i < |all| && all[i].email == email) && password == DEMO_PASSWORD
    ensures var all, r := [admin] + moderators, Authenticate(admin, moderators, email, password);
      r.Some? ==> exists i :: 0 <= i < |all| && all[i] == r.value && r.value.email == email &&
                              forall j :: 0 <= j < i ==> all[j].email != email
    ensures admin.email == email && password == DEMO_PASSWORD ==>
      Authenticate(admin, moderators, email, password) == Some(admin)
  {
    var all := [admin] + moderators;
    if admin.email == email {
      FindAtFirstIndex(all, (u: User) => u.email == email, 0);
    }
  }

  /** With the demo accounts: the admin signs in with its own email, and a
      wrong password or a differently cased email fails. */
  lemma DemoAccounts()
    ensures Authenticate(Constants.ADMIN_USER, Constants.INITIAL_MODERATORS, "admin@test.com", "password")
            == Some(Constants.ADMIN_USER)
    ensures Authenticate(Constants.ADMIN_USER, Constants.INITIAL_MODERATORS, "sumit@test.com", "password")
            == Some(Constants.INITIAL_MODERATORS[1])
    ensures Authenticate(Constants.ADMIN_USER, Constants.INITIAL_MODERATORS, "admin@test.com", "Password").None?
    ensures Authenticate(Constants.ADMIN_USER, Constants.INITIAL_MODERATORS, "Admin@test.com", "password").None?
  {
    var all := [Constants.ADMIN_USER] + Constants.INITIAL_MODERATORS;
    FindAtFirstIndex(all, (u: User) => u.email == "admin@test.com", 0);
    FindAtFirstIndex(all, (u: User) => u.email == "sumit@test.com", 2);
    assert all[0].email != "Admin@test.com" && all[1].email != "Admin@test.com" && all[2].email != "Admin@test.com";
  }

  datatype QuickLoginKind = AdminLogin | ModeratorLogin

  /** The email `quickLogin` fills in: the admin's, or the first moderator's
      when there is one with a non-empty email, else the fixed fallback. */
  function QuickLoginEmail(kind: QuickLoginKind, moderators: seq<User>): string {
    match kind
    case AdminLogin => Constants.ADMIN_USER.email
    case ModeratorLogin =>
      if |moderators| > 0 && moderators[0].email != "" then moderators[0].email else FALLBACK_MODERATOR_EMAIL
  }

  /** The sign-in form's state. */
  class LoginForm {
    var email: string
    var password: string
    var error: string
    var isLoading: bool

    constructor ()
      ensures email == "" && password == "" && error == "" && !isLoading
    {
      email, password, error, isLoading := "", "", "", false;
    }

    /** `handleLogin`, with the delayed callback run at once. `signedIn` is
        the user handed to `onLogin`, if any. */
    method HandleLogin(moderators: seq<User>) returns (signedIn: Option<User>)
      modifies this
      ensures signedIn == Authenticate(Constants.ADMIN_USER, moderators, email, password)
      ensures signedIn.Some? ==> isLoading && error == ""
      ensures signedIn.None? ==> !isLoading && error == INVALID_CREDENTIALS
      ensures email == old(email) && password == old(password)
    {
      isLoading := true;
      error := "";
      var entered := email;
      var all := [Constants.ADMIN_USER] + moderators;
      var user := Find(all, (u: User) => u.email == entered);
      if user.Some? && password == DEMO_PASSWORD {
        signedIn := user;
      } else {
        signedIn := None;
        error := INVALID_CREDENTIALS;
        isLoading := false;
      }
    }

    /** `quickLogin`: fill in a demo account's email and the demo password. */
    method QuickLogin(kind: QuickLoginKind, moderators: seq<User>)
      modifies this
      ensures email == QuickLoginEmail(kind, moderators) && password == DEMO_PASSWORD
      ensures error == old(error) && isLoading == old(isLoading)
    {
      email := QuickLoginEmail(kind, moderators);
      password := DEMO_PASSWORD;
    }
  }

  /** Quick admin login followed by sign-in signs the admin in. */
  lemma QuickAdminLoginWorks(moderators: seq<User>)
    ensures Authenticate(Constants.ADMIN_USER, moderators, QuickLoginEmail(AdminLogin, moderators), DEMO_PASSWORD)
            == Some(Constants.ADMIN_USER)
  {
    AuthenticateSpec(Constants.ADMIN_USER, moderators, Constants.ADMIN_USER.email, DEMO_PASSWORD);
  }
}
