/** The admin login page (src/pages/AdminLogin.tsx): the typed password,
    the browser's local storage, and the login handler that compares the
    password with the configured one. The build-time setting
    `VITE_ADMIN_PASSWORD` is a parameter: `None` when it is not set. */
module AdminLoginPage {
  import opened Wrappers

  const DefaultPassword := "admin123"
  const LoggedInKey := "admin_logged_in"

  /** The password the page accepts: the configured one, or the default
      when the setting is missing or empty (`env || 'admin123'`). */
  function ExpectedPassword(env: Option<string>): (p: string)
    ensures env.Some? && env.value != "" ==> p == env.value
    ensures env.None? || env.value == "" ==> p == DefaultPassword
    ensures p != ""
  {
    if env.Some? && env.value != "" then env.value else DefaultPassword
  }

  /** What the page does after a login attempt. */
  datatype LoginOutcome =
    | Navigate(path: string)
    | ShowError(message: string)

  class LoginPage {
    var password: string
    /** `localStorage`, key to value. */
    var storage: map<string, string>

    constructor (storage: map<string, string>)
      ensures password == "" && this.storage == storage
    {
      password := "";
      this.storage := storage;
    }

    method SetPassword(s: string)
      modifies this`password
      ensures password == s
    {
      password := s;
    }

    /** `handleLogin`: an exact match sets `admin_logged_in` to `'true'`,
        leaves every other entry, and goes to `/admin`; anything else leaves
        storage untouched and reports the error. */
    method HandleLogin(env: Option<string>) returns (outcome: LoginOutcome)
      modifies this`storage
      ensures password == ExpectedPassword(env) ==>
        storage == old(storage)[LoggedInKey := "true"] && outcome == Navigate("/admin")
      ensures password != ExpectedPassword(env) ==>
        storage == old(storage) && outcome == ShowError("Incorrect password")
    {
      var envPass := ExpectedPassword(env);
      if password == envPass {
        storage := storage[LoggedInKey := "true"];
        outcome := Navigate("/admin");
      } else {
        outcome := ShowError("Incorrect password");
      }
    }
  }

  /** Whether a login with `password` succeeds, for reasoning outside the
      page: exactly the configured password, or the default one when
      nothing is configured. */
  predicate Accepts(env: Option<string>, password: string) {
    password == ExpectedPassword(env)
  }

  /** With no configured password the default one logs in and no other
      does; with one configured, the default one no longer works unless it
      is the configured one. */
  lemma AcceptedPasswords(env: Option<string>, password: string)
    ensures env.None? ==> (Accepts(env, password) <==> password == DefaultPassword)
    ensures env.Some? && env.value != "" && env.value != DefaultPassword ==> !Accepts(env, DefaultPassword)
  {
  }
}
