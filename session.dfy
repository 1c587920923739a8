/**
 * lib/session.ts: the startup guard on the session secret, the cookie
 * options, and the session record. Sealing and encrypting the cookie is
 * library behaviour and is not modelled: a `Session` object holds what the
 * cookie holds once the handler has called `save()`.
 */
module SessionConfig {
  import opened Js
  import opened Http

  const CookieName := "decision-debt-studio-session"

  const MinPasswordLength := 32

  const StartupErrorMessage := "MISSING OR INVALID SESSION_PASSWORD. This is a critical security error and the application will not run until it is fixed. Please set the SESSION_PASSWORD environment variable in your .env.local file to a secure string of at least 32 characters and RESTART the server. You can check the status of your environment variables at /api/health."

  /** The secret is usable: present and at least 32 UTF-16 code units long (its JavaScript `length`). */
  predicate PasswordAccepted(p: Option<string>) {
    p.Some? && Utf16Length(p.value) >= MinPasswordLength
  }

  datatype CookieOptions = CookieOptions(secure: bool)

  datatype SessionOptions = SessionOptions(password: string, cookieName: string, cookieOptions: CookieOptions)

  datatype Startup = Started(options: SessionOptions) | Aborted(message: string)

  /** Loading the module: throw unless the secret is accepted, else build `sessionOptions`. */
  function Load(env: Env): (r: Startup)
    ensures r.Aborted? <==> env.sessionPassword.None? || Utf16Length(env.sessionPassword.value) < 32
    ensures r.Aborted? ==> r.message == StartupErrorMessage
    ensures r.Started? ==> r.options.password == env.sessionPassword.value
    ensures r.Started? ==> r.options.cookieName == "decision-debt-studio-session"
    ensures r.Started? ==> (r.options.cookieOptions.secure <==> env.nodeEnv == Some("production"))
  {
    if !Present(env.sessionPassword) || Utf16Length(env.sessionPassword.value) < MinPasswordLength then
      Aborted(StartupErrorMessage)
    else
      Started(SessionOptions(env.sessionPassword.value, CookieName,
                             CookieOptions(env.nodeEnv == Some("production"))))
  }

  /** The guard `!p || p.length < 32` rejects exactly the secrets `PasswordAccepted` does not accept. */
  lemma LoadAbortsUnlessAccepted(env: Env)
    ensures Load(env).Started? <==> PasswordAccepted(env.sessionPassword)
  {
  }

  /**
   * The length is JavaScript's: sixteen characters above U+FFFF (emoji, say)
   * are 32 code units, so such a secret starts the application.
   */
  lemma AstralSecretAccepted(p: string)
    requires |p| == 16 && forall i | 0 <= i < |p| :: p[i] as int > 0xFFFF
    ensures PasswordAccepted(Some(p))
    ensures Load(Env(None, None, None, None, Some(p), None)).Started?
  {
  }

  /** `SessionData`: only `isLoggedIn` is always there. */
  datatype SessionData = SessionData(
    isLoggedIn: bool,
    accessToken: Option<string>,
    instanceUrl: Option<string>,
    refreshToken: Option<string>,
    codeVerifier: Option<string>)

  /** A fresh or destroyed session: iron-session reads `{}`, and a missing `isLoggedIn` is falsy. */
  const EmptySession := SessionData(false, None, None, None, None)

  class Session {
    var isLoggedIn: bool
    var accessToken: Option<string>
    var instanceUrl: Option<string>
    var refreshToken: Option<string>
    var codeVerifier: Option<string>

    function Data(): SessionData
      reads this
    {
      SessionData(isLoggedIn, accessToken, instanceUrl, refreshToken, codeVerifier)
    }

    /** The session of a browser without a session cookie. */
    constructor ()
      ensures Data() == EmptySession
    {
      isLoggedIn := false;
      accessToken := None;
      instanceUrl := None;
      refreshToken := None;
      codeVerifier := None;
    }

    /** `session.destroy()` */
    method Destroy()
      modifies this
      ensures Data() == EmptySession
    {
      isLoggedIn := false;
      accessToken := None;
      instanceUrl := None;
      refreshToken := None;
      codeVerifier := None;
    }
  }
}
