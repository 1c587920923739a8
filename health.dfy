/**
 * app/api/health/route.ts: `GET` reports, for each environment variable the
 * application needs, whether it is usable, without revealing any value.
 */
module Health {
  import opened Js
  import opened Http
  import SessionConfig

  const OkLabel := "OK"
  const MissingLabel := "MISSING"
  const WeakPasswordLabel := "MISSING or too short (must be >= 32 chars)"
  const RestartMessage := "If any of the above are MISSING, please check your .env.local file and RESTART the server."

  /** `process.env.X ? 'OK' : 'MISSING'` */
  function PresenceLabel(v: Option<string>): (r: string)
    ensures r == OkLabel <==> Present(v)
    ensures r == MissingLabel <==> !Present(v)
  {
    if Present(v) then OkLabel else MissingLabel
  }

  /** `p && p.length >= 32 ? 'OK' : 'MISSING or too short ...'` */
  function PasswordLabel(p: Option<string>): (r: string)
    ensures r == OkLabel <==> SessionConfig.PasswordAccepted(p)
    ensures r == WeakPasswordLabel <==> !SessionConfig.PasswordAccepted(p)
  {
    if Present(p) && Utf16Length(p.value) >= 32 then OkLabel else WeakPasswordLabel
  }

  /** `GET /api/health` */
  function Get(env: Env): (r: Response)
    ensures r.JsonReply? && r.status == 200 && r.body.Obj?
    ensures r.body.props.Keys == {"salesforce", "session", "status", "message"}
    ensures r.body.props["status"] == Str("ok")
    ensures var sf := r.body.props["salesforce"];
      && sf.Obj? && sf.props.Keys == {"SF_LOGIN_URL", "SF_CLIENT_ID", "SF_CLIENT_SECRET", "SF_REDIRECT_URI"}
      && (sf.props["SF_LOGIN_URL"] == Str(OkLabel) <==> Present(env.sfLoginUrl))
      && (sf.props["SF_CLIENT_ID"] == Str(OkLabel) <==> Present(env.sfClientId))
      && (sf.props["SF_CLIENT_SECRET"] == Str(OkLabel) <==> Present(env.sfClientSecret))
      && (sf.props["SF_REDIRECT_URI"] == Str(OkLabel) <==> Present(env.sfRedirectUri))
      && (forall k | k in sf.props :: sf.props[k] in {Str(OkLabel), Str(MissingLabel)})
    ensures var session := r.body.props["session"];
      && session.Obj? && session.props.Keys == {"SESSION_PASSWORD"}
      && (session.props["SESSION_PASSWORD"] == Str(OkLabel) <==> SessionConfig.PasswordAccepted(env.sessionPassword))
      && session.props["SESSION_PASSWORD"] in {Str(OkLabel), Str(WeakPasswordLabel)}
  {
    JsonReply(200, Obj(map[
      "salesforce" := Obj(map[
        "SF_LOGIN_URL" := Str(PresenceLabel(env.sfLoginUrl)),
        "SF_CLIENT_ID" := Str(PresenceLabel(env.sfClientId)),
        "SF_CLIENT_SECRET" := Str(PresenceLabel(env.sfClientSecret)),
        "SF_REDIRECT_URI" := Str(PresenceLabel(env.sfRedirectUri))]),
      "session" := Obj(map["SESSION_PASSWORD" := Str(PasswordLabel(env.sessionPassword))]),
      "status" := Str("ok"),
      "message" := Str(RestartMessage)]))
  }

  /** The password is reported usable exactly when the session module starts. */
  lemma HealthAgreesWithStartup(env: Env)
    ensures PasswordLabel(env.sessionPassword) == OkLabel <==> SessionConfig.Load(env).Started?
  {
    SessionConfig.LoadAbortsUnlessAccepted(env);
  }

  /**
   * The report depends on nothing but which variables are usable: two
   * environments that agree on that get the same report, whatever the
   * values, so no value can be read back from it.
   */
  lemma ReportRevealsOnlyPresence(a: Env, b: Env)
    requires Present(a.sfLoginUrl) == Present(b.sfLoginUrl)
    requires Present(a.sfClientId) == Present(b.sfClientId)
    requires Present(a.sfClientSecret) == Present(b.sfClientSecret)
    requires Present(a.sfRedirectUri) == Present(b.sfRedirectUri)
    requires SessionConfig.PasswordAccepted(a.sessionPassword) == SessionConfig.PasswordAccepted(b.sessionPassword)
    ensures Get(a) == Get(b)
  {
  }
}
