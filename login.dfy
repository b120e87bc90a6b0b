/**
 * The pure decisions of the session facade: what `login` does with the
 * `GetAuthRequired` reply, what it returns once `Authenticate` settles, and
 * what the connect handshake resolves with once both capability queries reply.
 */
module Login {

  import opened Wrappers
  import opened Json

  /** How `login` proceeds after `getAuthRequired` resolves. */
  datatype LoginStep =
    | NoAuthNeeded              // resolves `true`, nothing further is sent
    | PasswordRequired          // rejects with `Error('Password Required')`
    | SendAuthenticate(auth: string)

  /**
   * The branch in `login`. `digest(a, b)` stands for the base64 text of the
   * SHA-256 digest of `a` followed by `b`, which the model leaves uninterpreted.
   */
  function LoginDecision(authInfo: Value, password: Option<Value>,
                         digest: (Option<Value>, Option<Value>) -> string): (r: LoginStep)
    ensures r == NoAuthNeeded <==> !Truthy(Get(authInfo, "authRequired"))
    ensures r == PasswordRequired <==> Truthy(Get(authInfo, "authRequired")) && !Truthy(password)
    ensures r.SendAuthenticate? ==>
      r.auth == digest(Some(JStr(digest(password, Get(authInfo, "salt")))), Get(authInfo, "challenge"))
  {
    if Truthy(Get(authInfo, "authRequired")) then
      if !Truthy(password) then PasswordRequired
      else
        var authHash := digest(password, Get(authInfo, "salt"));
        SendAuthenticate(digest(Some(JStr(authHash)), Get(authInfo, "challenge")))
    else NoAuthNeeded
  }

  /** An empty or absent password never reaches the server when authentication is required. */
  lemma EmptyPasswordNeverAuthenticates(authInfo: Value, digest: (Option<Value>, Option<Value>) -> string)
    ensures !LoginDecision(authInfo, None, digest).SendAuthenticate?
    ensures !LoginDecision(authInfo, Some(JStr("")), digest).SendAuthenticate?
  {
  }

  /** What the connect promise resolves with: `{version, auth}`. */
  datatype ConnectInfo = ConnectInfo(version: Option<Value>, auth: Option<Value>)

  /**
   * The `then` of the handshake in `socketOnOpen`:
   * `version['obs-websocket-version'] || version.version` and `authRequired.authRequired`.
   */
  function HandshakeInfo(versionReply: Value, authReply: Value): (r: ConnectInfo)
    ensures Truthy(Get(versionReply, "obs-websocket-version")) ==>
      r.version == Get(versionReply, "obs-websocket-version")
    ensures !Truthy(Get(versionReply, "obs-websocket-version")) ==> r.version == Get(versionReply, "version")
    ensures r.auth == Get(authReply, "authRequired")
  {
    var v := Get(versionReply, "obs-websocket-version");
    ConnectInfo(if Truthy(v) then v else Get(versionReply, "version"), Get(authReply, "authRequired"))
  }

  /** The handshake emits `ready` exactly when `login` would need no authentication. */
  lemma HandshakeReadyAgreesWithLogin(versionReply: Value, authReply: Value, password: Option<Value>,
                                      digest: (Option<Value>, Option<Value>) -> string)
    ensures !Truthy(HandshakeInfo(versionReply, authReply).auth) <==>
      LoginDecision(authReply, password, digest) == NoAuthNeeded
  {
  }
}
