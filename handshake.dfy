/** The authorization handshake run by the client's constructor: the
    three-legged OAuth flow (section 2 of RFC 5849) as a step over the
    session. Each step ends in one of four outcomes: the source returns
    normally when authorized and throws TwitterAuthException for the
    redirect and access outcomes; AuthFailed stands for a failed
    TwitterOAuth call, which the class does not handle. */
module Handshake {
  import opened Results
  import opened Text
  import opened OAuth

  /** `$_SESSION`: top-level keys to arrays of strings. */
  type SessionData = map<string, map<string, string>>

  /** The session key of the pending request token. */
  const SLOT := "__TWT"
  const REQUEST_KEY := "request_key"
  const REQUEST_SECRET := "request_secret"

  /** Twitter::AUTH_ACCESS and Twitter::AUTH_REDIRECT. */
  const AUTH_ACCESS := 200
  const AUTH_REDIRECT := 301

  datatype Outcome =
    | Authorized                              // the constructor returns
    | AuthRedirect(url: string)               // TwitterAuthException(url, AUTH_REDIRECT)
    | AuthAccess(key: string, secret: string) // TwitterAuthException(NULL, AUTH_ACCESS, key, secret)
    | AuthFailed(error: TwitterError)         // a collaborator call failed
  {
    /** The code of the TwitterAuthException that signals this outcome. */
    function Code(): Option<int> {
      match this
      case AuthRedirect(_) => Some(AUTH_REDIRECT)
      case AuthAccess(_, _) => Some(AUTH_ACCESS)
      case _ => None
    }
  }

  /** One run of the handshake: its outcome, the credentials the client
      keeps (`$this->oauth`, set only when authorized), the new session and
      the calls made to the remote service. */
  datatype Step = Step(outcome: Outcome, granted: Option<Credentials>, session: SessionData, calls: seq<Call>)

  /** `$_SESSION['__TWT']`; a missing entry reads as an empty array. */
  function Slot(session: SessionData): map<string, string> {
    if SLOT in session then session[SLOT] else map[]
  }

  /** The pending request token: present when both `request_key` and
      `request_secret` are set and truthy. */
  function PendingToken(session: SessionData): (r: Option<Token>)
    ensures r.Some? <==>
      REQUEST_KEY in Slot(session) && REQUEST_SECRET in Slot(session)
      && Truthy(Slot(session)[REQUEST_KEY]) && Truthy(Slot(session)[REQUEST_SECRET])
    ensures r.Some? ==> r.value == Token(Slot(session)[REQUEST_KEY], Slot(session)[REQUEST_SECRET])
  {
    var slot := Slot(session);
    if REQUEST_KEY in slot && REQUEST_SECRET in slot && Truthy(slot[REQUEST_KEY]) && Truthy(slot[REQUEST_SECRET])
    then Some(Token(slot[REQUEST_KEY], slot[REQUEST_SECRET]))
    else None
  }

  /** The handshake of `new Twitter($appKey, $appSecret, $accessKey,
      $accessSecret)`. */
  function Run(consumer: Consumer, accessKey: Option<string>, accessSecret: Option<string>,
               session: SessionData, remote: Remote): (s: Step)
    // both access credentials present: authorized, nothing else happens
    ensures s.outcome == Authorized <==> TruthyOpt(accessKey) && TruthyOpt(accessSecret)
    ensures s.outcome == Authorized ==>
      && s.granted == Some(Credentials(consumer, Some(Token(accessKey.value, accessSecret.value))))
      && s.session == session && s.calls == []
    ensures s.outcome != Authorized ==> s.granted.None?
    // no pending request token: obtain one, store it, redirect
    ensures !(TruthyOpt(accessKey) && TruthyOpt(accessSecret)) && PendingToken(session).None? ==>
      && s.calls == [RequestTokenCall(consumer)]
      && (remote.requestToken(consumer).Ok? <==> s.outcome.AuthRedirect?)
      && (s.outcome.AuthRedirect? ==>
            var token := remote.requestToken(consumer).value;
            && s.outcome.url == remote.authorizeUrl(token.key)
            && s.session == session[SLOT := Slot(session)[REQUEST_KEY := token.key][REQUEST_SECRET := token.secret]])
      && (s.outcome.AuthFailed? ==>
            s.session == session[SLOT := Slot(session)] && s.outcome.error == Transport(remote.requestToken(consumer).error))
    // a pending request token: the session entry is dropped whatever the exchange gives
    ensures !(TruthyOpt(accessKey) && TruthyOpt(accessSecret)) && PendingToken(session).Some? ==>
      var credentials := Credentials(consumer, PendingToken(session));
      && s.calls == [AccessTokenCall(credentials)]
      && s.session == session - {SLOT}
      && (remote.accessToken(credentials).Ok? <==> s.outcome.AuthAccess?)
      && (s.outcome.AuthAccess? ==>
            s.outcome == AuthAccess(remote.accessToken(credentials).value.key, remote.accessToken(credentials).value.secret))
      && (s.outcome.AuthFailed? ==> s.outcome.error == Transport(remote.accessToken(credentials).error))
    // a failed token call ends the run with AuthFailed carrying the library's error
    ensures !(TruthyOpt(accessKey) && TruthyOpt(accessSecret)) && PendingToken(session).None? ==>
      (remote.requestToken(consumer).Err? ==>
         s.outcome == AuthFailed(Transport(remote.requestToken(consumer).error)) && s.session == session[SLOT := Slot(session)])
    ensures !(TruthyOpt(accessKey) && TruthyOpt(accessSecret)) && PendingToken(session).Some? ==>
      var credentials := Credentials(consumer, PendingToken(session));
      (remote.accessToken(credentials).Err? ==> s.outcome == AuthFailed(Transport(remote.accessToken(credentials).error)))
  {
    if TruthyOpt(accessKey) && TruthyOpt(accessSecret) then
      Step(Authorized, Some(Credentials(consumer, Some(Token(accessKey.value, accessSecret.value)))), session, [])
    else
      var slot := Slot(session);
      match PendingToken(session)
      case None =>
        (match remote.requestToken(consumer)
         case Err(message) =>
           Step(AuthFailed(Transport(message)), None, session[SLOT := slot], [RequestTokenCall(consumer)])
         case Ok(token) =>
           var stored := slot[REQUEST_KEY := token.key][REQUEST_SECRET := token.secret];
           Step(AuthRedirect(remote.authorizeUrl(stored[REQUEST_KEY])), None, session[SLOT := stored],
                [RequestTokenCall(consumer)]))
      case Some(pending) =>
        var credentials := Credentials(consumer, Some(pending));
        match remote.accessToken(credentials)
        case Err(message) => Step(AuthFailed(Transport(message)), None, session - {SLOT}, [AccessTokenCall(credentials)])
        case Ok(access) => Step(AuthAccess(access.key, access.secret), None, session - {SLOT}, [AccessTokenCall(credentials)])
  }

  predicate TruthyToken(t: Token) {
    Truthy(t.key) && Truthy(t.secret)
  }

  /** The whole flow. From a session with no pending token, a client built
      without access credentials redirects to the authorization URL of a
      fresh request token; built again, it exchanges exactly that token for
      an access token and leaves no trace of it in the session; built a
      third time with the access token, it is authorized. */
  lemma ThreeLeggedFlow(consumer: Consumer, session: SessionData, remote: Remote)
    requires PendingToken(session).None?
    requires remote.requestToken(consumer).Ok? && TruthyToken(remote.requestToken(consumer).value)
    requires remote.accessToken(Credentials(consumer, Some(remote.requestToken(consumer).value))).Ok?
    ensures
      var request := remote.requestToken(consumer).value;
      var exchanged := Credentials(consumer, Some(request));
      var access := remote.accessToken(exchanged).value;
      var first := Run(consumer, None, None, session, remote);
      var second := Run(consumer, None, None, first.session, remote);
      var third := Run(consumer, Some(access.key), Some(access.secret), second.session, remote);
      && first.outcome == AuthRedirect(remote.authorizeUrl(request.key))
      && second.outcome == AuthAccess(access.key, access.secret)
      && second.calls == [AccessTokenCall(exchanged)]
      && second.session == session - {SLOT}
      && (TruthyToken(access) ==>
            third.outcome == Authorized && third.granted == Some(Credentials(consumer, Some(access))))
  {
    var request := remote.requestToken(consumer).value;
    var first := Run(consumer, None, None, session, remote);
    assert PendingToken(first.session) == Some(request);
    assert first.session - {SLOT} == session - {SLOT};
  }

  /** The pending token is single-use: once it has been exchanged, a client
      built without access credentials starts over with a new request
      token. */
  lemma PendingTokenSingleUse(consumer: Consumer, session: SessionData, remote: Remote)
    requires PendingToken(session).Some?
    ensures
      var second := Run(consumer, None, None, session, remote);
      var third := Run(consumer, None, None, second.session, remote);
      third.calls == [RequestTokenCall(consumer)]
  {
    var second := Run(consumer, None, None, session, remote);
    assert SLOT !in second.session;
    assert PendingToken(second.session).None?;
  }
}
