/**
 * The CRM's OAuth2 credential record (`KeapAuth`): one access token, one
 * refresh token and an expiry instant, updated in place by an
 * authorization-code exchange and by a refresh, and read through a
 * freshness check. Time is a number of seconds; each reply of the CRM's
 * token endpoint is an input.
 */
module Models {
  import opened Wrappers
  import opened PyText

  /** The three token fields of a token-endpoint JSON body. */
  datatype Grant = Grant(accessToken: string, refreshToken: string, expiresIn: int)

  /**
   * One reply of the token endpoint: its HTTP status, and the token fields
   * when the body carries all of them (`None`: reading them raises KeyError).
   */
  datatype TokenReply = TokenReply(status: int, grant: Option<Grant>)

  /** A POST to the token endpoint. */
  datatype TokenRequest = CodeGrant(code: string) | RefreshGrant(refreshToken: string)

  /**
   * Why no token was obtained. `CodeRequired`, `RefreshTokenMissing` and
   * `RefreshRejected` are the KeapAuthError cases; `MalformedReply` is the
   * KeyError of a body without token fields; `NoCredential` is a record that
   * was never given an expiry (no credential row exists yet).
   */
  datatype TokenError =
    | CodeRequired
    | RefreshTokenMissing
    | RefreshRejected(status: int)
    | MalformedReply
    | NoCredential

  /** The stored fields of the credential record. */
  datatype Credential = Credential(accessToken: string, refreshToken: string, expiresAt: Option<int>)

  /** The three states of the credential's life. */
  datatype TokenState = Missing | Fresh | Expired

  function StateAt(c: Credential, now: int): TokenState {
    match c.expiresAt
    case None => Missing
    case Some(t) => if now < t then Fresh else Expired
  }

  /** What one token operation did: its outcome, the new record and the requests it sent. */
  datatype TokenStep = TokenStep(outcome: Result<string, TokenError>, cred: Credential, requests: seq<TokenRequest>)

  /** The record a successful grant leaves behind. */
  function Granted(g: Grant, now: int): Credential {
    Credential(g.accessToken, g.refreshToken, Some(now + g.expiresIn))
  }

  /** `request_access_token(code)`: the authorization-code exchange. */
  function Exchange(c: Credential, code: PyStr, now: int, reply: TokenReply): (s: TokenStep)
    ensures !Truthy(code) ==> s == TokenStep(Failure(CodeRequired), c, [])
    ensures Truthy(code) ==> s.requests == [CodeGrant(code.value)]
    ensures s.outcome.Failure? ==> s.cred == c
    ensures s.outcome.Success? <==> Truthy(code) && reply.grant.Some?
    ensures s.outcome.Success? ==>
      s.cred == Granted(reply.grant.value, now) && s.outcome.value == reply.grant.value.accessToken
  {
    if !Truthy(code) then TokenStep(Failure(CodeRequired), c, [])
    else
      match reply.grant
      case None => TokenStep(Failure(MalformedReply), c, [CodeGrant(code.value)])
      case Some(g) => TokenStep(Success(g.accessToken), Granted(g, now), [CodeGrant(code.value)])
  }

  /** `refresh_access_token()` */
  function Refresh(c: Credential, now: int, reply: TokenReply): (s: TokenStep)
    ensures c.refreshToken == "" ==> s == TokenStep(Failure(RefreshTokenMissing), c, [])
    ensures c.refreshToken != "" ==> s.requests == [RefreshGrant(c.refreshToken)]
    ensures c.refreshToken != "" && reply.status != 200 ==> s.outcome == Failure(RefreshRejected(reply.status))
    ensures s.outcome.Failure? ==> s.cred == c
    ensures s.outcome.Success? <==> c.refreshToken != "" && reply.status == 200 && reply.grant.Some?
    ensures s.outcome.Success? ==>
      s.cred == Granted(reply.grant.value, now) && s.outcome.value == reply.grant.value.accessToken
  {
    if c.refreshToken == "" then TokenStep(Failure(RefreshTokenMissing), c, [])
    else if reply.status != 200 then TokenStep(Failure(RefreshRejected(reply.status)), c, [RefreshGrant(c.refreshToken)])
    else
      match reply.grant
      case None => TokenStep(Failure(MalformedReply), c, [RefreshGrant(c.refreshToken)])
      case Some(g) => TokenStep(Success(g.accessToken), Granted(g, now), [RefreshGrant(c.refreshToken)])
  }

  /** `get_actual_access_token()`: the cached token while fresh, otherwise a refresh first. */
  function Fetch(c: Credential, now: int, reply: TokenReply): (s: TokenStep)
    ensures StateAt(c, now) == Fresh ==> s == TokenStep(Success(c.accessToken), c, [])
    ensures StateAt(c, now) == Expired ==> s == Refresh(c, now, reply)
    ensures StateAt(c, now) == Missing ==> s == TokenStep(Failure(NoCredential), c, [])
    ensures |s.requests| <= 1
    ensures s.outcome.Success? ==> s.outcome.value == s.cred.accessToken
    ensures s.outcome.Failure? ==> s.cred == c
  {
    match c.expiresAt
    case None => TokenStep(Failure(NoCredential), c, [])
    case Some(t) => if now < t then TokenStep(Success(c.accessToken), c, []) else Refresh(c, now, reply)
  }

  /** A fresh token is returned as stored, and nothing is sent. */
  lemma FreshTokenIsReused(c: Credential, now: int, reply: TokenReply)
    requires StateAt(c, now) == Fresh
    ensures Fetch(c, now, reply).outcome == Success(c.accessToken)
    ensures Fetch(c, now, reply).requests == []
    ensures Fetch(c, now, reply).cred == c
  {
  }

  /**
   * An expired token is refreshed exactly once (when a refresh token is
   * stored) and the refreshed token is the one returned; a failed refresh
   * returns no token and keeps the record.
   */
  lemma ExpiredTokenIsRefreshedOnce(c: Credential, now: int, reply: TokenReply)
    requires StateAt(c, now) == Expired
    ensures var s := Fetch(c, now, reply);
      && (c.refreshToken != "" ==> s.requests == [RefreshGrant(c.refreshToken)])
      && (c.refreshToken == "" ==> s.requests == [] && s.outcome == Failure(RefreshTokenMissing))
      && (s.outcome.Success? ==> s.outcome.value == reply.grant.value.accessToken && s.cred == Granted(reply.grant.value, now))
      && (s.outcome.Failure? ==> s.cred == c)
  {
  }

  /**
   * The state machine: a successful exchange or refresh with a positive
   * lifetime leaves a fresh credential, whose next read sends nothing and
   * returns the granted token.
   */
  lemma GrantMakesCredentialFresh(c: Credential, code: PyStr, now: int, reply: TokenReply, later: TokenReply)
    requires reply.grant.Some? && reply.grant.value.expiresIn > 0
    ensures var e := Exchange(c, code, now, reply);
      e.outcome.Success? ==> StateAt(e.cred, now) == Fresh && Fetch(e.cred, now, later) == TokenStep(e.outcome, e.cred, [])
    ensures var r := Refresh(c, now, reply);
      r.outcome.Success? ==> StateAt(r.cred, now) == Fresh && Fetch(r.cred, now, later) == TokenStep(r.outcome, r.cred, [])
  {
  }

  /** The code exchange does not look at the HTTP status: a 401 carrying token fields is accepted. */
  lemma ExchangeIgnoresStatus()
    ensures var g := Grant("a", "r", 3600);
      Exchange(Credential("", "", None), Some("c"), 0, TokenReply(401, Some(g))).outcome == Success("a")
  {
  }

  /** The credential record (`KeapAuth`). */
  class KeapAuth {
    var accessToken: string
    var refreshToken: string
    var expiresAt: Option<int>
    /** The token-endpoint requests this record has sent, oldest first. */
    var sent: seq<TokenRequest>

    function Cred(): Credential
      reads this
    {
      Credential(accessToken, refreshToken, expiresAt)
    }

    /** `KeapAuth()`: an unsaved record with empty tokens and no expiry. */
    constructor ()
      ensures Cred() == Credential("", "", None) && sent == []
    {
      accessToken := "";
      refreshToken := "";
      expiresAt := None;
      sent := [];
    }

    /** `request_access_token(code)`; the result is the stored access token. */
    method RequestAccessToken(code: PyStr, now: int, reply: TokenReply) returns (r: Result<string, TokenError>)
      modifies this
      ensures var s := Exchange(old(Cred()), code, now, reply);
        r == s.outcome && Cred() == s.cred && sent == old(sent) + s.requests
    {
      if !Truthy(code) {
        return Failure(CodeRequired);
      }
      sent := sent + [CodeGrant(code.value)];
      if reply.grant.None? {
        return Failure(MalformedReply);
      }
      var g := reply.grant.value;
      accessToken := g.accessToken;
      refreshToken := g.refreshToken;
      expiresAt := Some(now + g.expiresIn);
      return Success(accessToken);
    }

    /** `refresh_access_token()`; the result is the stored access token. */
    method RefreshAccessToken(now: int, reply: TokenReply) returns (r: Result<string, TokenError>)
      modifies this
      ensures var s := Refresh(old(Cred()), now, reply);
        r == s.outcome && Cred() == s.cred && sent == old(sent) + s.requests
    {
      if refreshToken == "" {
        return Failure(RefreshTokenMissing);
      }
      sent := sent + [RefreshGrant(refreshToken)];
      if reply.status != 200 {
        return Failure(RefreshRejected(reply.status));
      }
      if reply.grant.None? {
        return Failure(MalformedReply);
      }
      var g := reply.grant.value;
      accessToken := g.accessToken;
      refreshToken := g.refreshToken;
      expiresAt := Some(now + g.expiresIn);
      return Success(accessToken);
    }

    /** `get_actual_access_token()` */
    method GetActualAccessToken(now: int, reply: TokenReply) returns (r: Result<string, TokenError>)
      modifies this
      ensures var s := Fetch(old(Cred()), now, reply);
        r == s.outcome && Cred() == s.cred && sent == old(sent) + s.requests
    {
      if expiresAt.None? {
        return Failure(NoCredential);
      }
      if now < expiresAt.value {
        return Success(accessToken);
      }
      var refreshed := RefreshAccessToken(now, reply);
      if refreshed.Failure? {
        return Failure(refreshed.error);
      }
      return Success(accessToken);
    }
  }
}
