/** `TokenServiceImpl.reissueAccessToken`: rotation of the access token of
    a stored (access, refresh) token pair. The caller's id, the presented
    access token, the clock, the validity window and the JWT minting
    function of `JwtUtil` are parameters. */
module Tokens {
  import opened Common
  import Repository

  const SecondsPerDay: int := 86400

  /** A token row: its owner, both tokens and both expiry times. */
  datatype Token = Token(
    userId: UserId,
    accessToken: string,
    refreshToken: string,
    accessTokenExpiredAt: DateTime,
    refreshTokenExpiredAt: DateTime)

  datatype TokenResponse = TokenResponse(
    id: UserId,
    accessToken: string,
    refreshToken: string,
    accessTokenExpiredAt: DateTime,
    refreshTokenExpiredAt: DateTime)

  /** `findTokenByAccessTokenAndRefreshToken`: the row equal to both tokens. */
  function FindToken(tokens: seq<Token>, accessToken: string, refreshToken: string): (r: Option<nat>)
    ensures r.Some? ==> r.value < |tokens|
                        && tokens[r.value].accessToken == accessToken
                        && tokens[r.value].refreshToken == refreshToken
    ensures r.None? <==> forall j :: 0 <= j < |tokens| ==>
                           tokens[j].accessToken != accessToken || tokens[j].refreshToken != refreshToken
  {
    Repository.FirstIndex(tokens, (t: Token) => t.accessToken == accessToken && t.refreshToken == refreshToken)
  }

  /** With refresh tokens unique, at most one row matches a pair. */
  lemma FindTokenUnique(tokens: seq<Token>, accessToken: string, refreshToken: string, j: nat)
    requires forall i, k :: 0 <= i < k < |tokens| ==> tokens[i].refreshToken != tokens[k].refreshToken
    requires j < |tokens| && tokens[j].accessToken == accessToken && tokens[j].refreshToken == refreshToken
    ensures FindToken(tokens, accessToken, refreshToken) == Some(j)
  {
    var r := FindToken(tokens, accessToken, refreshToken);
    assert r.Some?;
    var i := r.value;
    assert tokens[i].refreshToken == tokens[j].refreshToken;
  }

  class TokenService {
    /** The token repository, in storage order. */
    var tokens: seq<Token>
    /** The user repository. */
    var users: map<UserId, User>

    /** Refresh tokens are unique, so a pair lookup finds at most one row. */
    ghost predicate Valid()
      reads this
    {
      forall i, k :: 0 <= i < k < |tokens| ==> tokens[i].refreshToken != tokens[k].refreshToken
    }

    constructor (tokens: seq<Token>, users: map<UserId, User>)
      requires forall i, k :: 0 <= i < k < |tokens| ==> tokens[i].refreshToken != tokens[k].refreshToken
      ensures Valid() && this.tokens == tokens && this.users == users
    {
      this.tokens := tokens;
      this.users := users;
    }

    /** `reissueAccessToken`. The lookup result is dereferenced for logging
        before the empty case is checked, so an unknown pair fails with
        `NoSuchElement`; an unknown caller fails with a bare runtime
        exception before the row is touched. On success only the access
        token and its expiry of the matched row change, the new token being
        minted for the caller; no other row carries the presented refresh
        token, and the response carries the caller's id. */
    method ReissueAccessToken(callerId: UserId, accessToken: string, refreshToken: string,
                              now: DateTime, expireDays: int, createJwt: User -> string)
      returns (r: Result<TokenResponse>)
      requires Valid()
      modifies this
      ensures Valid() && users == old(users)
      ensures FindToken(old(tokens), accessToken, refreshToken).None? ==>
                r == Err(NoSuchElement) && tokens == old(tokens)
      ensures FindToken(old(tokens), accessToken, refreshToken).Some? && callerId !in old(users) ==>
                r == Err(Runtime) && tokens == old(tokens)
      ensures FindToken(old(tokens), accessToken, refreshToken).Some? && callerId in old(users) ==>
                var i := FindToken(old(tokens), accessToken, refreshToken).value;
                var t := old(tokens)[i];
                var t' := t.(accessToken := createJwt(old(users)[callerId]),
                             accessTokenExpiredAt := now + expireDays * SecondsPerDay);
                && tokens == old(tokens)[i := t']
                && r == Ok(TokenResponse(callerId, t'.accessToken, t.refreshToken,
                                         t'.accessTokenExpiredAt, t.refreshTokenExpiredAt))
                && (forall j :: 0 <= j < |tokens| && j != i ==> tokens[j].refreshToken != refreshToken)
                && (expireDays > 0 ==> r.value.accessTokenExpiredAt > now)
    {
      var found := FindToken(tokens, accessToken, refreshToken);
      if found.None? {
        // result.get() in the log line
        return Err(NoSuchElement);
      }
      var i := found.value;
      var token := tokens[i];
      if callerId !in users {
        return Err(Runtime);
      }
      var jwt := createJwt(users[callerId]);
      token := token.(accessToken := jwt);
      token := token.(accessTokenExpiredAt := now + expireDays * SecondsPerDay);
      tokens := tokens[i := token];
      r := Ok(TokenResponse(callerId, token.accessToken, token.refreshToken,
                            token.accessTokenExpiredAt, token.refreshTokenExpiredAt));
    }
  }

  /** The rows other than the matched one are untouched, and the pair can be
      rotated again only with the new access token. */
  lemma RotationTouchesOneRow(tokens: seq<Token>, i: nat, jwt: string, expiry: DateTime)
    requires i < |tokens|
    requires forall a, k :: 0 <= a < k < |tokens| ==> tokens[a].refreshToken != tokens[k].refreshToken
    ensures var tokens' := tokens[i := tokens[i].(accessToken := jwt, accessTokenExpiredAt := expiry)];
      && |tokens'| == |tokens|
      && (forall k :: 0 <= k < |tokens| && k != i ==> tokens'[k] == tokens[k])
      && FindToken(tokens', jwt, tokens[i].refreshToken) == Some(i)
      && (tokens[i].accessToken != jwt ==> FindToken(tokens', tokens[i].accessToken, tokens[i].refreshToken).None?)
  {
    var tokens' := tokens[i := tokens[i].(accessToken := jwt, accessTokenExpiredAt := expiry)];
    FindTokenUnique(tokens', jwt, tokens[i].refreshToken, i);
    if tokens[i].accessToken != jwt {
      forall j | 0 <= j < |tokens'|
        ensures tokens'[j].accessToken != tokens[i].accessToken || tokens'[j].refreshToken != tokens[i].refreshToken
      {
        if j != i {
          if j < i {
            assert tokens[j].refreshToken != tokens[i].refreshToken;
          } else {
            assert tokens[i].refreshToken != tokens[j].refreshToken;
          }
        }
      }
    }
  }
}
