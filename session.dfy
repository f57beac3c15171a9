/** The two process-wide client slots of the tools package and the decision
    procedure that fills them. The third-party API library is not modelled:
    each of its calls is a parameter (an oracle) that says what the call
    returned or raised this time. */
module Session {
  import opened Outcomes
  import opened Text
  import Env

  /** A token record as the library stores it; only key presence is inspected here. */
  type TokenInfo = map<string, string>

  const TokenFile := ".kroger_token_user.json"
  const AppVars := ["KROGER_CLIENT_ID", "KROGER_CLIENT_SECRET"]
  const UserVars := ["KROGER_CLIENT_ID", "KROGER_CLIENT_SECRET", "KROGER_REDIRECT_URI"]
  const InitFailedPrefix := "Failed to initialize client credentials client: "
  const AuthFailedPrefix := "Authentication failed: "
  const AuthRequiredPhrase := "Authentication required"
  const AuthRequiredMessage := AuthRequiredPhrase
    + ". Please use the start_authentication tool to begin the OAuth flow, "
    + "then complete it with the complete_authentication tool."

  /** What `load_token(TOKEN_FILE)` gave: nothing, a record, or an exception. */
  datatype TokenLoad = NoToken | Loaded(info: TokenInfo) | LoadFailed(msg: string)

  /** What `test_current_token()` did: the token tested valid, tested invalid, or the call raised. */
  datatype TokenTest = Valid | Invalid | TestRaised(msg: string)

  /** What `authorization.refresh_token(...)` did: installed a new record, or raised. */
  datatype RefreshOutcome = Refreshed(info: TokenInfo) | RefreshFailed(msg: string)

  /** `if token_info:` — a record counts only when it is present and non-empty. */
  predicate HasToken(stored: TokenLoad) {
    stored.Loaded? && stored.info != map[]
  }

  /** The `except` clause of `get_authenticated_client`: an error whose text
      mentions "Authentication required" propagates as it is, any other is wrapped. */
  function Classify(msg: string): (r: string)
    ensures r == msg || r == AuthFailedPrefix + msg
    ensures Contains(r, msg)
    ensures Contains(r, AuthRequiredPhrase) <==> Contains(msg, AuthRequiredPhrase)
  {
    WrappingAddsNoPhrase(msg);
    ContainsSelf(msg);
    ContainsInside(AuthFailedPrefix, msg, "", msg);
    assert AuthFailedPrefix + msg + "" == AuthFailedPrefix + msg;
    if Contains(msg, AuthRequiredPhrase) then msg else AuthFailedPrefix + msg
  }

  /** Every string contains itself. */
  lemma ContainsSelf(s: string)
    ensures Contains(s, s)
  {
    assert OccursAt(s, s, 0);
  }

  /** Wrapping a message as an authentication failure neither creates nor hides the
      "Authentication required" phrase: the prefix cannot start or contribute to it. */
  lemma WrappingAddsNoPhrase(msg: string)
    ensures Contains(AuthFailedPrefix + msg, AuthRequiredPhrase) <==> Contains(msg, AuthRequiredPhrase)
  {
    var w := AuthFailedPrefix + msg;
    var n := |AuthRequiredPhrase|;
    var k := |AuthFailedPrefix|;
    if Contains(msg, AuthRequiredPhrase) {
      ContainsInside(AuthFailedPrefix, msg, "", AuthRequiredPhrase);
      assert AuthFailedPrefix + msg + "" == w;
    }
    forall i | 0 <= i < k
      ensures !OccursAt(w, AuthRequiredPhrase, i)
    {
      if i + n <= |w| {
        if i == 0 {
          assert w[i..i + n][15] == w[15] == AuthFailedPrefix[15] == 'f';
        } else {
          assert 'A' !in AuthFailedPrefix[1..];
          assert w[i..i + n][0] == w[i] == AuthFailedPrefix[1..][i - 1];
        }
      }
    }
    if Contains(w, AuthRequiredPhrase) {
      var i :| 0 <= i <= |w| - n && OccursAt(w, AuthRequiredPhrase, i);
      assert w[i..i + n] == msg[i - k..i - k + n];
      assert OccursAt(msg, AuthRequiredPhrase, i - k);
    }
  }

  /** A `KrogerAPI` handle. Its identity is the object reference. */
  class ApiClient {
    var tokenInfo: Option<TokenInfo>   // client.token_info
    var tokenFile: Option<string>      // client.token_file
    var appAuthorized: bool            // client_credentials() has completed on it

    constructor ()
      ensures tokenInfo == None && tokenFile == None && !appAuthorized
    {
      tokenInfo := None;
      tokenFile := None;
      appAuthorized := false;
    }
  }

  /** The module-level slots `_client_credentials_client` and `_authenticated_client`. */
  class Sessions {
    var appClient: ApiClient?
    var userClient: ApiClient?

    /** Import time: both slots are `None`. */
    constructor ()
      ensures appClient == null && userClient == null
    {
      appClient := null;
      userClient := null;
    }

    /** `get_client_credentials_client`. A filled slot is returned as it is, with
        no environment check and no authorisation. Otherwise the new handle is put
        in the slot before `client_credentials()` runs, so a failed authorisation
        leaves an unauthorised handle cached; every failure is re-raised with the
        initialisation prefix. */
    method GetClientCredentialsClient(env: Env.Environment, authorize: Status) returns (r: Result<ApiClient>)
      modifies this`appClient
      ensures old(appClient) != null ==> r == Ok(old(appClient)) && appClient == old(appClient)
      ensures old(appClient) == null && !Env.AllSet(env, AppVars) ==>
        appClient == null && r == Err(InitFailedPrefix + Env.EnvCheck(env, AppVars).msg)
      ensures old(appClient) == null && Env.AllSet(env, AppVars) ==>
        appClient != null && fresh(appClient) && appClient.tokenInfo == None &&
        appClient.appAuthorized == authorize.Pass? &&
        r == (if authorize.Pass? then Ok(appClient) else Err(InitFailedPrefix + authorize.msg))
      ensures r.Ok? ==> r.value == appClient
      ensures userClient == old(userClient)
    {
      if appClient != null {
        return Ok(appClient);
      }
      var envStatus := Env.LoadAndValidateEnv(env, AppVars);
      if envStatus.Fail? {
        return Err(InitFailedPrefix + envStatus.msg);
      }
      appClient := new ApiClient();
      if authorize.Fail? {
        return Err(InitFailedPrefix + authorize.msg);
      }
      appClient.appAuthorized := true;
      r := Ok(appClient);
    }

    /** `get_authenticated_client`. `stored` is what the token file yields, `test`
        answers `test_current_token()` for a handle's token record, `refresh`
        answers `refresh_token(...)`. The ghost results count the validity checks
        and refresh attempts the call makes. */
    method GetAuthenticatedClient(env: Env.Environment, stored: TokenLoad,
                                  test: Option<TokenInfo> -> TokenTest,
                                  refresh: string -> RefreshOutcome)
      returns (r: Result<ApiClient>, ghost checks: nat, ghost refreshes: nat)
      modifies this`userClient
      // The cached handle, when its token still tests valid, is returned with nothing else done.
      ensures old(userClient != null && test(userClient.tokenInfo) == Valid) ==>
        r == Ok(old(userClient)) && userClient == old(userClient) && checks == 1 && refreshes == 0
      // The check of the cached handle runs outside the try block: its exception escapes unwrapped.
      ensures old(userClient != null && test(userClient.tokenInfo).TestRaised?) ==>
        r == Err(old(test(userClient.tokenInfo).msg)) && userClient == old(userClient) && checks == 1 && refreshes == 0
      // Otherwise the slot is cleared and recovery runs from scratch.
      ensures old(userClient == null || test(userClient.tokenInfo) == Invalid) && !Env.AllSet(env, UserVars) ==>
        r == Err(Classify(Env.EnvCheck(env, UserVars).msg)) && userClient == null && refreshes == 0
      ensures old(userClient == null || test(userClient.tokenInfo) == Invalid) && Env.AllSet(env, UserVars) &&
              stored.LoadFailed? ==>
        r == Err(Classify(stored.msg)) && userClient == null && refreshes == 0
      ensures old(userClient == null || test(userClient.tokenInfo) == Invalid) && Env.AllSet(env, UserVars) &&
              !stored.LoadFailed? && !HasToken(stored) ==>
        r == Err(AuthRequiredMessage) && userClient == null && refreshes == 0
      ensures old(userClient == null || test(userClient.tokenInfo) == Invalid) && Env.AllSet(env, UserVars) &&
              HasToken(stored) ==>
        var t := stored.info;
        // A new handle bound to the loaded token is in the slot before it is tested.
        match test(Some(t))
        case Valid =>
          userClient != null && fresh(userClient) && r == Ok(userClient) &&
          userClient.tokenInfo == Some(t) && userClient.tokenFile == Some(TokenFile) && refreshes == 0
        case TestRaised(m) =>
          // Raised inside the try block: classified, with the new handle left in the slot.
          userClient != null && fresh(userClient) && userClient.tokenInfo == Some(t) &&
          r == Err(Classify(m)) && refreshes == 0
        case Invalid =>
          if "refresh_token" !in t then
            // Nothing to refresh with: the handle bound to the stale token stays cached.
            userClient != null && fresh(userClient) && userClient.tokenInfo == Some(t) &&
            r == Err(AuthRequiredMessage) && refreshes == 0
          else match refresh(t["refresh_token"])
            case RefreshFailed(_) =>
              // A refresh that raises clears the slot.
              userClient == null && r == Err(AuthRequiredMessage) && refreshes == 1
            case Refreshed(t') =>
              refreshes == 1 &&
              match test(Some(t'))
              case Valid =>
                userClient != null && fresh(userClient) && r == Ok(userClient) &&
                userClient.tokenInfo == Some(t') && userClient.tokenFile == Some(TokenFile)
              case Invalid =>
                // The refreshed handle stays cached although its token tests invalid.
                userClient != null && fresh(userClient) && userClient.tokenInfo == Some(t') &&
                r == Err(AuthRequiredMessage)
              case TestRaised(_) =>
                // Raised inside the refresh's own handler, which clears the slot.
                userClient == null && r == Err(AuthRequiredMessage)
      ensures r.Ok? ==> r.value == userClient && test(r.value.tokenInfo) == Valid
      ensures checks <= 3 && refreshes <= 1
      ensures appClient == old(appClient)
    {
      checks, refreshes := 0, 0;
      if userClient != null {
        checks := 1;
        var outcome := test(userClient.tokenInfo);
        if outcome.TestRaised? {
          return Err(outcome.msg), checks, refreshes;
        }
        if outcome == Valid {
          return Ok(userClient), checks, refreshes;
        }
      }
      userClient := null;
      AuthRequiredPassesThrough();
      var envStatus := Env.LoadAndValidateEnv(env, UserVars);
      if envStatus.Fail? {
        return Err(Classify(envStatus.msg)), checks, refreshes;
      }
      if stored.LoadFailed? {
        return Err(Classify(stored.msg)), checks, refreshes;
      }
      if HasToken(stored) {
        var client := new ApiClient();
        client.tokenInfo := Some(stored.info);
        client.tokenFile := Some(TokenFile);
        userClient := client;
        checks := checks + 1;
        var outcome := test(client.tokenInfo);
        if outcome.TestRaised? {
          return Err(Classify(outcome.msg)), checks, refreshes;
        }
        if outcome == Valid {
          return Ok(client), checks, refreshes;
        }
        if "refresh_token" in stored.info {
          refreshes := 1;
          match refresh(stored.info["refresh_token"]) {
            case Refreshed(info) =>
              client.tokenInfo := Some(info);
              checks := checks + 1;
              var retest := test(client.tokenInfo);
              if retest == Valid {
                return Ok(client), checks, refreshes;
              } else if retest.TestRaised? {
                userClient := null;
              }
            case RefreshFailed(_) =>
              userClient := null;
          }
        }
      }
      r := Err(Classify(AuthRequiredMessage));
    }

    /** `invalidate_authenticated_client`: clears the user slot only. */
    method InvalidateAuthenticatedClient()
      modifies this`userClient
      ensures userClient == null && appClient == old(appClient)
    {
      userClient := null;
    }

    /** `invalidate_client_credentials_client`: clears the app slot only. */
    method InvalidateClientCredentialsClient()
      modifies this`appClient
      ensures appClient == null && userClient == old(userClient)
    {
      appClient := null;
    }
  }

  /** Two calls in a row, with a token that stays valid, return the identical
      handle; the second call does not even consult the token file. */
  method CachedClientIsReused(env: Env.Environment, t: TokenInfo,
                              test: Option<TokenInfo> -> TokenTest, refresh: string -> RefreshOutcome)
    returns (first: ApiClient, second: ApiClient)
    requires Env.AllSet(env, UserVars) && t != map[] && test(Some(t)) == Valid
    ensures first == second && second.tokenInfo == Some(t)
  {
    var s := new Sessions();
    var r1, _, _ := s.GetAuthenticatedClient(env, Loaded(t), test, refresh);
    var r2, _, _ := s.GetAuthenticatedClient(env, NoToken, test, refresh);
    first, second := r1.value, r2.value;
  }

  /** After `invalidate_authenticated_client` the next call rebuilds a handle from
      the token file instead of reusing the old, still valid, one. */
  method InvalidateForcesRecovery(env: Env.Environment, t: TokenInfo,
                                  test: Option<TokenInfo> -> TokenTest, refresh: string -> RefreshOutcome)
    returns (first: ApiClient, second: ApiClient)
    requires Env.AllSet(env, UserVars) && t != map[] && test(Some(t)) == Valid
    ensures first != second && first.tokenInfo == Some(t) && second.tokenInfo == Some(t)
  {
    var s := new Sessions();
    var r1, _, _ := s.GetAuthenticatedClient(env, Loaded(t), test, refresh);
    s.InvalidateAuthenticatedClient();
    var r2, _, _ := s.GetAuthenticatedClient(env, Loaded(t), test, refresh);
    first, second := r1.value, r2.value;
  }

  /** Because the app slot is filled before `client_credentials()` runs, a failed
      authorisation is followed by a call that succeeds with a handle that was
      never authorised. */
  method FailedAuthorizationStaysCached(env: Env.Environment, reason: string)
    returns (first: Result<ApiClient>, second: Result<ApiClient>)
    requires Env.AllSet(env, AppVars)
    ensures first == Err(InitFailedPrefix + reason)
    ensures second.Ok? && !second.value.appAuthorized
  {
    var s := new Sessions();
    first := s.GetClientCredentialsClient(env, Fail(reason));
    second := s.GetClientCredentialsClient(env, Pass);
  }

  /** The "Authentication required" error raised by recovery is never re-wrapped. */
  lemma AuthRequiredPassesThrough()
    ensures Classify(AuthRequiredMessage) == AuthRequiredMessage
  {
    ContainsPrefix(AuthRequiredPhrase, AuthRequiredMessage[|AuthRequiredPhrase|..]);
    assert AuthRequiredPhrase + AuthRequiredMessage[|AuthRequiredPhrase|..] == AuthRequiredMessage;
  }

  /** Any error that does not mention "Authentication required" is wrapped, and the
      wrapped text still carries the original message. */
  lemma OtherErrorsAreWrapped(msg: string)
    requires !Contains(msg, AuthRequiredPhrase)
    ensures Classify(msg) == AuthFailedPrefix + msg
    ensures Contains(Classify(msg), msg)
  {
    ContainsInside(AuthFailedPrefix, msg, "", msg) by {
      assert OccursAt(msg, msg, 0);
    }
    assert AuthFailedPrefix + msg + "" == AuthFailedPrefix + msg;
  }

  /** A missing-variable error during user recovery is reported as an
      authentication failure: none of the required names, and not the message
      prefix, contains the letter that starts "Authentication required". */
  lemma EnvErrorIsWrapped(env: Env.Environment)
    requires !Env.AllSet(env, UserVars)
    ensures Classify(Env.EnvCheck(env, UserVars).msg) == AuthFailedPrefix + Env.EnvCheck(env, UserVars).msg
  {
    Env.MissingMembers(env, UserVars);
    var missing := Env.Missing(env, UserVars);
    assert 'A' !in "KROGER_CLIENT_ID" && 'A' !in "KROGER_CLIENT_SECRET" && 'A' !in "KROGER_REDIRECT_URI";
    JoinAvoids(missing, ", ", 'A');
    assert 'A' !in Env.MissingPrefix;
    var msg := Env.MissingMessage(missing);
    assert 'A' !in msg;
    MissingFirstChar(msg, AuthRequiredPhrase);
  }
}
