/**
 * Sign-in helpers (frontend/src/utils/auth.js): the hosted sign-in page
 * URLs, reading the tokens the identity provider hands back in the URL
 * fragment, keeping the tokens in browser storage, and the user details
 * read from the decoded identity token. Percent-encoding, query-string
 * parsing and token decoding are passed in as functions.
 */
module Auth {
  import opened Wrappers
  import opened Text
  import opened JsonValue

  const DefaultCognitoDomain: string := "us-east-1cjfhgfmkc.auth.us-east-1.amazoncognito.com"
  const DefaultClientId: string := "3hvaqou47k64shd2qmra5211sb"
  const DefaultRedirectUri: string := "https://d1k8502xw64gvv.cloudfront.net"

  const TokenKey: string := "familyCloudIdToken"
  const AccessTokenKey: string := "familyCloudAccessToken"
  /** The older key the id token is also written under. */
  const LegacyTokenKey: string := "authToken"
  const DevTokenKey: string := "devAuthToken"

  const DefaultTokenType: string := "Bearer"

  datatype HostedUi = HostedUi(domain: string, clientId: string, redirectUri: string)

  /** `env || default` for one setting. */
  function Setting(env: Option<string>, default: string): (r: string)
    ensures env.Some? && env.value != "" ==> r == env.value
    ensures env.None? || env.value == "" ==> r == default
  {
    if env.Some? && env.value != "" then env.value else default
  }

  /** The hosted-UI settings: each environment value when set, else its fixed default. */
  function Configure(domain: Option<string>, clientId: Option<string>, redirectUri: Option<string>): (ui: HostedUi)
    ensures ui.domain == (if domain.Some? && domain.value != "" then domain.value else DefaultCognitoDomain)
    ensures ui.clientId == (if clientId.Some? && clientId.value != "" then clientId.value else DefaultClientId)
    ensures ui.redirectUri == (if redirectUri.Some? && redirectUri.value != "" then redirectUri.value else DefaultRedirectUri)
  {
    HostedUi(Setting(domain, DefaultCognitoDomain), Setting(clientId, DefaultClientId), Setting(redirectUri, DefaultRedirectUri))
  }

  /** `https://${domain}${page}${query}`. */
  function PageUrl(ui: HostedUi, page: string, query: string): string {
    "https://" + ui.domain + page + query
  }

  /** The query of the sign-in and sign-up pages; `encode` stands for `encodeURIComponent`. */
  function AuthorizeQuery(ui: HostedUi, encode: string -> string): string {
    "?client_id=" + ui.clientId + "&response_type=token&redirect_uri=" + encode(ui.redirectUri)
  }

  /** `getCognitoLoginUrl()`. */
  function LoginUrl(ui: HostedUi, encode: string -> string): (r: string)
    ensures var head := "https://" + ui.domain + "/login?client_id=" + ui.clientId + "&response_type=token&redirect_uri=";
            r == head + encode(ui.redirectUri)
  {
    PageUrl(ui, "/login", AuthorizeQuery(ui, encode))
  }

  /** `getCognitoSignupUrl()`. */
  function SignupUrl(ui: HostedUi, encode: string -> string): (r: string)
    ensures var head := "https://" + ui.domain + "/signup?client_id=" + ui.clientId + "&response_type=token&redirect_uri=";
            r == head + encode(ui.redirectUri)
  {
    PageUrl(ui, "/signup", AuthorizeQuery(ui, encode))
  }

  /** `getCognitoLogoutUrl()`: no response type, and the address to return to is `logout_uri`. */
  function LogoutUrl(ui: HostedUi, encode: string -> string): (r: string)
    ensures var head := "https://" + ui.domain + "/logout?client_id=" + ui.clientId + "&logout_uri=";
            r == head + encode(ui.redirectUri)
  {
    PageUrl(ui, "/logout", "?client_id=" + ui.clientId + "&logout_uri=" + encode(ui.redirectUri))
  }

  /**
   * The sign-in and sign-up URLs agree everywhere except in the path
   * segment after the domain: `/login` in one, `/signup` in the other.
   */
  lemma LoginSignupDifferInSegment(ui: HostedUi, encode: string -> string)
    ensures var n := |"https://" + ui.domain|;
            var login, signup := LoginUrl(ui, encode), SignupUrl(ui, encode);
            && |login| + 1 == |signup|
            && login[..n] == signup[..n] == "https://" + ui.domain
            && login[n..n + 6] == "/login" && signup[n..n + 7] == "/signup"
            && login[n + 6..] == signup[n + 7..]
  {
    var p := "https://" + ui.domain;
    var q := AuthorizeQuery(ui, encode);
    ThreeParts(p, "/login", q);
    ThreeParts(p, "/signup", q);
  }

  /** The three pieces of `a + b + c` are found again at their offsets. */
  lemma ThreeParts(a: string, b: string, c: string)
    ensures var s := a + b + c;
            s[..|a|] == a && s[|a|..|a| + |b|] == b && s[|a| + |b|..] == c
  {
    var s := a + b + c;
    assert s[..|a|] == a;
    assert s[|a|..|a| + |b|] == b;
  }

  /** Every hosted-UI URL ends with the encoded redirect address. */
  lemma UrlsEndWithRedirect(ui: HostedUi, encode: string -> string)
    ensures var e := encode(ui.redirectUri);
            && LoginUrl(ui, encode)[|LoginUrl(ui, encode)| - |e|..] == e
            && SignupUrl(ui, encode)[|SignupUrl(ui, encode)| - |e|..] == e
            && LogoutUrl(ui, encode)[|LogoutUrl(ui, encode)| - |e|..] == e
  {
  }

  /** `expiresIn`: absent (`null`), not a number (`NaN`), or a number of seconds. */
  datatype Expiry = NoExpiry | NotANumber | Seconds(n: int)

  datatype HashResult =
    | CognitoError(error: string, errorDescription: Option<string>)
    | Tokens(idToken: string, accessToken: string, expiresIn: Expiry, tokenType: string)

  /** `params.get(key)`: `None` when the parameter is not there. */
  function Param(params: map<string, string>, key: string): Option<string> {
    if key in params then Some(params[key]) else None
  }

  /** The parameter is there and not empty. */
  predicate Given(params: map<string, string>, key: string) {
    key in params && params[key] != ""
  }

  /**
   * `parseTokensFromHash(hash)`; `parse` stands for `new URLSearchParams`
   * and `""` also for a missing hash. `None` is `null`.
   */
  function ParseTokensFromHash(hash: string, parse: string -> map<string, string>): (r: Option<HashResult>)
    ensures hash == "" ==> r.None?
    ensures hash != "" ==> var params := parse(hash[1..]);
      && (r.Some? && r.value.CognitoError? <==> Given(params, "error"))
      && (r.Some? && r.value.Tokens? <==> !Given(params, "error") && Given(params, "id_token") && Given(params, "access_token"))
      && (r.Some? && r.value.CognitoError? ==>
            r.value.error == params["error"] && r.value.errorDescription == Param(params, "error_description"))
      && (r.Some? && r.value.Tokens? ==>
            && r.value.idToken == params["id_token"] && r.value.accessToken == params["access_token"]
            && r.value.tokenType != ""
            && (Given(params, "token_type") ==> r.value.tokenType == params["token_type"])
            && (!Given(params, "token_type") ==> r.value.tokenType == DefaultTokenType)
            && (r.value.expiresIn.NoExpiry? <==> !Given(params, "expires_in")))
  {
    if hash == "" then None
    else
      var params := parse(hash[1..]);
      if Given(params, "error") then
        Some(CognitoError(params["error"], Param(params, "error_description")))
      else if !Given(params, "id_token") || !Given(params, "access_token") then
        None
      else
        var expiresIn :=
          if !Given(params, "expires_in") then NoExpiry
          else match ParseInt10(params["expires_in"])
            case None => NotANumber
            case Some(n) => Seconds(n);
        var tokenType := if Given(params, "token_type") then params["token_type"] else DefaultTokenType;
        Some(Tokens(params["id_token"], params["access_token"], expiresIn, tokenType))
  }

  /** A lifetime written as a decimal number is read back as that number of seconds. */
  lemma ExpiryReadBack(hash: string, parse: string -> map<string, string>, n: int)
    requires hash != ""
    requires var params := parse(hash[1..]);
      !Given(params, "error") && Given(params, "id_token") && Given(params, "access_token")
      && Param(params, "expires_in") == Some(IntToString(n))
    ensures ParseTokensFromHash(hash, parse) == Some(Tokens(
      parse(hash[1..])["id_token"], parse(hash[1..])["access_token"], Seconds(n),
      if Given(parse(hash[1..]), "token_type") then parse(hash[1..])["token_type"] else DefaultTokenType))
  {
    ParseIntRoundTrip(n);
  }

  /** What `getUserInfo` returns. */
  datatype UserInfo = UserInfo(sub: Json, email: Json, emailVerified: Json, name: Json, username: Json)

  /**
   * The user details read from decoded claims: the display name falls back
   * from `name` to `cognito:username` to `email`, and the user name from
   * `cognito:username` to `email`.
   */
  function UserInfoFrom(claims: Json): (u: UserInfo)
    ensures u.sub == Get(claims, "sub") && u.email == Get(claims, "email")
    ensures u.emailVerified == Get(claims, "email_verified")
    ensures Truthy(Get(claims, "name")) ==> u.name == Get(claims, "name")
    ensures !Truthy(Get(claims, "name")) ==> u.name == u.username
    ensures Truthy(Get(claims, "cognito:username")) ==> u.username == Get(claims, "cognito:username")
    ensures !Truthy(Get(claims, "cognito:username")) ==> u.username == Get(claims, "email")
  {
    UserInfo(
      Get(claims, "sub"),
      Get(claims, "email"),
      Get(claims, "email_verified"),
      Or(Get(claims, "name"), Or(Get(claims, "cognito:username"), Get(claims, "email"))),
      Or(Get(claims, "cognito:username"), Get(claims, "email")))
  }

  /** The part of browser storage that holds the tokens. */
  class TokenStore {
    var items: map<string, string>

    constructor (initial: map<string, string>)
      ensures items == initial
    {
      items := initial;
    }

    /** A non-empty id token is stored. */
    predicate HasIdToken()
      reads this
    {
      TokenKey in items && items[TokenKey] != ""
    }

    /** `saveTokens(idToken, accessToken)`. */
    method SaveTokens(idToken: string, accessToken: string)
      modifies this
      ensures items == old(items)[TokenKey := idToken][AccessTokenKey := accessToken][LegacyTokenKey := idToken]
      ensures HasIdToken() <==> idToken != ""
    {
      items := items[TokenKey := idToken];
      items := items[AccessTokenKey := accessToken];
      items := items[LegacyTokenKey := idToken];
    }

    /** `getIdToken()`: `None` is `null`. */
    method GetIdToken() returns (t: Option<string>)
      ensures t.Some? <==> TokenKey in items
      ensures t.Some? ==> t.value == items[TokenKey]
    {
      t := if TokenKey in items then Some(items[TokenKey]) else None;
    }

    /** `getAccessToken()`. */
    method GetAccessToken() returns (t: Option<string>)
      ensures t.Some? <==> AccessTokenKey in items
      ensures t.Some? ==> t.value == items[AccessTokenKey]
    {
      t := if AccessTokenKey in items then Some(items[AccessTokenKey]) else None;
    }

    /** `isAuthenticated()`: an id token is stored and it is not empty. */
    method IsAuthenticated() returns (b: bool)
      ensures b <==> TokenKey in items && items[TokenKey] != ""
    {
      var token := GetIdToken();
      b := token.Some? && token.value != "";
    }

    /** `clearTokens()`: the three token keys and the development token are removed, and nothing else. */
    method ClearTokens()
      modifies this
      ensures items == old(items) - {TokenKey, AccessTokenKey, LegacyTokenKey, DevTokenKey}
      ensures !HasIdToken()
    {
      items := items - {TokenKey};
      items := items - {AccessTokenKey};
      items := items - {LegacyTokenKey};
      items := items - {DevTokenKey};
    }

    /**
     * `getUserInfo()`; `decode` stands for `decodeToken`, `None` for its
     * `null`. Without a stored token, or when the claims are falsy, the
     * result is `None`.
     */
    method GetUserInfo(decode: string -> Option<Json>) returns (u: Option<UserInfo>)
      ensures !HasIdToken() ==> u.None?
      ensures HasIdToken() ==> var claims := decode(items[TokenKey]);
        && (u.Some? <==> claims.Some? && Truthy(claims.value))
        && (u.Some? ==> u.value == UserInfoFrom(claims.value))
    {
      var token := GetIdToken();
      if token.None? || token.value == "" {
        return None;
      }
      var decoded := decode(token.value);
      if decoded.None? || !Truthy(decoded.value) {
        return None;
      }
      u := Some(UserInfoFrom(decoded.value));
    }
  }
}
