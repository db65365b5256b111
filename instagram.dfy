/** src/Instagram.php: the authorize URL, the per-profile redirect URI and the code-exchange request. */
module Instagram {
  import opened Wrappers
  import opened Text

  const RequestAccessTokenUrl: string := "https://api.instagram.com/oauth/access_token"
  const AuthorizePrefix: string := "https://api.instagram.com/oauth/authorize/?client_id="
  const RedirectParam: string := "&redirect_uri="
  const ResponseTypeSuffix: string := "&response_type=code"
  const ProfileParam: string := "?profile="

  /** The configuration the constructor copies: client_id, client_secret, redirect_uri. */
  datatype Config = Config(clientId: string, clientSecret: string, redirectUri: string)

  /** The POST the client is asked to send: target URL and form fields, `None` for a null field. */
  datatype PostRequest = PostRequest(url: string, form: map<string, Option<string>>)

  /**
   * The query parameters of the OAuth redirect. A parameter sent with an
   * empty value is present and null (`None`), as the framework's
   * empty-string-to-null middleware leaves it; `has` tests presence only.
   */
  type AuthRequest = map<string, Option<string>>

  /** The profile id carried by a redirect URI built from `config`, if any. */
  function ProfileOfRedirect(config: Config, uri: string): Option<nat> {
    var head := config.redirectUri + ProfileParam;
    if |head| < |uri| && uri[..|head|] == head && IsDigits(uri[|head|..])
    then Some(ParseNat(uri[|head|..]))
    else None
  }

  /** `redirectUriForProfile($profile_id)`. */
  function RedirectUriForProfile(config: Config, profileId: nat): (uri: string)
    ensures ProfileOfRedirect(config, uri) == Some(profileId)
  {
    var head := config.redirectUri + ProfileParam;
    var uri := head + NatToString(profileId);
    assert uri[..|head|] == head && uri[|head|..] == NatToString(profileId);
    ParseNatToString(profileId);
    uri
  }

  lemma RedirectUriInjective(config: Config, a: nat, b: nat)
    requires RedirectUriForProfile(config, a) == RedirectUriForProfile(config, b)
    ensures a == b
  {
  }

  /** The redirect_uri embedded in an authorize URL built from `config`, if any. */
  function RedirectOfAuthUrl(config: Config, url: string): Option<string> {
    var head := AuthorizePrefix + config.clientId + RedirectParam;
    if |head| + |ResponseTypeSuffix| <= |url| && url[..|head|] == head
       && url[|url| - |ResponseTypeSuffix|..] == ResponseTypeSuffix
    then Some(url[|head|..|url| - |ResponseTypeSuffix|])
    else None
  }

  /** `authUrlForProfile($profile)`. */
  function AuthUrlForProfile(config: Config, profileId: nat): (url: string)
    ensures RedirectOfAuthUrl(config, url) == Some(RedirectUriForProfile(config, profileId))
    ensures url[..|AuthorizePrefix|] == AuthorizePrefix
  {
    var head := AuthorizePrefix + config.clientId + RedirectParam;
    var redirect := RedirectUriForProfile(config, profileId);
    var url := head + redirect + ResponseTypeSuffix;
    assert url[..|head|] == head;
    assert url[|url| - |ResponseTypeSuffix|..] == ResponseTypeSuffix;
    assert url[|head|..|url| - |ResponseTypeSuffix|] == redirect;
    assert url[..|AuthorizePrefix|] == head[..|AuthorizePrefix|];
    url
  }

  /** Two profiles never share an authorize URL. */
  lemma AuthUrlInjective(config: Config, a: nat, b: nat)
    requires AuthUrlForProfile(config, a) == AuthUrlForProfile(config, b)
    ensures a == b
  {
    RedirectUriInjective(config, a, b);
  }

  /** `requestTokenForProfile($profile, $auth_request)`, as the request it sends. */
  function RequestTokenForProfile(config: Config, profileId: nat, request: AuthRequest): (r: PostRequest)
    ensures r.url == RequestAccessTokenUrl
    ensures r.form.Keys == {"client_id", "client_secret", "grant_type", "redirect_uri", "code"}
    ensures r.form["client_id"] == Some(config.clientId) && r.form["client_secret"] == Some(config.clientSecret)
    ensures r.form["grant_type"] == Some("authorization_code")
    ensures "code" in request ==> r.form["code"] == request["code"]
    ensures "code" !in request ==> r.form["code"] == None
    ensures RedirectOfAuthUrl(config, AuthUrlForProfile(config, profileId)) == r.form["redirect_uri"]
  {
    PostRequest(RequestAccessTokenUrl, map[
      "client_id" := Some(config.clientId),
      "client_secret" := Some(config.clientSecret),
      "grant_type" := Some("authorization_code"),
      "redirect_uri" := Some(RedirectUriForProfile(config, profileId)),
      "code" := if "code" in request then request["code"] else None
    ])
  }
}
