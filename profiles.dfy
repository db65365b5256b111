/**
 * src/Profile.php and src/InstagramFeed.php. A profile owns an optional
 * single-use identity token, its access-token rows (in insertion order, the
 * last one being `latest()`) and one slot of the shared feed cache. The two
 * classes refer to each other, so they share this module.
 */
module Profiles {
  import opened Wrappers
  import opened Text
  import opened Media
  import opened AccessTokens
  import Instagram

  const CacheKeyBase: string := "dymantic_instagram_feed"
  const DefaultLimit: nat := 20
  const RequestTokenMessage: string := "Unable to get request token"

  /** How `fetchMedia` fails: the provider rejected the token, or anything else did. */
  datatype FetchError = BadToken(message: string) | OtherError(message: string)

  /** The outcome of `fetchMedia($token, $limit)`. */
  datatype FetchOutcome = Fetched(items: seq<InstagramMedia>) | Failed(error: FetchError)

  /**
   * The remote media fetch, a deterministic function of the token (null for
   * a profile without one) and the limit.
   */
  type Remote = (Option<AccessToken>, nat) -> FetchOutcome

  /** `latest()->first()` over token rows kept in insertion order. */
  function Latest(tokens: seq<AccessToken>): Option<AccessToken> {
    if |tokens| > 0 then Some(tokens[|tokens| - 1]) else None
  }

  /** `fetchMedia(latestToken(), $limit)` for a list of token rows. */
  function OutcomeOf(tokens: seq<AccessToken>, remote: Remote, limit: nat): FetchOutcome {
    remote(Latest(tokens), limit)
  }

  /** What `fetchUserDetails` returns: fields id and username. */
  datatype UserDetails = UserDetails(id: string, username: string)

  /** The three-step exchange: code for short-lived token, user details, long-lived token. */
  datatype ExchangeOutcome = Exchanged(user: UserDetails, accessToken: string) | ExchangeFailed(message: string)

  type Exchange = Instagram.PostRequest -> ExchangeOutcome

  /** `Instagram::refreshToken($code)`: the refreshed `access_token`, or the exception's message. */
  datatype RefreshOutcome = NewToken(accessToken: string) | RefreshFailed(message: string)

  /** The refresh call; its argument is `accessToken()`, null for a profile without tokens. */
  type Refresher = Option<string> -> RefreshOutcome

  /** The error raised by `latestToken()->update(...)` on a profile without tokens. */
  const NoTokenMessage: string := "no access token to update"

  /** RequestTokenException and AccessTokenRequestException. */
  datatype TokenError = RequestTokenError(message: string) | AccessTokenRequestError(message: string)

  /** `array_merge(['access_token' => $token], $user_details)`. */
  function TokenDetails(accessToken: string, user: UserDetails): (d: map<string, string>)
    ensures HasTokenKeys(d)
    ensures d["access_token"] == accessToken && d["id"] == user.id && d["username"] == user.username
  {
    map["access_token" := accessToken] + map["id" := user.id, "username" := user.username]
  }

  /** The token rows after `refreshToken`: only the latest row's access code changes. */
  function TokensAfterRefresh(tokens: seq<AccessToken>, outcome: RefreshOutcome): (r: seq<AccessToken>)
    requires |tokens| > 0
    ensures |r| == |tokens| && r[..|r| - 1] == tokens[..|tokens| - 1]
    ensures outcome.NewToken? ==> r[|r| - 1].accessCode == outcome.accessToken
    ensures r[|r| - 1].(accessCode := tokens[|tokens| - 1].accessCode) == tokens[|tokens| - 1]
    ensures outcome.RefreshFailed? ==> r == tokens
  {
    var last := tokens[|tokens| - 1];
    if outcome.NewToken? then tokens[..|tokens| - 1] + [last.(accessCode := outcome.accessToken)] else tokens
  }

  /** The key–value feed cache (Laravel's Cache facade), shared by all profiles. */
  class Cache {
    var entries: map<string, seq<InstagramMedia>>

    constructor ()
      ensures entries == map[]
    {
      entries := map[];
    }

    /** `Cache::has($key)`. */
    predicate Has(key: string)
      reads this
    {
      key in entries
    }

    /** `Cache::get($key)`: the stored value, or null for a missing key. */
    function Lookup(key: string): (slot: Option<seq<InstagramMedia>>)
      reads this
      ensures slot.Some? <==> Has(key)
    {
      if key in entries then Some(entries[key]) else None
    }

    /** `Cache::forget($key)`: afterwards the key is missing and every other key reads as before. */
    method Forget(key: string)
      modifies this
      ensures entries == old(entries) - {key}
      ensures Lookup(key) == None
      ensures forall k :: k != key ==> Lookup(k) == old(Lookup(k))
    {
      entries := entries - {key};
    }

    /** `Cache::forever($key, $value)`: afterwards the key reads as the value and every other key as before. */
    method Forever(key: string, value: seq<InstagramMedia>)
      modifies this
      ensures entries == old(entries)[key := value]
      ensures Lookup(key) == Some(value)
      ensures forall k :: k != key ==> Lookup(k) == old(Lookup(k))
    {
      entries := entries[key := value];
    }
  }

  /** What `feed()` returns and leaves in the cache. */
  datatype FeedStep = FeedStep(owned: bool, items: seq<InstagramMedia>, entries: map<string, seq<InstagramMedia>>)

  class Profile {
    const id: nat
    const username: string
    const cache: Cache
    var identityToken: Option<string>
    var tokens: seq<AccessToken>

    /** `Profile::new($username)`: a row with no identity token and no tokens. */
    constructor (id: nat, username: string, cache: Cache)
      ensures this.id == id && this.username == username && this.cache == cache
      ensures identityToken == None && tokens == []
    {
      this.id := id;
      this.username := username;
      this.cache := cache;
      identityToken := None;
      tokens := [];
    }

    /** `cacheKey()`: the base and a colon, then the id. */
    function CacheKey(): (k: string)
      ensures |CacheKeyBase| + 1 < |k| && k[..|CacheKeyBase| + 1] == CacheKeyBase + ":"
    {
      CacheKeyBase + ":" + NatToString(id)
    }

    /** The rest of the cache key is the id's digits, which read back to the id. */
    lemma CacheKeyReadsBack()
      ensures IsDigits(CacheKey()[|CacheKeyBase| + 1..]) && ParseNat(CacheKey()[|CacheKeyBase| + 1..]) == id
    {
      var head := CacheKeyBase + ":";
      assert CacheKey()[|head|..] == NatToString(id);
      ParseNatToString(id);
    }

    /** Distinct profiles (distinct ids) never share a cache slot. */
    static lemma CacheKeysDistinct(p: Profile, q: Profile)
      requires p.id != q.id
      ensures p.CacheKey() != q.CacheKey()
    {
      p.CacheKeyReadsBack();
      q.CacheKeyReadsBack();
    }

    /** `latestToken()`: the last token inserted, or null. */
    function LatestToken(): (t: Option<AccessToken>)
      reads this
      ensures t.Some? <==> |tokens| > 0
      ensures t.Some? ==> t.value == tokens[|tokens| - 1]
    {
      Latest(tokens)
    }

    /** `hasInstagramAccess()`: `!! latestToken()`, so exactly when a token row exists. */
    predicate HasInstagramAccess()
      reads this
      ensures HasInstagramAccess() <==> |tokens| > 0
    {
      LatestToken().Some?
    }

    /** `accessToken()`: the latest token's access code, or null. */
    function CurrentAccessCode(): (code: Option<string>)
      reads this
      ensures code.Some? <==> HasInstagramAccess()
      ensures code.Some? ==> code.value == LatestToken().value.accessCode
    {
      match LatestToken()
      case Some(t) => Some(t.accessCode)
      case None => None
    }

    /** What `fetchMedia($this->latestToken(), $limit)` yields. */
    function FetchOutcomeFor(remote: Remote, limit: nat): (o: FetchOutcome)
      reads this
      ensures HasInstagramAccess() ==> o == remote(Some(tokens[|tokens| - 1]), limit)
      ensures !HasInstagramAccess() ==> o == remote(None, limit)
      ensures o == OutcomeOf(tokens, remote, limit)
    {
      remote(LatestToken(), limit)
    }

    /** `getInstagramAuthUrl()`; `random` stands for `Str::random(16)`. */
    method GetInstagramAuthUrl(config: Instagram.Config, random: string) returns (url: string)
      requires |random| == 16
      modifies this
      ensures url == Instagram.AuthUrlForProfile(config, id)
      ensures identityToken == if Falsy(old(identityToken)) then Some(random) else old(identityToken)
      ensures !Falsy(identityToken)
      ensures tokens == old(tokens)
    {
      if Falsy(identityToken) {
        identityToken := Some(random);
      }
      url := Instagram.AuthUrlForProfile(config, id);
    }

    /** `setToken($token_details)`: every row deleted, then one created. */
    method SetToken(details: map<string, string>) returns (token: AccessToken)
      requires HasTokenKeys(details)
      modifies this
      ensures token == CreateFromResponseArray(id, details)
      ensures tokens == [token] && identityToken == old(identityToken)
    {
      tokens := [];
      token := CreateFromResponseArray(id, details);
      tokens := tokens + [token];
    }

    /**
     * `requestToken($request)`. The guard tests key presence, so an `error`
     * parameter with an empty value still rejects the request and a `code`
     * parameter with an empty value passes it, its null sent as the code.
     */
    method RequestToken(config: Instagram.Config, request: Instagram.AuthRequest, exchange: Exchange)
      returns (result: Result<AccessToken, TokenError>)
      modifies this
      ensures identityToken == old(identityToken)
      ensures "error" in request || "code" !in request ==>
        result == Err(RequestTokenError(RequestTokenMessage)) && tokens == old(tokens)
      ensures "error" !in request && "code" in request ==>
        match exchange(Instagram.RequestTokenForProfile(config, id, request))
        case ExchangeFailed(message) =>
          result == Err(AccessTokenRequestError(message)) && tokens == old(tokens)
        case Exchanged(user, longLived) =>
          && result == Ok(CreateFromResponseArray(id, TokenDetails(longLived, user)))
          && tokens == [result.value] && result.value.accessCode == longLived
    {
      if "error" in request || "code" !in request {
        return Err(RequestTokenError(RequestTokenMessage));
      }
      var outcome := exchange(Instagram.RequestTokenForProfile(config, id, request));
      match outcome {
        case ExchangeFailed(message) =>
          result := Err(AccessTokenRequestError(message));
        case Exchanged(user, longLived) =>
          var token := SetToken(TokenDetails(longLived, user));
          result := Ok(token);
      }
    }

    /** `refreshToken()`: the refresh is asked for with the current access code. */
    method RefreshToken(refresher: Refresher) returns (error: Option<string>)
      modifies this
      ensures old(HasInstagramAccess()) ==>
        && tokens == TokensAfterRefresh(old(tokens), refresher(old(CurrentAccessCode())))
        && error == match refresher(old(CurrentAccessCode()))
                    case NewToken(_) => None
                    case RefreshFailed(message) => Some(message)
      ensures !old(HasInstagramAccess()) ==>
        && tokens == old(tokens)
        && error == match refresher(None)
                    case NewToken(_) => Some(NoTokenMessage)
                    case RefreshFailed(message) => Some(message)
      ensures identityToken == old(identityToken)
    {
      var outcome := refresher(CurrentAccessCode());
      match outcome {
        case RefreshFailed(message) =>
          error := Some(message);
        case NewToken(newCode) =>
          if |tokens| == 0 {
            error := Some(NoTokenMessage);
          } else {
            tokens := tokens[..|tokens| - 1] + [tokens[|tokens| - 1].(accessCode := newCode)];
            error := None;
          }
      }
    }

    /** `clearToken()`: every token row is deleted. */
    method ClearToken()
      modifies this
      ensures tokens == [] && !HasInstagramAccess()
      ensures identityToken == old(identityToken)
    {
      tokens := [];
    }

    /** What `feed($limit)` returns and leaves in the cache, from the current state. */
    function FeedResult(remote: Remote, limit: nat): (r: FeedStep)
      reads this, cache
      ensures r.owned ==> HasInstagramAccess() && r.entries == cache.entries[CacheKey() := r.items]
      ensures !r.owned ==> r.items == [] && r.entries == cache.entries
      ensures !HasInstagramAccess() ==> !r.owned
      ensures HasInstagramAccess() && cache.Has(CacheKey()) ==> r.owned && Some(r.items) == cache.Lookup(CacheKey())
      ensures HasInstagramAccess() && !cache.Has(CacheKey()) ==>
        (r.owned <==> FetchOutcomeFor(remote, limit).Fetched?)
        && (r.owned ==> r.items == FetchOutcomeFor(remote, limit).items)
    {
      if !HasInstagramAccess() then FeedStep(false, [], cache.entries)
      else match cache.Lookup(CacheKey())
        case Some(cached) => FeedStep(true, cached, cache.entries)
        case None =>
          match FetchOutcomeFor(remote, limit)
          case Fetched(items) => FeedStep(true, items, cache.entries[CacheKey() := items])
          case Failed(_) => FeedStep(false, [], cache.entries)
    }

    /** `feed($limit)`: never fails; an empty feed stands for every failure. */
    method Feed(remote: Remote, limit: nat := DefaultLimit) returns (feed: InstagramFeed)
      modifies cache
      ensures fresh(feed)
      ensures feed.profile == (if old(FeedResult(remote, limit)).owned then this else null)
      ensures feed.items == old(FeedResult(remote, limit)).items
      ensures cache.entries == old(FeedResult(remote, limit)).entries
    {
      if !HasInstagramAccess() {
        feed := InstagramFeed.Empty();
        return;
      }
      var cached := cache.Lookup(CacheKey());
      if cached.Some? {
        feed := new InstagramFeed(this, cached.value);
        return;
      }
      var outcome := FetchOutcomeFor(remote, limit);
      match outcome {
        case Fetched(items) =>
          cache.Forever(CacheKey(), items);
          feed := new InstagramFeed(this, items);
        case Failed(_) =>
          feed := InstagramFeed.Empty();
      }
    }

    /**
     * `refreshFeed($limit)`: fetch first; only a successful fetch touches the
     * cache. The result is then read back with `feed()`, which is empty for a
     * profile without a token even when the fetch made without one succeeded.
     */
    method RefreshFeed(remote: Remote, limit: nat := DefaultLimit) returns (feed: InstagramFeed?, error: Option<FetchError>)
      modifies cache
      ensures match FetchOutcomeFor(remote, limit)
        case Fetched(items) =>
          && error.None? && feed != null && fresh(feed)
          && cache.Lookup(CacheKey()) == Some(items)
          && cache.entries == old(cache.entries)[CacheKey() := items]
          && feed.profile == (if HasInstagramAccess() then this else null)
          && feed.items == (if HasInstagramAccess() then items else [])
        case Failed(e) =>
          error == Some(e) && feed == null && cache.entries == old(cache.entries)
    {
      var outcome := FetchOutcomeFor(remote, limit);
      match outcome {
        case Failed(e) =>
          feed, error := null, Some(e);
        case Fetched(items) =>
          cache.Forget(CacheKey());
          cache.Forever(CacheKey(), items);
          feed := Feed(remote);
          error := None;
      }
    }

    /** The first profile holding `token` as its identity token. */
    static function FirstHolder(profiles: seq<Profile>, token: string, from: nat := 0): (k: Option<nat>)
      reads profiles
      requires from <= |profiles|
      decreases |profiles| - from
      ensures k.Some? ==> from <= k.value < |profiles| && profiles[k.value].identityToken == Some(token)
      ensures k.Some? ==> forall j :: from <= j < k.value ==> profiles[j].identityToken != Some(token)
      ensures k.None? <==> forall j :: from <= j < |profiles| ==> profiles[j].identityToken != Some(token)
    {
      if from == |profiles| then None
      else if profiles[from].identityToken == Some(token) then Some(from)
      else FirstHolder(profiles, token, from + 1)
    }

    /** At most one profile holds `token`. */
    static predicate SingleHolder(profiles: seq<Profile>, token: string)
      reads profiles
    {
      forall i, j :: 0 <= i < j < |profiles| && profiles[i].identityToken == Some(token) ==>
        profiles[j].identityToken != Some(token)
    }

    /** `Profile::usingIdentityToken($token)`: the token is consumed by the lookup. */
    static method UsingIdentityToken(profiles: seq<Profile>, token: string) returns (found: Profile?)
      modifies profiles
      ensures var k := old(FirstHolder(profiles, token)); (found == null <==> k.None?) && (k.Some? ==> found == profiles[k.value])
      ensures found != null ==> found.identityToken == None
      ensures forall p :: p in profiles ==> p.tokens == old(p.tokens)
      ensures forall p :: p in profiles && p != found ==> p.identityToken == old(p.identityToken)
      ensures old(SingleHolder(profiles, token)) ==> FirstHolder(profiles, token).None?
    {
      var k := FirstHolder(profiles, token);
      if k.None? {
        return null;
      }
      found := profiles[k.value];
      found.identityToken := None;
    }

    /** `Profile::for($username)`: the first profile with that username. */
    static function FirstNamed(profiles: seq<Profile>, username: string, from: nat := 0): (k: Option<nat>)
      requires from <= |profiles|
      decreases |profiles| - from
      ensures k.Some? ==> from <= k.value < |profiles| && profiles[k.value].username == username
      ensures k.Some? ==> forall j :: from <= j < k.value ==> profiles[j].username != username
      ensures k.None? <==> forall j :: from <= j < |profiles| ==> profiles[j].username != username
    {
      if from == |profiles| then None
      else if profiles[from].username == username then Some(from)
      else FirstNamed(profiles, username, from + 1)
    }
  }

  /** src/InstagramFeed.php: the items of one feed and the profile they came from. */
  class InstagramFeed {
    var profile: Profile?
    var items: seq<InstagramMedia>

    constructor (profile: Profile?, items: seq<InstagramMedia>)
      ensures this.profile == profile && this.items == items
    {
      this.profile := profile;
      this.items := items;
    }

    /** `InstagramFeed::empty()`. */
    static method Empty() returns (feed: InstagramFeed)
      ensures fresh(feed) && feed.profile == null && feed.items == [] && feed.Count() == 0
    {
      feed := new InstagramFeed(null, []);
    }

    /** `collect()` and `getIterator()`: the items in stored order. */
    function Collect(): (c: seq<InstagramMedia>)
      reads this
      ensures |c| == |items| && forall i :: 0 <= i < |c| ==> c[i] == items[i]
    {
      items
    }

    /** `count()`: as many as iteration yields. */
    function Count(): (n: nat)
      reads this
      ensures n == |Collect()|
    {
      |items|
    }

    /**
     * `refresh($limit)`: a feed without a profile is left alone; a failed
     * refresh propagates; otherwise the items become what `refreshFeed` returns.
     */
    method Refresh(remote: Remote, limit: nat := DefaultLimit) returns (error: Option<FetchError>)
      modifies this, if profile == null then {} else {profile.cache}
      ensures profile == old(profile)
      ensures old(profile) == null ==> items == old(items) && error.None?
      ensures old(profile) != null ==>
        match old(profile.FetchOutcomeFor(remote, limit))
        case Fetched(xs) =>
          && items == (if old(profile.HasInstagramAccess()) then xs else []) && error.None?
          && profile.cache.entries == old(profile.cache.entries)[profile.CacheKey() := xs]
        case Failed(e) =>
          items == old(items) && error == Some(e) && profile.cache.entries == old(profile.cache.entries)
    {
      if profile == null {
        return None;
      }
      var refreshed;
      refreshed, error := profile.RefreshFeed(remote, limit);
      if error.None? {
        items := refreshed.Collect();
      }
    }

    /** `InstagramFeed::for($profile, $limit)` for a Profile argument. */
    static method For(profile: Profile, remote: Remote, limit: nat := DefaultLimit) returns (feed: InstagramFeed)
      modifies profile.cache
      ensures fresh(feed)
      ensures feed.profile == (if old(profile.FeedResult(remote, limit)).owned then profile else null)
      ensures feed.items == old(profile.FeedResult(remote, limit)).items
      ensures profile.cache.entries == old(profile.FeedResult(remote, limit)).entries
    {
      feed := profile.Feed(remote, limit);
    }

    /** `InstagramFeed::for($username, $limit)`: the profile is looked up by username first. */
    static method ForUsername(profiles: seq<Profile>, username: string, remote: Remote, limit: nat := DefaultLimit)
      returns (feed: InstagramFeed)
      requires Profile.FirstNamed(profiles, username).Some?
      modifies profiles[Profile.FirstNamed(profiles, username).value].cache
      ensures var p := profiles[Profile.FirstNamed(profiles, username).value];
        && fresh(feed)
        && feed.profile == (if old(p.FeedResult(remote, limit)).owned then p else null)
        && feed.items == old(p.FeedResult(remote, limit)).items
        && p.cache.entries == old(p.FeedResult(remote, limit)).entries
    {
      var profile := profiles[Profile.FirstNamed(profiles, username).value];
      feed := For(profile, remote, limit);
    }
  }
}
