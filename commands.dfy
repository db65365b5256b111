/**
 * src/Commands/RefreshAuthorizedFeeds.php and src/Commands/RefreshTokens.php:
 * the two scheduled batch jobs, each a loop over the profiles that have an
 * access token. The `filter(hasInstagramAccess)` that precedes each loop is
 * the guard at the top of its body: an iteration changes only its own
 * profile (and the cache), so no later profile's access changes before its
 * turn.
 */
module Commands {
  import opened Wrappers
  import opened Text
  import opened Media
  import opened AccessTokens
  import opened Profiles

  /** A `FeedRefreshFailed` mail: the address, the profile it is about and the error message. */
  datatype Notice = Notice(address: string, profileId: nat, message: string)

  /**
   * One profile's turn in the feed refresh: its id, its cache slot, whether
   * it passes the access filter and what its fetch gives.
   */
  datatype Step = Step(profileId: nat, key: string, authorized: bool, outcome: FetchOutcome)

  type Entries = map<string, seq<InstagramMedia>>

  /** Profile rows have unique primary keys. */
  predicate DistinctIds(profiles: seq<Profile>) {
    forall i, j :: 0 <= i < j < |profiles| ==> profiles[i].id != profiles[j].id
  }

  /** Distinct ids make distinct profile objects. */
  lemma DistinctObjects(profiles: seq<Profile>)
    requires DistinctIds(profiles)
    ensures forall i, j :: 0 <= i < |profiles| && 0 <= j < |profiles| && i != j ==> profiles[i] != profiles[j]
  {
    forall i, j | 0 <= i < |profiles| && 0 <= j < |profiles| && i != j ensures profiles[i] != profiles[j] {
      if i < j { assert profiles[i].id != profiles[j].id; } else { assert profiles[j].id != profiles[i].id; }
    }
  }

  /** `$this->argument('limit') ?? 20`. */
  function LimitOf(argument: Option<nat>): (limit: nat)
    ensures argument.None? ==> limit == DefaultLimit
    ensures argument.Some? ==> limit == argument.value
  {
    argument.GetOr(DefaultLimit)
  }

  /** A profile's turn when its token rows are `tokens`. */
  function StepFor(p: Profile, tokens: seq<AccessToken>, remote: Remote, limit: nat): (step: Step)
  {
    Step(p.id, p.CacheKey(), |tokens| > 0, OutcomeOf(tokens, remote, limit))
  }

  /** Each profile's turn, given each profile's token rows at the start of the run. */
  function Plan(profiles: seq<Profile>, rows: seq<seq<AccessToken>>, remote: Remote, limit: nat): (steps: seq<Step>)
    requires |rows| == |profiles|
  {
    seq(|profiles|, j requires 0 <= j < |profiles| => StepFor(profiles[j], rows[j], remote, limit))
  }

  /** The access rows of each profile, in order. */
  function TokenRows(profiles: seq<Profile>): (rows: seq<seq<AccessToken>>)
    reads profiles
    ensures |rows| == |profiles| && forall j :: 0 <= j < |profiles| ==> rows[j] == profiles[j].tokens
  {
    seq(|profiles|, j reads profiles requires 0 <= j < |profiles| => profiles[j].tokens)
  }

  /** The identity token of each profile, in order. */
  function Identities(profiles: seq<Profile>): (ids: seq<Option<string>>)
    reads profiles
    ensures |ids| == |profiles| && forall j :: 0 <= j < |profiles| ==> ids[j] == profiles[j].identityToken
  {
    seq(|profiles|, j reads profiles requires 0 <= j < |profiles| => profiles[j].identityToken)
  }

  /** A step writes slot `k` when it is authorized and its fetch succeeded. */
  predicate Stores(step: Step, k: string) {
    step.authorized && step.outcome.Fetched? && step.key == k
  }

  /** One of the first `n` steps writes slot `k`. */
  predicate WritesFirst(steps: seq<Step>, n: nat, k: string)
    requires n <= |steps|
  {
    exists j :: 0 <= j < n && Stores(steps[j], k)
  }

  predicate SameSlot(a: Entries, b: Entries, k: string) {
    (k in a <==> k in b) && (k in a ==> a[k] == b[k])
  }

  /** No two steps share a cache slot. */
  predicate DistinctKeys(steps: seq<Step>) {
    forall i, j :: 0 <= i < j < |steps| ==> steps[i].key != steps[j].key
  }

  /** The cache after one step. */
  function Store(entries: Entries, step: Step): Entries {
    if Stores(step, step.key) then entries[step.key := step.outcome.items] else entries
  }

  /** The cache after the first `n` steps: only authorized, successful fetches are stored, in order. */
  function StoreFirst(entries: Entries, steps: seq<Step>, n: nat): Entries
    requires n <= |steps|
  {
    if n == 0 then entries else Store(StoreFirst(entries, steps, n - 1), steps[n - 1])
  }

  /** A slot that none of the first `n` steps writes keeps its contents, or stays absent. */
  lemma {:induction false} StoreFirstUnwritten(entries: Entries, steps: seq<Step>, n: nat, k: string)
    requires n <= |steps| && !WritesFirst(steps, n, k)
    ensures SameSlot(entries, StoreFirst(entries, steps, n), k)
  {
    if n > 0 {
      StoreFirstUnwritten(entries, steps, n - 1, k);
    }
  }

  /**
   * With one slot per step, every stored slot holds its own step's items
   * once the first `n` steps have run, and no other slot moves.
   */
  lemma {:induction false} StoreFirstSlots(entries: Entries, steps: seq<Step>, n: nat)
    requires n <= |steps| && DistinctKeys(steps)
    ensures forall j :: 0 <= j < n && Stores(steps[j], steps[j].key) ==>
      steps[j].key in StoreFirst(entries, steps, n) && StoreFirst(entries, steps, n)[steps[j].key] == steps[j].outcome.items
    ensures forall j :: 0 <= j < n && !Stores(steps[j], steps[j].key) ==>
      SameSlot(entries, StoreFirst(entries, steps, n), steps[j].key)
  {
    if n > 0 {
      StoreFirstSlots(entries, steps, n - 1);
      var last := steps[n - 1];
      assert !WritesFirst(steps, n - 1, last.key);
      StoreFirstUnwritten(entries, steps, n - 1, last.key);
    }
  }

  /** Distinct ids give distinct slots to the steps of a plan. */
  lemma PlanKeysDistinct(profiles: seq<Profile>, steps: seq<Step>)
    requires DistinctIds(profiles)
    requires |steps| == |profiles| && forall j :: 0 <= j < |steps| ==> steps[j].key == profiles[j].CacheKey()
    ensures DistinctKeys(steps)
  {
    forall i, j | 0 <= i < j < |steps| ensures steps[i].key != steps[j].key {
      Profile.CacheKeysDistinct(profiles[i], profiles[j]);
    }
  }

  /** A step that sends mail: authorized, and its fetch failed. */
  predicate Fails(step: Step) {
    step.authorized && step.outcome.Failed?
  }

  /** The mail for a failed step. */
  function NoticeFor(address: string, step: Step): Notice
    requires step.outcome.Failed?
  {
    Notice(address, step.profileId, step.outcome.error.message)
  }

  /** The mail one step sends. */
  function NoticeOf(address: Option<string>, step: Step): (r: seq<Notice>)
    ensures |r| <= 1
    ensures r != [] <==> !Falsy(address) && Fails(step)
    ensures r != [] ==> r[0] == Notice(address.value, step.profileId, step.outcome.error.message)
  {
    if !Falsy(address) && Fails(step) then [NoticeFor(address.value, step)] else []
  }

  /** How many of the first `n` steps send mail when an address is configured. */
  function FailuresFirst(steps: seq<Step>, n: nat): nat
    requires n <= |steps|
  {
    if n == 0 then 0 else FailuresFirst(steps, n - 1) + (if Fails(steps[n - 1]) then 1 else 0)
  }

  /** The mails sent by the first `n` steps, in order. */
  function NoticesFirst(address: Option<string>, steps: seq<Step>, n: nat): seq<Notice>
    requires n <= |steps|
  {
    if n == 0 then [] else NoticesFirst(address, steps, n - 1) + NoticeOf(address, steps[n - 1])
  }

  /** No mail at all when `notify_on_error` is empty. */
  lemma {:induction false} NoticesFirstSilent(address: Option<string>, steps: seq<Step>, n: nat)
    requires n <= |steps| && Falsy(address)
    ensures NoticesFirst(address, steps, n) == []
  {
    if n > 0 {
      NoticesFirstSilent(address, steps, n - 1);
    }
  }

  /** With an address configured, one mail per failing profile. */
  lemma {:induction false} NoticesFirstCount(address: Option<string>, steps: seq<Step>, n: nat)
    requires n <= |steps| && !Falsy(address)
    ensures |NoticesFirst(address, steps, n)| == FailuresFirst(steps, n)
  {
    if n > 0 {
      NoticesFirstCount(address, steps, n - 1);
    }
  }

  /** A mail is sent exactly for each authorized profile whose fetch failed. */
  lemma {:induction false} NoticesFirstMembers(address: Option<string>, steps: seq<Step>, n: nat)
    requires n <= |steps|
    ensures forall m :: m in NoticesFirst(address, steps, n) <==>
      !Falsy(address) && exists j :: 0 <= j < n && Fails(steps[j]) && m == NoticeFor(address.value, steps[j])
  {
    if n > 0 {
      NoticesFirstMembers(address, steps, n - 1);
      var r := NoticesFirst(address, steps, n);
      assert forall m :: m in r <==> m in NoticesFirst(address, steps, n - 1) || m in NoticeOf(address, steps[n - 1]);
    }
  }

  /** A `BadTokenException` deletes the profile's tokens; any other outcome keeps them. */
  function TokensAfterFetch(tokens: seq<AccessToken>, outcome: FetchOutcome): (r: seq<AccessToken>)
    ensures r == [] || r == tokens
    ensures r == [] <==> tokens == [] || (outcome.Failed? && outcome.error.BadToken?)
  {
    if outcome.Failed? && outcome.error.BadToken? then [] else tokens
  }

  /** `now` is `before` after the profile's feed refresh with `remote` at `limit`. */
  predicate AfterFeed(now: seq<AccessToken>, before: seq<AccessToken>, remote: Remote, limit: nat) {
    now == TokensAfterFetch(before, OutcomeOf(before, remote, limit))
  }

  /**
   * The state of the feed refresh once the first `i` profiles have had their
   * turn: the cache and the mails sent are those of the first `i` steps, the
   * profiles already visited have lost their tokens on a `BadTokenException`
   * and the others are as they were.
   */
  predicate FeedProgress(profiles: seq<Profile>, cache: Cache, i: nat, before: seq<seq<AccessToken>>, steps: seq<Step>,
                         initial: Entries, notifyOnError: Option<string>, outbox: seq<Notice>, remote: Remote, limit: nat,
                         ids: seq<Option<string>>)
    reads profiles, cache
  {
    && |ids| == |profiles| && (forall j :: 0 <= j < |profiles| ==> profiles[j].identityToken == ids[j])
    && DistinctIds(profiles) && (forall j :: 0 <= j < |profiles| ==> profiles[j].cache == cache)
    && i <= |profiles| == |before| == |steps| && steps == Plan(profiles, before, remote, limit)
    && cache.entries == StoreFirst(initial, steps, i)
    && outbox == NoticesFirst(notifyOnError, steps, i)
    && (forall j :: 0 <= j < i ==> AfterFeed(profiles[j].tokens, before[j], remote, limit))
    && (forall j :: i <= j < |profiles| ==> profiles[j].tokens == before[j])
  }

  /** `instagram-feed:refresh {limit?}`: one profile's failure is isolated from the rest. */
  method RefreshAuthorizedFeeds(profiles: seq<Profile>, cache: Cache, limitArgument: Option<nat>,
                                notifyOnError: Option<string>, remote: Remote)
    returns (outbox: seq<Notice>)
    requires DistinctIds(profiles)
    requires forall j :: 0 <= j < |profiles| ==> profiles[j].cache == cache
    modifies profiles, cache
    ensures var steps := Plan(profiles, old(TokenRows(profiles)), remote, LimitOf(limitArgument));
      && cache.entries == StoreFirst(old(cache.entries), steps, |steps|)
      && outbox == NoticesFirst(notifyOnError, steps, |steps|)
    ensures forall j :: 0 <= j < |profiles| ==>
      AfterFeed(profiles[j].tokens, old(profiles[j].tokens), remote, LimitOf(limitArgument))
    ensures forall j :: 0 <= j < |profiles| ==> profiles[j].identityToken == old(profiles[j].identityToken)
  {
    var limit := LimitOf(limitArgument);
    ghost var before := TokenRows(profiles);
    ghost var steps := Plan(profiles, before, remote, limit);
    ghost var ids := Identities(profiles);
    outbox := [];
    var i := 0;
    while i < |profiles|
      invariant FeedProgress(profiles, cache, i, before, steps, old(cache.entries), notifyOnError, outbox, remote, limit, ids)
    {
      outbox := RefreshNext(profiles, cache, i, notifyOnError, remote, limit, before, steps, old(cache.entries), outbox, ids);
      i := i + 1;
    }
  }

  /** One turn of the loop above: profile `i` refreshes its feed. */
  method RefreshNext(profiles: seq<Profile>, cache: Cache, i: nat, notifyOnError: Option<string>, remote: Remote, limit: nat,
                     ghost before: seq<seq<AccessToken>>, ghost steps: seq<Step>, ghost initial: Entries, outbox: seq<Notice>,
                     ghost ids: seq<Option<string>>)
    returns (next: seq<Notice>)
    requires i < |profiles|
    requires FeedProgress(profiles, cache, i, before, steps, initial, notifyOnError, outbox, remote, limit, ids)
    modifies profiles[i], cache
    ensures FeedProgress(profiles, cache, i + 1, before, steps, initial, notifyOnError, next, remote, limit, ids)
  {
    DistinctObjects(profiles);
    var p := profiles[i];
    var mail := RefreshOne(p, notifyOnError, remote, limit);
    next := outbox + mail;
  }

  /**
   * After a run, a profile's slot holds what its fetch returned when it had a
   * token and the fetch succeeded, and is exactly as before otherwise (no
   * token, or a failed fetch).
   */
  lemma PlanSlots(profiles: seq<Profile>, rows: seq<seq<AccessToken>>, entries: Entries, remote: Remote, limit: nat)
    requires DistinctIds(profiles) && |rows| == |profiles|
    ensures var after := StoreFirst(entries, Plan(profiles, rows, remote, limit), |profiles|);
      forall j :: 0 <= j < |profiles| ==>
        if |rows[j]| > 0 && OutcomeOf(rows[j], remote, limit).Fetched?
        then profiles[j].CacheKey() in after && after[profiles[j].CacheKey()] == OutcomeOf(rows[j], remote, limit).items
        else SameSlot(entries, after, profiles[j].CacheKey())
  {
    var steps := Plan(profiles, rows, remote, limit);
    PlanKeysDistinct(profiles, steps);
    StoreFirstSlots(entries, steps, |steps|);
    forall j | 0 <= j < |profiles|
      ensures steps[j] == StepFor(profiles[j], rows[j], remote, limit)
    {
    }
  }

  /**
   * The closure passed to `each`: refresh one profile's feed; on failure clear
   * its tokens when the token was rejected, and mail the configured address.
   */
  method RefreshOne(p: Profile, notifyOnError: Option<string>, remote: Remote, limit: nat) returns (mail: seq<Notice>)
    modifies p, p.cache
    ensures p.cache.entries == Store(old(p.cache.entries), StepFor(p, old(p.tokens), remote, limit))
    ensures mail == NoticeOf(notifyOnError, StepFor(p, old(p.tokens), remote, limit))
    ensures AfterFeed(p.tokens, old(p.tokens), remote, limit)
    ensures p.identityToken == old(p.identityToken)
  {
    mail := [];
    if p.HasInstagramAccess() {
      var feed, error := p.RefreshFeed(remote, limit);
      if error.Some? {
        if error.value.BadToken? {
          p.ClearToken();
        }
        if !Falsy(notifyOnError) {
          mail := [Notice(notifyOnError.value, p.id, error.value.message)];
        }
      }
    }
  }

  /**
   * `now` is the token list `before` after a successful `refreshToken()`:
   * the refresh was asked for with the latest access code and succeeded.
   */
  predicate Refreshed(now: seq<AccessToken>, before: seq<AccessToken>, refresher: Refresher) {
    && |before| > 0
    && refresher(Some(before[|before| - 1].accessCode)).NewToken?
    && now == TokensAfterRefresh(before, refresher(Some(before[|before| - 1].accessCode)))
  }

  /**
   * A profile's tokens after the run: refreshed when its turn came
   * (`reached`) and it had an access token, untouched otherwise.
   */
  predicate AfterRun(now: seq<AccessToken>, before: seq<AccessToken>, reached: bool, refresher: Refresher) {
    if reached && |before| > 0 then Refreshed(now, before, refresher) else now == before
  }

  /** The refresh of `before`'s latest access code failed with `error`'s message. */
  predicate FailedWith(before: seq<AccessToken>, refresher: Refresher, error: Option<string>) {
    && |before| > 0
    && refresher(Some(before[|before| - 1].accessCode)).RefreshFailed?
    && error == Some(refresher(Some(before[|before| - 1].accessCode)).message)
  }

  /**
   * `instagram-feed:refresh-tokens`: the first failing refresh ends the run;
   * `stop` is the position of that profile, or the number of profiles.
   */
  method RefreshTokens(profiles: seq<Profile>, refresher: Refresher) returns (stop: nat, error: Option<string>)
    requires DistinctIds(profiles)
    modifies profiles
    ensures stop <= |profiles| && (error.None? <==> stop == |profiles|)
    ensures stop < |profiles| ==> FailedWith(old(profiles[stop].tokens), refresher, error)
    ensures forall j :: 0 <= j < |profiles| ==>
      && AfterRun(profiles[j].tokens, old(profiles[j].tokens), j < stop, refresher)
      && profiles[j].identityToken == old(profiles[j].identityToken)
  {
    DistinctObjects(profiles);
    stop, error := 0, None;
    while stop < |profiles| && error.None?
      invariant 0 <= stop <= |profiles|
      invariant error.Some? ==> stop < |profiles| && FailedWith(old(profiles[stop].tokens), refresher, error)
      invariant forall j :: 0 <= j < |profiles| ==>
        && AfterRun(profiles[j].tokens, old(profiles[j].tokens), j < stop, refresher)
        && profiles[j].identityToken == old(profiles[j].identityToken)
      decreases |profiles| - stop, if error.None? then 1 else 0
    {
      var p := profiles[stop];
      if p.HasInstagramAccess() {
        error := p.RefreshToken(refresher);
      }
      if error.None? {
        stop := stop + 1;
      }
    }
  }
}
