# laravel-instagram-feed, modelled in Dafny

This project models the core of the Laravel package `dymantic/laravel-instagram-feed`.

- **Media parsing.** `MediaParser::parseItem` turns one raw Graph API media item (image, video or carousel album) into an optional normalised record. `InstagramMedia` is the typed record, with its classification predicates and `toArray`.
- **Profiles.** A `Profile` owns a single-use identity token, its access-token rows and one slot in a shared feed cache. Its operations mint and consume the identity token, exchange an OAuth code for a token, refresh and clear tokens, and read or refresh the feed through the cache. `InstagramFeed` is the feed object these operations return.
- **Batch commands.** `instagram-feed:refresh` refreshes every authorised feed. Each profile's failure is isolated: its token rows are cleared only when the token was rejected (`BadTokenException`), and when `notify_on_error` is non-empty one mail is sent per failing authorised profile. `instagram-feed:refresh-tokens` refreshes every long-lived token and stops at the first failure.
- **Builders.** The authorize URL, the per-profile redirect URI, the code-exchange POST, the token-row mapping and the `HttpException` message format.

Modules follow the source files:

| module | file | source |
|---|---|---|
| `Wrappers` | wrappers.dfy | `Option` and `Result` |
| `Text` | text.dfy | PHP's int-to-string conversion, `strtolower` and string truthiness |
| `Media` | instagram_media.dfy | src/InstagramMedia.php |
| `Parser` | media_parser.dfy | src/MediaParser.php |
| `AccessTokens` | access_token.dfy | src/AccessToken.php |
| `HttpErrors` | http_exception.dfy | src/Exceptions/HttpException.php |
| `Instagram` | instagram.dfy | src/Instagram.php |
| `Profiles` | profiles.dfy | src/Profile.php and src/InstagramFeed.php, which refer to each other |
| `Commands` | commands.dfy | src/Commands/RefreshAuthorizedFeeds.php and src/Commands/RefreshTokens.php |

Calls to Instagram become function parameters. Each is deterministic in its arguments:

- `Remote` is `fetchMedia(token, limit)`, where the token is null for a profile without one. It returns the items, `BadToken(message)` or `OtherError(message)`.
- `Exchange` is the three-step code exchange started from the built POST request.
- `Refresher` is `Instagram::refreshToken(code)`.

A profile is a Dafny object (class `Profile`), and so is the cache (class `Cache`, one object shared by all profiles, its entries a `map` field). A profile's token rows are `AccessToken` datatype values in a `seq` field, in insertion order, and `latest()` is the last row. Each command is a `while` loop over the sequence of all profiles. The `filter(hasInstagramAccess)` before the loop is the guard at the head of the loop body. An iteration changes only its own profile and that profile's cache slot, so no later profile's access changes before its turn.

Where the code and its tests or configuration disagree:

- The authorize URL has no `scope` or `state` parameter. The model follows the code.
- `InstagramFeed::for` on an existing profile always returns `profile->feed($limit)`. PHP parses the expression as `(new $profile) ? ... : ...`, and the new object is always truthy. The model follows the code.
- The carousel guard discussed under Findings. Here the model does NOT follow the code in `ParseItem`. It models the code as written in `Parser.ParseAsCarouselAsWritten`. `Parser.ParseItem` dispatches to the corrected `Parser.ParseAsCarousel`, so an all-video carousel parsed with ignore_video gives null, where the code as written throws.

## Model

| member | source | states |
|---|---|---|
| Text.NatToString | src/Profile.php:26 | An id is written as a non-empty string of decimal digits, one digit long exactly when the id is below 10 |
| Text.ParseNatToString | src/Profile.php:26 | The decimal rendering of an id reads back to the same id |
| Text.NatToStringInjective | src/Instagram.php:45 | Different ids are written differently |
| Text.IntToString | src/Exceptions/HttpException.php:25 | `%d` writes a status as the decimal digits of its absolute value, preceded by a minus exactly when it is negative |
| Text.ParseIntToString | src/Exceptions/HttpException.php:25 | The rendering of a status reads back to the same integer |
| Text.IntToStringInjective | src/Exceptions/HttpException.php:25-26 | Different statuses are written differently |
| Text.Falsy | src/Profile.php:53 | PHP truthiness of a nullable string, as `!$x` and `empty($x)` test it: null, "" and "0" are falsy |
| Text.ToLower | src/MediaParser.php:79 | `strtolower` keeps the length and lowers each ASCII letter in place |
| HttpErrors.HttpException.GetResponse | src/Exceptions/HttpException.php:31-34 | Returns the response stored at construction |
| HttpErrors.Construct | src/Exceptions/HttpException.php:14-17 | Stores the response, the message verbatim and the code; message defaults to "" and code to 0 |
| HttpErrors.FormatMessage | src/Exceptions/HttpException.php:24-26 | The message starts with "Http request to " and the url, and ends with the provider's message |
| HttpErrors.New | src/Exceptions/HttpException.php:20-29 | Message is "Http request to URL failed with a status of STATUS and error message: MESSAGE", code is 0, response kept |
| HttpErrors.MessageDeterminesDetails | src/Exceptions/HttpException.php:24-26 | For one url, two equal messages come from the same status and the same provider message |
| AccessTokens.CreateFromResponseArray | src/AccessToken.php:15-25 | profile_id, access_code from `access_token`, user_id from `id`, username from `username`, both display fields "not available" |
| AccessTokens.CreateIgnoresOtherKeys | src/AccessToken.php:19-21 | Response keys other than the three it reads do not change the token |
| AccessTokens.CreateRoundTrip | src/AccessToken.php:17-24 | A token with unavailable display fields is rebuilt exactly from its own response array |
| Instagram.RedirectUriForProfile | src/Instagram.php:43-46 | Redirect URI is the configured URI, "?profile=" and the id; the id reads back from it |
| Instagram.RedirectUriInjective | src/Instagram.php:43-46 | Different profiles get different redirect URIs |
| Instagram.AuthUrlForProfile | src/Instagram.php:24-30 | The authorize URL starts with the fixed prefix and embeds exactly that profile's redirect URI between `&redirect_uri=` and `&response_type=code` |
| Instagram.AuthUrlInjective | src/Instagram.php:24-30 | Different profiles get different authorize URLs |
| Instagram.RequestTokenForProfile | src/Instagram.php:32-41 | POST to the access-token URL with exactly the fields client_id, client_secret, grant_type=authorization_code, redirect_uri and code; code is the request's value, null when it is null or missing; the redirect_uri equals the one in the same profile's authorize URL |
| Media.StringAttr | src/InstagramMedia.php:40-45 | A missing or null attribute gives "", a string attribute is kept |
| Media.New | src/InstagramMedia.php:37-47 | The type is kept; each string field is its attribute or "" when missing or null, key by key; an empty attribute array gives every string "" and no children; children are kept when given and [] when missing or null |
| Media.NewImage | src/InstagramMedia.php:22-25 | The record is an image and nothing else |
| Media.NewVideo | src/InstagramMedia.php:27-30 | The record is a video and nothing else |
| Media.NewCarousel | src/InstagramMedia.php:32-35 | The record is a carousel and nothing else |
| Media.InstagramMedia.IsImage | src/InstagramMedia.php:49-52 | The record's type is "image" |
| Media.InstagramMedia.IsVideo | src/InstagramMedia.php:54-57 | The record's type is "video" |
| Media.InstagramMedia.IsCarousel | src/InstagramMedia.php:59-62 | The record's type is "carousel" |
| Media.ClassificationExclusive | src/InstagramMedia.php:49-62 | At most one of isImage, isVideo and isCarousel holds; one holds exactly for the three type constants, none for "unknown" |
| Media.ToArray | src/InstagramMedia.php:64-79 | The is_carousel, is_image and is_video flags agree with the predicates and "type" is the stored type |
| Media.ToArrayKeys | src/InstagramMedia.php:64-79 | The array has exactly the stored fields, the type and the three flags |
| Media.ToArrayRoundTrip | src/InstagramMedia.php:37-79 | `new InstagramMedia(m.type, m.toArray())` equals m, so toArray keeps every field unchanged |
| Parser.Survives | src/MediaParser.php:68-70 | The filter closure: a child is kept when its media_type is exactly IMAGE or videos are not ignored |
| Parser.FilterChildren | src/MediaParser.php:67-70 | `collect(...)->filter(...)`: never more children than given |
| Parser.FilterKeepsMultiplicity | src/MediaParser.php:67-70 | Each surviving child is kept as many times as it occurs, and other children not at all |
| Parser.FilterKeepsSurvivors | src/MediaParser.php:67-70 | The filter keeps a child exactly when it is an image or videos are not ignored |
| Parser.FilterKeepsOrder | src/MediaParser.php:67-70 | The kept children are a subsequence of the children, in their order |
| Parser.FilterKeepsAllWithVideos | src/MediaParser.php:67-70 | With videos not ignored, no child is removed |
| Parser.FilterFirst | src/MediaParser.php:67-76 | The filter is empty exactly when no child survives; otherwise `first()` is the first surviving child |
| Parser.ReduceChildren | src/MediaParser.php:87-93 | Each child becomes {lower-cased type, url, id}, one for one and in order |
| Parser.ParseAsImage | src/MediaParser.php:29-42 | type "image", url and thumbnail_url both media_url, not a carousel, no children, parent fields copied, timestamp or "" |
| Parser.ParseAsVideo | src/MediaParser.php:44-62 | Null exactly when videos are ignored; otherwise type "video", thumbnail_url or "", not a carousel, no children, parent fields copied |
| Parser.CarouselRecord | src/MediaParser.php:78-94 | The record literal: type lowercased, url and thumbnail_url (or "") from the representative child; id, caption, permalink and timestamp (or "") from the parent; is_carousel when any child survives; children the reduced survivors |
| Parser.ParseAsCarouselAsWritten | src/MediaParser.php:64-95 | The carousel branch as written never returns null, because the guard never fires: it throws the null-offset ErrorException exactly when no child survives, and otherwise returns a carousel record |
| Parser.AllVideoCarouselAsWritten | src/MediaParser.php:72-79 | An all-video carousel with videos ignored makes the code as written throw the null-offset ErrorException; the intended branch returns null |
| Parser.ParseAsCarousel | src/MediaParser.php:64-95 | Null exactly when no child survives; otherwise type, url and thumbnail_url come from the first survivor, id, caption, permalink and timestamp from the parent, children are the reduced survivors, and the record agrees with the code as written; where it is null, the code as written throws |
| Parser.ParseItem | src/MediaParser.php:9-27 | Dispatch: IMAGE to the image record, VIDEO to the video branch, CAROUSEL_ALBUM to the corrected carousel branch (not the one as written, see Findings), any other type to null whatever ignore_video is |
| Parser.ParentFieldsProvenance | src/MediaParser.php:34-85 | In every variant, id, caption (null when absent), permalink and timestamp (or "") come from the parent item |
| Parser.IgnoredVideoCarouselIsImages | src/MediaParser.php:67-89 | With videos ignored, a carousel record has type "image" and only image children |
| Profiles.TokenDetails | src/Profile.php:88 | The merged details carry the long-lived access_token, the user id and the username |
| Profiles.TokensAfterRefresh | src/Profile.php:97 | Only the latest row's access_code changes, to the refreshed token; a failed refresh changes nothing |
| Profiles.Cache.Has | src/Profile.php:133 | `Cache::has($key)`: the key holds a value |
| Profiles.Cache.Lookup | src/Profile.php:133-134 | `Cache::get` gives a value exactly when `Cache::has` holds |
| Profiles.Cache.Forget | src/Profile.php:154 | Afterwards the key is missing and every other key reads as before |
| Profiles.Cache.Forever | src/Profile.php:141 | Afterwards the key reads as the value and every other key reads as before |
| Profiles.Profile.constructor | src/Profile.php:29-32 | `Profile::new`: the username is stored, with no identity token and no tokens |
| Profiles.Profile.CacheKey | src/Profile.php:24-27 | The key starts with "dymantic_instagram_feed:" and has more after it |
| Profiles.Profile.CacheKeyReadsBack | src/Profile.php:24-27 | The rest of the key is the id's digits, which read back to the id |
| Profiles.Profile.CacheKeysDistinct | src/Profile.php:24-27 | Distinct ids give distinct cache keys |
| Profiles.Profile.HasInstagramAccess | src/Profile.php:108-111 | `!! latestToken()`: access exactly when a token row exists |
| Profiles.Profile.LatestToken | src/Profile.php:113-116 | The last inserted token row, present exactly when the profile has access |
| Profiles.Profile.CurrentAccessCode | src/Profile.php:118-121 | The latest row's access code, or null when there is no row |
| Profiles.Profile.FetchOutcomeFor | src/Profile.php:152 | `fetchMedia($this->latestToken(), $limit)`: the remote result for the latest row, or for a null token without one |
| Profiles.Profile.GetInstagramAuthUrl | src/Profile.php:49-59 | A 16-character token is minted only when the identity token is falsy, so repeated calls keep it; the URL is the profile's authorize URL; tokens unchanged |
| Profiles.Profile.SetToken | src/Profile.php:101-106 | Every row is deleted and exactly one, built from the details, remains |
| Profiles.Profile.RequestToken | src/Profile.php:72-89 | An `error` parameter or a missing `code` parameter (tested by key presence, so an empty one counts as present) fails with "Unable to get request token" and no change; an exchange failure is rethrown with its message and no change; success leaves exactly one token holding the long-lived code |
| Profiles.Profile.RefreshToken | src/Profile.php:92-98 | The refresh is asked for with the current access code; on success only the latest row's code changes to the new token; a failure is reported with no change |
| Profiles.Profile.ClearToken | src/Profile.php:123-126 | No token rows remain and the profile has no access |
| Profiles.Profile.FeedResult | src/Profile.php:128-147 | No token: empty and cache untouched; cache hit: the items `Cache::get` gives, no fetch; failed fetch: empty and cache untouched; successful fetch: the items, stored under the profile's key |
| Profiles.Profile.Feed | src/Profile.php:128-147 | Returns the feed and leaves the cache that FeedResult describes; it never fails |
| Profiles.Profile.RefreshFeed | src/Profile.php:149-158 | A failed fetch is propagated and the cache is exactly as before; on success the slot reads as the new feed and the returned feed is that feed, or `feed()`'s empty feed for a profile without a token |
| Profiles.Profile.FirstHolder | src/Profile.php:41 | The first profile whose identity token is the given one, or none exactly when no profile holds it |
| Profiles.Profile.UsingIdentityToken | src/Profile.php:39-47 | Returns the first holder, or null when there is none; the holder's token is cleared and nothing else changes; with a single holder, a second lookup finds nobody |
| Profiles.Profile.FirstNamed | src/Profile.php:34-37 | The first profile with the username, or none exactly when no profile has it |
| Profiles.InstagramFeed.constructor | src/InstagramFeed.php:13-14 | Stores the profile and the items |
| Profiles.InstagramFeed.Empty | src/InstagramFeed.php:25-28 | A new feed with a null profile, no items and count 0 |
| Profiles.InstagramFeed.Collect | src/InstagramFeed.php:30-33 | The stored items, one for one and in stored order |
| Profiles.InstagramFeed.Count | src/InstagramFeed.php:47-50 | The count is the number of items collect yields |
| Profiles.InstagramFeed.Refresh | src/InstagramFeed.php:35-40 | No profile: nothing changes; otherwise the items become the profile's refreshFeed result (empty for a profile without a token), and a failure is propagated with items and cache unchanged |
| Profiles.InstagramFeed.For | src/InstagramFeed.php:16-23 | For a profile, exactly what `profile->feed($limit)` returns and stores |
| Profiles.InstagramFeed.ForUsername | src/InstagramFeed.php:16-23 | For a username, exactly what the first profile with that name's `feed($limit)` returns and stores |
| Commands.LimitOf | src/Commands/RefreshAuthorizedFeeds.php:23 | The limit is the argument when given, 20 otherwise |
| Commands.StoreFirstUnwritten | src/Commands/RefreshAuthorizedFeeds.php:29-43 | A slot that no visited profile writes keeps its contents or stays absent |
| Commands.StoreFirstSlots | src/Commands/RefreshAuthorizedFeeds.php:29-43 | After the visited profiles, each written slot holds its own profile's items and every other visited slot is as before |
| Commands.PlanKeysDistinct | src/Profile.php:24-27 | Profiles with distinct ids take distinct cache slots in a run |
| Commands.PlanSlots | src/Commands/RefreshAuthorizedFeeds.php:25-43 | After a run, a profile's slot holds its fetched items when it had a token and the fetch succeeded; with no token or a failed fetch the slot is exactly as before |
| Commands.NoticeOf | src/Commands/RefreshAuthorizedFeeds.php:37-41 | A profile sends one mail, with its id and the error message, exactly when the address is non-empty and its fetch failed |
| Commands.NoticesFirstSilent | src/Commands/RefreshAuthorizedFeeds.php:37 | An empty notify_on_error sends no mail at all |
| Commands.NoticesFirstCount | src/Commands/RefreshAuthorizedFeeds.php:37-41 | With an address configured, as many mails as failing authorised profiles |
| Commands.NoticesFirstMembers | src/Commands/RefreshAuthorizedFeeds.php:29-43 | A mail is sent exactly for each authorised profile whose fetch failed |
| Commands.TokensAfterFetch | src/Commands/RefreshAuthorizedFeeds.php:33-35 | A BadToken failure deletes every row; any other outcome keeps them |
| Commands.RefreshAuthorizedFeeds | src/Commands/RefreshAuthorizedFeeds.php:21-44 | The cache and the mails are those of every profile's turn in order; each profile's tokens are cleared exactly on BadToken; a failure does not stop later profiles; identity tokens unchanged |
| Commands.RefreshNext | src/Commands/RefreshAuthorizedFeeds.php:29-43 | One turn of the loop extends the progress invariant from profile i to i+1 |
| Commands.RefreshOne | src/Commands/RefreshAuthorizedFeeds.php:30-42 | One profile: only an authorised successful fetch writes its slot; BadToken clears its tokens; a failure with an address yields one mail |
| Commands.RefreshTokens | src/Commands/RefreshTokens.php:23-26 | Profiles before the first failure with a token are refreshed with their current code; profiles without a token, and all after the failure, are unchanged; the failure ends the run and is reported with its message |

## Left out

- `fetchMedia`, its pagination and page size, and the classification of a failure as `BadTokenException`: none is in the modelled sources. The fetch is the `Remote` parameter, and its outcome already says BadToken or another error.
- Profiles.Profile.FetchOutcomeFor: what `fetchMedia` does with a null token (reachable from `refreshFeed`, src/Profile.php:152) is not in the modelled sources. The model leaves it to the `Remote` parameter, and `RefreshFeed` covers every outcome.
- `fetchUserDetails`, `exchangeToken` and `Instagram::refreshToken` are not in the modelled sources. They are the `Exchange` and `Refresher` parameters.
- HTTP (src/SimpleClient.php): I/O. `requestTokenForProfile` is modelled as the request it builds.
- The database and cache backends: modelled as in-memory objects, a `seq` of token rows and a `map`. `latest()` is taken to be the last row inserted, since rows of one profile are created in order.
- `Str::random(16)`: randomness, so the token is a parameter of `GetInstagramAuthUrl`.
- `App::make`, the service provider and `Config::get`: container plumbing. The configuration and `notify_on_error` are parameters.
- Profiles.InstagramFeed.ForUsername: requires that a profile with that username exists. Without one the source evaluates `new null` and throws an Error instead of returning `empty()`.
- Parser.ParseAsCarouselAsWritten: models PHP 8 under Laravel's error handler, which turns the warning for reading `$use['media_type']` from null (src/MediaParser.php:79) into an `ErrorException`, so the branch throws. Without such a handler PHP would only warn and return a record of null and empty fields; that variant is not modelled.
- Profiles.Profile.SetToken and Profiles.Profile.ClearToken: `$this->tokens` is an Eloquent relation loaded once per instance. A second call on the same instance would delete only the rows loaded at the first call, not rows created since. The model deletes every current row. The modelled callers each use a fresh instance.
- HttpErrors.Construct: the optional `$previous` Throwable, which only chains exceptions, is not modelled.
- Commands.LimitOf: the CLI passes the `limit` argument as an uncast string. The model takes it as a natural number, the value `fetchMedia` receives.
- The mail (FeedRefreshFailed and its view): presentation. A mail is recorded as a `Notice` with the address, the profile id and the message.
- Commands.RefreshAuthorizedFeeds: on a failure, the profile is re-read with `fresh()` for the mail. The model records only its id. An exception thrown by `clearToken` or by sending the mail itself is not modelled.
- Commands.RefreshTokens: the failure is returned as the position where the run stopped and the message, instead of an exception escaping the command.
- Profiles.Profile.RefreshToken: a refresh that succeeds for a profile without tokens fails in the source on `null->update(...)`. The model returns the error `NoTokenMessage` and changes nothing; neither command reaches this case.
- The `filter(hasInstagramAccess)` of both commands is modelled as a guard inside the loop rather than a separate pass; the two agree because an iteration changes only its own profile.
- `viewData`, the access-token controller (including its integer cast of `state`), `CreateBasicProfile` and `RefreshMediaCount`: presentation, HTTP routing or a single insert. `RefreshMediaCount` also calls a method Profile does not have.
- The authorize URL has no `scope` and no `state` parameter in the code, although its tests expect them. The code is modelled.
- The output shape asserted by the media parser's tests (`low`, `thumb`, `standard`, `likes`) does not match the parser and is not modelled.
- `getIterator` yields the items in stored order, which `Collect` returns; there is no separate iterator member.
- Logging and the exception classes' own types: an error is its message, tagged with the exception it stands for.

## Findings

| source | as written | input that shows it | evidently intended | confidence | as-written member | corrected member |
|---|---|---|---|---|---|---|
| src/MediaParser.php:72 | `if (!$children)` tests a Collection object, which PHP always treats as true, so the guard never fires; with no surviving child `$use = first()` is null, and under Laravel's error handler the read `$use['media_type']` at line 79 throws an `ErrorException`, so `parseItem` throws | a CAROUSEL_ALBUM whose only child is a VIDEO, parsed with ignore_video true | return null when no child survives the filter (the configuration comment and the parser's tests expect null) | not executed | Parser.ParseAsCarouselAsWritten, Parser.AllVideoCarouselAsWritten | Parser.ParseAsCarousel |
