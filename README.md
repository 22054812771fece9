# family-cloud client core, modelled in Dafny

This project models the client-side logic of the family-cloud web app, a
private family video library, and proves properties of that model. The
logic covered is:

- the **playlist store**: one array of playlists kept under the browser
  storage key `kebijo_playlists`;
- the **continue-watching store**: one list per profile under
  `kebijo_continue_watching_<profileId>`, most recent first, at most 20
  entries;
- the **REST client**:
  - request headers;
  - turning an error response into an error message;
  - the retry loop of `makeRequest`, with at most 3 retries, the status
    allow-list {408, 429, 500, 502, 503, 504}, backoff of 1000·2^n ms, and
    a retry for errors without a status;
  - argument checks and response-shape normalisation of the five endpoints;
- the **API configuration**: base URL and endpoint paths;
- **client-side search** and the browsing categories;
- the **sign-in helpers**: hosted-UI URLs, reading tokens from the
  redirect fragment, token storage, and user details from claims;
- the **profile state** of the profile context: profiles and the active
  profile, mirrored to storage.

Modules, one per file:

| file | module | models |
|---|---|---|
| `wrappers.dfy` | `Wrappers` | `Option`, `Result`, and `Slot` (a storage key: absent, unreadable, or holding a value) |
| `seqs.dfy` | `Seqs` | `Array.prototype.filter`, a stable descending sort, `slice(0, n)`, and their facts |
| `text.dfy` | `Text` | ASCII `toLowerCase`, `trim`, `includes`, `join`, `String(n)`, `parseInt(s, 10)` |
| `json_value.dfy` | `JsonValue` | decoded JSON values, truthiness, property reads, the `a \|\| b` fallback |
| `api_config.dfy` | `ApiConfig` | `frontend/src/config/api.js` |
| `api_client.dfy` | `ApiClient` | `frontend/src/api/keBIJOApi.js` |
| `playlists.dfy` | `Playlists` | `frontend/src/utils/playlists.js` |
| `continue_watching.dfy` | `ContinueWatching` | `frontend/src/utils/continueWatching.js` |
| `search.dfy` | `Search` | `frontend/src/utils/search.js` |
| `auth.dfy` | `Auth` | `frontend/src/utils/auth.js` |
| `profiles.dfy` | `Profiles` | `frontend/src/context/ProfileContext.jsx` |

How the environment is represented:

- **Browser storage.** Each storage key is a class field:
  - `PlaylistStore.stored` holds the playlist key;
  - `ContinueWatchingStore.items` maps storage keys to values;
  - `TokenStore.items` holds the token strings;
  - `ProfileState.storedProfiles` and `ProfileState.storedActive` hold the profile keys.
  - A key whose text does not parse is `Corrupt`. The model follows each catch-and-log path the source takes for it.
- **`fetch`.** It is a scripted sequence of outcomes: a network failure, or a response with a status, a status text and a body.
  - The body records its content type, its text and what `JSON.parse` makes of it.
  - The script must have more entries than the retry limit, so every attempt has an outcome.
  - `makeRequest` returns what it resolves or throws, the number of fetches, and the delays it would sleep.
- **Time and ids.** The current time, ISO timestamps and generated ids are parameters; `createPlaylist` reads the clock twice, so it takes two timestamps.
- **Foreign functions.** `encodeURIComponent`, `URLSearchParams` and `decodeToken` are function parameters.
- **Falsy values.** In the REST client's arguments (`token`, `videoId`, `filename`) and in `Auth.TokenStore.IsAuthenticated`, an empty string stands for every falsy string (`null`, `undefined`, `''`). Elsewhere strings are taken as given.

## Model

| member | source | states |
|---|---|---|
| `ApiConfig.ApiBaseUrl` | frontend/src/config/api.js:7-8 | the base URL is the build-time value when it is set and non-empty, else the fixed API Gateway URL |
| `ApiConfig.VideoPath` | frontend/src/config/api.js:15 | `VIDEO(id)` is `/videos`, then `/`, then the id |
| `ApiConfig.PlayPath` | frontend/src/config/api.js:16 | `PLAY(id)` is `/play/` followed by the id |
| `ApiConfig.GetApiUrl` | frontend/src/config/api.js:27-29 | the full URL is the base URL followed by the endpoint, nothing added or lost |
| `ApiConfig.VideoUrlInjective` | frontend/src/config/api.js:13-29 | two video ids give the same video URL only if they are equal |
| `ApiClient.CreateHeaders` | frontend/src/api/keBIJOApi.js:30-41 | `Content-Type` is always present and is JSON unless the caller overrides it; `Authorization: Bearer <token>` is set iff the token is truthy and wins over a caller's header; caller headers are kept otherwise; no other header appears |
| `ApiClient.ErrorMessage` | frontend/src/api/keBIJOApi.js:49-58 | the error message is the body's `message`, else its `error`, else "API request failed with status N"; a body that is not JSON gives the status text, else that default |
| `ApiClient.Settle` | frontend/src/api/keBIJOApi.js:48-75 | one attempt without retry: a network failure throws without status; a non-ok status throws with that status and the message above; an ok empty non-JSON body gives `{}`; any other ok body gives its parsed value, or throws the parse error without status |
| `ApiClient.RequestFromDelays` | frontend/src/api/keBIJOApi.js:89-98 | from retry count n: between 1 and 4 − n attempts, and the wait before attempt n + i + 1 is 1000·2^(n+i) |
| `ApiClient.RequestFromShape` | frontend/src/api/keBIJOApi.js:84-121 | from retry count n: every attempt but the last qualified for retry, the last did not, and its result is the call's result |
| `ApiClient.RetryPolicy` | frontend/src/api/keBIJOApi.js:13-17 | a call makes 1 to 4 fetches and waits 1000, 2000 and 4000 ms in turn between them; the last attempt's result or error is what the caller gets |
| `ApiClient.ShouldRetry` | frontend/src/api/keBIJOApi.js:89-108 | an attempt is retried only below the retry limit; below it, a network failure is always retried, a non-ok response iff its status is on the allow-list or is 0, and an ok response iff its body fails to parse |
| `ApiClient.NonRetryableStatusFailsAtOnce` | frontend/src/api/keBIJOApi.js:99-104 | an error status outside the allow-list (other than 0, which is retried) ends the call after one fetch, with an error carrying that status |
| `ApiClient.RetryableStatusIsRetried` | frontend/src/api/keBIJOApi.js:89-98 | an allow-listed error status at retry count n < 3 is followed by another attempt after 1000·2^n ms |
| `ApiClient.StatuslessErrorIsRetried` | frontend/src/api/keBIJOApi.js:102-110 | a network failure, or an ok response whose body does not parse, at retry count n < 3 is followed by another attempt after 1000·2^n ms |
| `ApiClient.NetworkDownThrowsLastError` | frontend/src/api/keBIJOApi.js:102-119 | with the network down, there are exactly 4 fetches, waits of 1000, 2000 and 4000 ms, and the fourth failure is thrown |
| `ApiClient.ServerErrorThenSuccess` | frontend/src/api/keBIJOApi.js:89-101 | a 500 then a 200 with a JSON body gives that body after 2 fetches and one 1000 ms wait |
| `ApiClient.MakeRequest` | frontend/src/api/keBIJOApi.js:84-121 | the loop returns exactly the result, attempt count and delays of the retry specification `Request` |
| `ApiClient.NormaliseVideos` | frontend/src/api/keBIJOApi.js:141 | result is `videos`, else `data`, else the response itself whenever it is truthy (an object such as `{}` included), and `[]` only for a falsy response; reading a property of a `null` response throws |
| `ApiClient.EmptyBodyFetchesEmptyObject` | frontend/src/api/keBIJOApi.js:74 | an ok first response with an empty non-JSON body ends the call after one fetch, and `fetchVideos` resolves to `{}`, not `[]` |
| `ApiClient.NormalisePlaybackUrl` | frontend/src/api/keBIJOApi.js:171 | result is `playbackUrl`, else `url`, else `playback_url`, else the response itself whatever its shape; a `null` response throws |
| `ApiClient.NormaliseUpload` | frontend/src/api/keBIJOApi.js:206-210 | the result always has `uploadUrl` and `videoId`; each is its alias chain unless the response has that field itself; every response field is copied over |
| `ApiClient.NormaliseMetadata` | frontend/src/api/keBIJOApi.js:242 | result is `video`, else `data`, else the response; a `null` response throws |
| `ApiClient.Complete` | frontend/src/api/keBIJOApi.js:139-145 | any error of the request or of normalisation is rethrown with the endpoint's prefix; otherwise the normalised value is returned |
| `ApiClient.FetchVideos` | frontend/src/api/keBIJOApi.js:128-146 | without a token: "Authentication token is required" and no fetch; otherwise GET `/videos` with bearer headers, and the outcome of the retried request, normalised |
| `ApiClient.FetchPlaybackUrl` | frontend/src/api/keBIJOApi.js:154-176 | token check first, then "Video ID is required", both before any fetch; otherwise GET `/play/<id>` and the normalised outcome |
| `ApiClient.InitiateUpload` | frontend/src/api/keBIJOApi.js:185-215 | token check, then "Filename is required"; otherwise POST `/upload/initiate` with body `{filename, ...metadata}` and the normalised outcome |
| `ApiClient.SaveVideoMetadata` | frontend/src/api/keBIJOApi.js:224-247 | token check, then the video-id check; otherwise PUT `/videos/<id>` with the metadata as body and the normalised outcome |
| `ApiClient.DeleteVideo` | frontend/src/api/keBIJOApi.js:255-276 | token check, then the video-id check; otherwise DELETE `/videos/<id>`, resolving to nothing or rethrowing with the prefix |
| `Playlists.DefaultsWellFormed` | frontend/src/utils/playlists.js:10-51 | in every default playlist, `videoCount` equals the number of video ids, and no id repeats |
| `Playlists.AfterRead` | frontend/src/utils/playlists.js:57-70 | reading the playlists never changes what they read as; only an empty key is filled, with the defaults |
| `Playlists.IndexOfId` | frontend/src/utils/playlists.js:125 | `findIndex`: the first index with that id, or −1 iff none has it |
| `Playlists.FindById` | frontend/src/utils/playlists.js:89-92 | `None` iff no playlist has the id; otherwise the first playlist with it |
| `Playlists.Merge` | frontend/src/utils/playlists.js:129-133 | every field the updates give overrides the stored one and every other field is kept, field by field; `updatedAt` is always now; an empty update changes nothing else |
| `Playlists.WithoutPlaylist` | frontend/src/utils/playlists.js:147 | every record left is a stored one without the id, every stored record without the id is left, and the length is unchanged iff no record had the id |
| `Playlists.AddVideo` | frontend/src/utils/playlists.js:158-171 | an unknown playlist gives null and only the read; a playlist already listing the video is returned as stored with nothing written; otherwise the returned record is the stored one with the video appended at the end, the count the old length plus one and `updatedAt` now, its id, name, description, thumbnail and `createdAt` kept, and only that index of the saved array changes |
| `Playlists.RemoveVideo` | frontend/src/utils/playlists.js:179-188 | an unknown playlist gives null and only the read; otherwise the returned record is the stored one with the filtered ids, no longer listing the video, the count its new length and `updatedAt` now, its id, name, description, thumbnail and `createdAt` kept, and only that index of the saved array changes |
| `Playlists.AddVideoIdempotent` | frontend/src/utils/playlists.js:158-171 | adding the same video twice equals adding it once, from any stored state, and the second call writes nothing; after a first add that appended it, the video is listed exactly once and `videoCount` is the list's length |
| `Playlists.AddVideoWellFormed` | frontend/src/utils/playlists.js:158-171 | adding a video keeps every playlist's count equal to its length and its ids free of repeats |
| `Playlists.RemoveVideoEffect` | frontend/src/utils/playlists.js:179-188 | removal drops every occurrence of the video, keeps every other id as often as before and in order, and sets `videoCount` to the new length |
| `Playlists.RemoveVideoWellFormed` | frontend/src/utils/playlists.js:179-188 | removing a video keeps every playlist's count equal to its length and its ids free of repeats |
| `Playlists.DeleteReportsRemoval` | frontend/src/utils/playlists.js:145-150 | `deletePlaylist` returns true iff some stored playlist had the id |
| `Playlists.DeleteKeepsOthers` | frontend/src/utils/playlists.js:145-150 | deletion leaves no playlist with the id, and keeps every other one as often as before and in stored order |
| `Playlists.PlaylistsWithVideoExact` | frontend/src/utils/playlists.js:195-198 | exactly the playlists listing the video, each as often as stored, in stored order |
| `Playlists.PlaylistStore.GetPlaylists` | frontend/src/utils/playlists.js:57-70 | returns the stored array, or the defaults; the defaults are saved only when nothing was stored, not when the stored text is unreadable |
| `Playlists.PlaylistStore.GetPlaylistById` | frontend/src/utils/playlists.js:89-92 | the first playlist with the id, looked up in what `getPlaylists` returns |
| `Playlists.PlaylistStore.CreatePlaylist` | frontend/src/utils/playlists.js:99-115 | exactly one playlist is appended: empty `videoIds`, count 0, description defaulting to `''`, no thumbnail, and the two timestamps the two clock reads gave; earlier records are unchanged |
| `Playlists.PlaylistStore.UpdatePlaylist` | frontend/src/utils/playlists.js:123-138 | an unknown id returns null and writes nothing; otherwise only the first matching index is replaced by the shallow merge with `updatedAt` = now |
| `Playlists.PlaylistStore.DeletePlaylist` | frontend/src/utils/playlists.js:145-150 | the filtered list is saved; the result is true iff a playlist had the id |
| `Playlists.PlaylistStore.AddVideoToPlaylist` | frontend/src/utils/playlists.js:158-171 | null for an unknown playlist; the playlist unchanged when it already lists the video; otherwise the video is appended and the count set to the new length |
| `Playlists.PlaylistStore.RemoveVideoFromPlaylist` | frontend/src/utils/playlists.js:179-188 | null for an unknown playlist; otherwise the filtered ids and their count are merged in |
| `Playlists.PlaylistStore.GetPlaylistsForVideo` | frontend/src/utils/playlists.js:195-198 | the filter of what `getPlaylists` returns by membership of the video |
| `ContinueWatching.StorageKey` | frontend/src/utils/continueWatching.js:66-69 | a profile's key is `kebijo_continue_watching_` followed by the profile id |
| `ContinueWatching.StorageKeyInjective` | frontend/src/utils/continueWatching.js:66-69 | two profiles never share a key |
| `ContinueWatching.OtherKeysDiffer` | frontend/src/utils/continueWatching.js:66-69 | no other profile's key equals this profile's key, so writing one list never touches another |
| `ContinueWatching.IndexOfVideo` | frontend/src/utils/continueWatching.js:88-90 | the first index whose entry's video has the id, or −1 iff there is none |
| `ContinueWatching.NewSnapshot` | frontend/src/utils/continueWatching.js:101-108 | a new entry's video keeps the id; a given non-empty title is stored as is, else `Untitled`; an empty thumbnail and an empty duration text become null, and given ones are kept; a missing upload date becomes now |
| `ContinueWatching.Touched` | frontend/src/utils/continueWatching.js:88-111 | the update fails (and nothing is saved) iff there is no entry for the video and no video details to build one; an existing entry keeps its stored snapshot and gets only the new progress and time, at the same index, with every other entry unchanged; otherwise the list is kept and one entry with `NewSnapshot` of the details is appended at the end |
| `ContinueWatching.TouchedIgnoresVideo` | frontend/src/utils/continueWatching.js:92-98 | when the video is already listed, the video details passed with the update make no difference |
| `ContinueWatching.Progressed` | frontend/src/utils/continueWatching.js:114-122 | fails exactly when `Touched` does; the saved list has at most 20 entries and at most one more than before, and while fewer than 20 were stored nothing is dropped |
| `ContinueWatching.ProgressedOrdered` | frontend/src/utils/continueWatching.js:114-122 | the saved list has at most 20 entries, is sorted most recent first, and is drawn from the updated list; every dropped entry is no more recent than any kept one |
| `ContinueWatching.ProgressedLeadsWithVideo` | frontend/src/utils/continueWatching.js:92-117 | when the update is the latest watch, the saved list starts with the video's entry holding the new progress and time, with its stored snapshot if it was listed and `NewSnapshot` of the details otherwise |
| `ContinueWatching.ProgressedDistinct` | frontend/src/utils/continueWatching.js:88-120 | if no video appeared twice before an update, none does after it |
| `ContinueWatching.RemoveEffect` | frontend/src/utils/continueWatching.js:139 | removal leaves no entry for the video and keeps every other entry, as often as before and in order |
| `ContinueWatching.ContinueWatchingStore.FetchStored` | frontend/src/utils/continueWatching.js:46-56 | the storage fallback returns the stored list, or `[]` when nothing readable is stored |
| `ContinueWatching.ContinueWatchingStore.SaveContinueWatching` | frontend/src/utils/continueWatching.js:64-73 | writes the list under the profile's own key only; other profiles' lists are unchanged |
| `ContinueWatching.ContinueWatchingStore.UpdateWatchProgress` | frontend/src/utils/continueWatching.js:82-126 | saves the refreshed, sorted, truncated list; an unreadable stored list or missing video details leave storage unchanged; other profiles' lists are unchanged |
| `ContinueWatching.ContinueWatchingStore.RemoveFromContinueWatching` | frontend/src/utils/continueWatching.js:133-144 | nothing happens without a readable stored list; otherwise the entries of that video are filtered out; other profiles are unchanged |
| `ContinueWatching.ContinueWatchingStore.ClearContinueWatching` | frontend/src/utils/continueWatching.js:150-156 | only this profile's key is removed, so the fallback read then returns `[]` |
| `Search.SearchVideos` | frontend/src/utils/search.js:16-59 | the local search never returns more videos than it was given |
| `Search.SearchBlankQuery` | frontend/src/utils/search.js:17-19 | an empty or all-whitespace query returns `[]` |
| `Search.SearchVideosExact` | frontend/src/utils/search.js:45-59 | any other query returns exactly the videos whose lower-cased title, description or space-joined tags contain the lower-cased, trimmed query, each as often as listed, in input order |
| `Search.SearchIgnoresCase` | frontend/src/utils/search.js:46-50 | two queries that differ only in ASCII letter case return the same videos |
| `Search.TermAcrossTags` | frontend/src/utils/search.js:50 | a term spanning two adjacent tags, with the joining space, matches |
| `Search.CategoryKeywords` | frontend/src/utils/search.js:70-92 | a name that is not one of the five categories, and "Recently Added", have no keywords |
| `Search.CategoriesOffered` | frontend/src/utils/search.js:108-116 | `getCategories` lists five distinct names, "Recently Added" last; the four before it are exactly the names that have keywords |
| `Search.KeywordsPlain` | frontend/src/utils/search.js:70-76 | every keyword category has keywords, none with a space or a capital letter |
| `Search.VideosByCategory` | frontend/src/utils/search.js:68-102 | "Recently Added" returns min(10, n) videos; an unknown category returns `[]`; a keyword category never grows the list |
| `Search.RecentlyAddedNewest` | frontend/src/utils/search.js:78-87 | "Recently Added" is sorted newest first, with a missing date as 0; it is drawn from the input, which it does not change; with 10 or fewer videos it holds all of them; no left-out video is newer than a shown one |
| `Search.SpaceFreeInThree` | frontend/src/utils/search.js:98-100 | a keyword without spaces occurs in `title description tags` iff it occurs in one of the three texts |
| `Search.KeywordMatchPerField` | frontend/src/utils/search.js:94-101 | a video belongs to a keyword category iff one of its keywords occurs in its title, description or tags |
| `Search.KeywordCategoryExact` | frontend/src/utils/search.js:94-101 | a keyword category returns exactly the videos matching some keyword, each as often as listed, in input order |
| `Search.GetCategoryData` | frontend/src/utils/search.js:124-132 | the category data has the category's name and its videos, and `count` is their number |
| `Text.ParseInt10` | frontend/src/utils/auth.js:70 | `parseInt(s, 10)` is NaN iff no digit follows the leading whitespace and an optional sign |
| `Text.ParseIntRoundTrip` | frontend/src/utils/auth.js:70 | parsing the decimal text of an integer gives that integer back |
| `Text.TrimEmpty` | frontend/src/utils/search.js:17 | `trim()` is empty iff the string is all whitespace |
| `Auth.Setting` | frontend/src/utils/auth.js:5-7 | each hosted-UI setting is the environment value when non-empty, else its default |
| `Auth.Configure` | frontend/src/utils/auth.js:5-7 | the domain, client id and redirect address are each the environment value when non-empty, else their fixed default |
| `Auth.LoginUrl` | frontend/src/utils/auth.js:15-19 | the sign-in page of the domain with the client id, `response_type=token` and the encoded redirect address, in that order |
| `Auth.SignupUrl` | frontend/src/utils/auth.js:25-29 | the sign-up page of the domain with the client id, `response_type=token` and the encoded redirect address, in that order |
| `Auth.LogoutUrl` | frontend/src/utils/auth.js:35-39 | the logout page of the domain with the client id and the encoded redirect address as `logout_uri`, and no response type |
| `Auth.LoginSignupDifferInSegment` | frontend/src/utils/auth.js:15-29 | the login and signup URLs are equal except for `/login` versus `/signup` after the domain |
| `Auth.UrlsEndWithRedirect` | frontend/src/utils/auth.js:15-39 | login, signup and logout URLs all end with the encoded redirect address |
| `Auth.ParseTokensFromHash` | frontend/src/utils/auth.js:46-73 | an empty hash gives null; parsing starts after the first character; a non-empty `error` wins, whatever tokens there are; otherwise both tokens are required; `tokenType` defaults to `Bearer`; `expiresIn` is null iff the parameter is missing or empty |
| `Auth.ExpiryReadBack` | frontend/src/utils/auth.js:67-72 | an `expires_in` written as a decimal integer is read back as that integer |
| `Auth.UserInfoFrom` | frontend/src/utils/auth.js:156-162 | `name` is `name`, else `cognito:username`, else `email`; `username` is `cognito:username`, else `email`; `sub`, `email` and `email_verified` are copied |
| `Auth.TokenStore.SaveTokens` | frontend/src/utils/auth.js:80-86 | the id token goes under `familyCloudIdToken` and `authToken`, the access token under `familyCloudAccessToken`; the user is then signed in iff the id token is non-empty |
| `Auth.TokenStore.GetIdToken` | frontend/src/utils/auth.js:92-94 | the stored id token, or null |
| `Auth.TokenStore.GetAccessToken` | frontend/src/utils/auth.js:100-102 | the stored access token, or null |
| `Auth.TokenStore.IsAuthenticated` | frontend/src/utils/auth.js:108-111 | true iff an id token is stored and it is not empty |
| `Auth.TokenStore.ClearTokens` | frontend/src/utils/auth.js:116-121 | exactly the four token keys are removed, after which the user is not signed in |
| `Auth.TokenStore.GetUserInfo` | frontend/src/utils/auth.js:149-163 | null without a token or with falsy claims; otherwise the user details drawn from the claims |
| `Profiles.DefaultProfilesDistinct` | frontend/src/context/ProfileContext.jsx:23-52 | the four default profiles have distinct ids and no avatar |
| `Profiles.UpdatedProfiles` | frontend/src/context/ProfileContext.jsx:126-128 | length is preserved; each profile with the id is merged with the updates, every other is kept as it was |
| `Profiles.Merge` | frontend/src/context/ProfileContext.jsx:127 | every field the updates give overrides the profile's and every other field is kept, field by field; an empty update leaves the profile as it was |
| `Profiles.WithoutProfile` | frontend/src/context/ProfileContext.jsx:141 | every profile left is a listed one without the id, every listed profile without the id is left, and the length is unchanged iff no profile had the id |
| `Profiles.UpdateKeepsListed` | frontend/src/context/ProfileContext.jsx:125-137 | a listed profile is still listed after an update, merged iff its id matched, so a listed active profile stays listed |
| `Profiles.DeleteEffect` | frontend/src/context/ProfileContext.jsx:141 | deletion leaves no profile with the id and keeps every other one as often as before and in order |
| `Profiles.ProfileState.LoadProfiles` | frontend/src/context/ProfileContext.jsx:64-88 | stored profiles are used; with none stored the defaults are set and saved; a stored active profile is restored; an unreadable key sets the defaults in memory only and leaves the active profile as it was |
| `Profiles.ProfileState.SelectProfile` | frontend/src/context/ProfileContext.jsx:98-105 | the profile becomes active and is saved as active; nothing else changes |
| `Profiles.ProfileState.SwitchProfile` | frontend/src/context/ProfileContext.jsx:107-109 | no profile is active and the active key is removed; the profiles are unchanged |
| `Profiles.ProfileState.AddProfile` | frontend/src/context/ProfileContext.jsx:113-123 | exactly one profile is appended and saved; its avatar is null; a caller-given id wins over the generated one |
| `Profiles.ProfileState.UpdateProfile` | frontend/src/context/ProfileContext.jsx:125-138 | the list is updated and saved; the active profile is merged and saved iff it has the id; a listed active profile stays listed |
| `Profiles.ProfileState.DeleteProfile` | frontend/src/context/ProfileContext.jsx:140-150 | the filtered list is saved; the active profile is cleared and its key removed iff it had the id; otherwise it stays listed |

## Left out

- Network I/O is not modelled beyond what is described here.
  - `fetch` is a scripted outcome, and `sleep` is the list of delays it would wait.
  - The API branches of `searchVideos` and `fetchContinueWatching` (frontend/src/utils/search.js:21-43, frontend/src/utils/continueWatching.js:18-43) are not modelled. Only their local fallbacks are, because those branches depend entirely on a server response.
- `ApiClient.MakeRequest`: the `error.response` property attached to thrown errors and the console logging are not modelled.
- JSON serialisation to and from storage is not modelled.
  - Storage holds typed values, and unreadable text is `Corrupt`.
  - A stored value of the wrong shape is not modelled: a non-array, or an entry without `video`.
  - Storage quota errors are not modelled; writes always succeed.
- `ContinueWatching.Entry.lastWatchedAt` is a number of milliseconds. The ISO string the source stores and re-parses with `new Date` is not modelled, and neither is an unparseable date (NaN in the comparator).
- `Search.UploadKey` takes `uploadedAt` as milliseconds already, for the same reason.
- `Text.Lower` and `Text.IsSpace` cover ASCII letters and JavaScript's basic whitespace only. Full Unicode case mapping and the other Unicode space separators are not modelled.
- `JsonValue.Json` numbers are integers, and floating point is not modelled. `null` and `undefined` are one value.
- `ApiClient.NormaliseUpload`: spreading a string or array response copies its indices in JavaScript. This is not modelled; only an object's fields are copied.
- `Search.CategoryKeywords`: category names inherited from `Object.prototype` are treated as unknown, so `VideosByCategory` gives `[]` for them. In the source `categoryMap[category]` finds the inherited member. For `toString`, `valueOf` and `toLocaleString` its `length` is 0, so the source returns `[]` too. For `constructor`, `hasOwnProperty`, `__proto__` and the other inherited members whose `length` is not 0, the source reaches `keywords.some`, which throws a TypeError when the list of videos is non-empty.
- `Playlists.PlaylistStore.UpdatePlaylist`: the source assigns into the array `getPlaylists` returned. When that array is the module's `DEFAULT_PLAYLISTS`, the in-memory defaults change for the rest of the session. The model treats the defaults as a constant.
- `Profiles.ProfileState` applies state updates immediately. React's batched `setState` is not modelled. `ProfileData` carries the fields `addProfile` is given (name, color, isChild), and an `avatar` it passes is discarded.
- The `navigate('/profiles')` call in `switchProfile` (frontend/src/context/ProfileContext.jsx:110) is not modelled. It refers to an undefined name.
- Storage writes of non-string values are not modelled. `localStorage.setItem(k, null)` stores the text `"null"`, and a continue-watching key built from an `undefined` profile id ends in `_undefined`. The model's storage keys and values are always strings.
- `decodeToken`, `encodeURIComponent` and `URLSearchParams` are function parameters. Base64, percent-encoding and query parsing are not modelled.
- `Date.now()` ids and ISO timestamps are parameters. Id uniqueness is not claimed, because the source does not ensure it.
- `uploadToS3` (XMLHttpRequest progress events), `formatFileSize`, the thin wrappers in `frontend/src/utils/api.js`, the UI components and the Python Lambda handlers are not part of this model.
