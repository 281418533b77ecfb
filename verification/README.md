# LoopSphere admin console: the state layer, modelled in Dafny

This project models the client-side state layer of the LoopSphere admin
console, a Next.js front end for administering users. That layer has four parts:

- the cookie-based session helpers, and the authenticated request wrapper that
  refreshes the access token once on a 401 and retries;
- the two session holders: a zustand store and a React provider;
- the zustand stores for tables, reference data, users, settings, the user
  form and the UI chrome;
- a few pure string helpers.

Each store becomes a Dafny `class` whose fields are the store's fields. Each
action becomes a `method` whose `ensures` gives the whole new state as a
function of the old one ("nothing else changes"). The new values come from
specification functions, and lemmas prove what the source promises about
them. Network answers are inputs of type `Outcome` (`Reply(status, body)` or
`Failure(error)`). The browser's cookie string is modelled by a `Jar`, and
`getCookie` is proved to read back exactly what the jar holds.

Modules:

| file | module | models |
|---|---|---|
| common.dfy | `Common` | option values, JavaScript truthiness, `trim`, `split`/`join`, `filter`, ASCII case, number printing |
| json.dfy | `Json` | JSON values and optional property access (`a?.[k]`) |
| http.dfy | `Http` | response envelopes `{ success, message, data, pagination }` and transport errors |
| uri_codec.dfy | `UriCodec` | `encodeURIComponent` / `decodeURIComponent` as percent-encoding |
| auth_helpers.dfy | `AuthHelpers` | lib/auth-helpers.ts |
| api_request.dfy | `ApiRequest` | lib/api-request.ts |
| auth_store.dfy | `AuthStore` | stores/auth-store.ts |
| auth_provider.dfy | `AuthProvider` | providers/auth-provider.tsx |
| table_store.dfy | `TableStore` | stores/table-store.ts |
| data_store.dfy | `DataStore` | stores/data-store.ts |
| user_store.dfy | `UserStore` | stores/user-store.ts |
| settings_store.dfy | `SettingsStore` | stores/settings-store.ts |
| form_store.dfy | `FormStore` | stores/form-store.ts |
| ui_store.dfy | `UiStore` | stores/ui-store.ts |
| helpers.dfy | `Helpers` | `getInitials`, `timeAgo`, `toAbsoluteUrl` from lib/helpers.ts |

## Model

| member | source | states |
|---|---|---|
| UriCodec.Encode | lib/auth-helpers.ts:12 | the encoded value never contains `;` or a space, so it cannot break the cookie string; it is empty exactly when the value is |
| UriCodec.HexRoundTrip | lib/auth-helpers.ts:12 | the hex digits of a percent escape read back as the number they encode |
| UriCodec.DecodeEncode | lib/auth-helpers.ts:12-23 | decoding what `setCookie` encoded gives back the original value |
| UriCodec.EncodeInjective | lib/auth-helpers.ts:12 | different values are stored as different cookie texts |
| AuthHelpers.PutValid | lib/auth-helpers.ts:7-13 | writing a cookie keeps the jar well-formed: distinct names, no `;` in any entry |
| AuthHelpers.DeleteValid | lib/auth-helpers.ts:29-32 | deleting a cookie keeps the jar well-formed |
| AuthHelpers.DeleteAbsent | lib/auth-helpers.ts:29-32 | deleting a cookie that is not set changes nothing |
| AuthHelpers.SplitJoinPairs | lib/auth-helpers.ts:19 | splitting the `a=1; b=2` cookie string on `;` gives back the entries, each one after the first with its leading space |
| AuthHelpers.FindRawSpaced | lib/auth-helpers.ts:20-23 | stripping leading spaces makes the search find the same entry as on the unspaced entries |
| AuthHelpers.NameBeforeEquals | lib/auth-helpers.ts:18-23 | an entry `n=…` starts with `m=` only when `m` is `n`: a name cannot be mistaken for another |
| AuthHelpers.EntryPrefix | lib/auth-helpers.ts:18-23 | an entry starts with `name=` exactly when it is the entry of that cookie |
| AuthHelpers.FindRawEntries | lib/auth-helpers.ts:19-25 | the search over the jar's entries finds the stored text of `name`, and nothing when it is not set |
| AuthHelpers.EntriesNoSemicolon | lib/auth-helpers.ts:12 | no entry of a well-formed jar contains `;` |
| AuthHelpers.EntriesLength | lib/auth-helpers.ts:19 | there is one entry per cookie |
| AuthHelpers.ReadCookieRoundTrip | lib/auth-helpers.ts:16-26 | `getCookie(name)` on the cookie string of a jar gives the jar's decoded value of `name`, and null when it is not set |
| AuthHelpers.AuthFromCookies | lib/auth-helpers.ts:34-54 | a session exists exactly when the access cookie is non-empty and neither cookie fails to decode (the caught URIError); all three access-token fields are that cookie's value; `data.refreshToken` is the refresh cookie's raw value (null when absent), while the top-level `refreshToken` reads a missing or empty refresh cookie as undefined |
| AuthHelpers.AuthCookieNamesValid | lib/auth-helpers.ts:3-4 | the two cookie names are valid cookie names |
| AuthHelpers.GetAuthDefinedIff | lib/auth-helpers.ts:34-54 | with a decodable refresh cookie, `getAuth()` is undefined exactly when the access cookie is missing, empty or undecodable; otherwise it carries that cookie's decoded value |
| AuthHelpers.StoreAuthValid | lib/auth-helpers.ts:56-72 | `setAuth` keeps the jar well-formed |
| AuthHelpers.SetAuthThenGetAuth | lib/auth-helpers.ts:56-72 | after `setAuth(a)` with a truthy access token, `getAuth()` gives the chosen access token and the chosen refresh token, even over an undecodable old refresh cookie; without a refresh token the old refresh cookie is left as it was |
| AuthHelpers.SetAuthLifetime | lib/auth-helpers.ts:62-68 | `setAuth` writes only the two auth cookies, always for 7 days |
| AuthHelpers.ClearAuthValid | lib/auth-helpers.ts:74-81 | `removeAuth` keeps the jar well-formed |
| AuthHelpers.RemoveAuthSignsOut | lib/auth-helpers.ts:74-81 | after `removeAuth` there is no session; doing it twice is doing it once; every other cookie is untouched |
| AuthHelpers.Document.SetCookie | lib/auth-helpers.ts:7-13 | the jar gains, or has replaced, the encoded cookie with its lifetime |
| AuthHelpers.Document.DeleteCookie | lib/auth-helpers.ts:29-32 | the named cookie is gone and the rest stay |
| AuthHelpers.Document.GetCookie | lib/auth-helpers.ts:16-26 | the loop over the `;`-separated pieces, with its inner space-stripping loop, returns what the cookie-string parse defines |
| AuthHelpers.Document.GetAuth | lib/auth-helpers.ts:34-54 | reads the session the two cookies define |
| AuthHelpers.Document.SetAuth | lib/auth-helpers.ts:56-72 | the jar becomes the one `setAuth` defines |
| AuthHelpers.Document.RemoveAuth | lib/auth-helpers.ts:74-81 | both auth cookies are deleted |
| ApiRequest.BuildHeaders | lib/api-request.ts:14-38 | the caller's headers are kept; `Authorization: Bearer <token>` is set when a token exists; `Content-Type: application/json` is set for JSON and left to the caller for multipart |
| ApiRequest.RetryHeaders | lib/api-request.ts:61-65 | the retry carries the new bearer token; the JSON content type is set again; other headers are kept |
| ApiRequest.SentHeaders | lib/api-request.ts:27-47 | corrected: the headers sent keep the bearer token and every caller header |
| ApiRequest.ConfigHeadersDropAuthorization | lib/api-request.ts:41-47 | as written, a caller `config.headers` replaces the built headers, so the bearer token is not sent (see Findings) |
| ApiRequest.RefreshOutcomes | lib/api-request.ts:85-107 | without a refresh token it throws 'No refresh token available', with no call and no cookie change; otherwise it posts that token, stores the new auth on success, and on failure clears the session and throws 'Failed to refresh token' |
| ApiRequest.RefreshPostsCookieValue | lib/api-request.ts:86-97 | the refresh token posted is the value of the refresh cookie |
| ApiRequest.ExchangeShape | lib/api-request.ts:7-83 | with the corrected headers (the same as written whenever `config.headers` is absent, as at every call in this repository): the first call carries the bearer token when there is one; there are at most three calls and at most one refresh; a refresh happens only after a 401 and is followed by at most one retry |
| ApiRequest.ExchangeKeepsValid | lib/api-request.ts:7-83 | whatever the server answers, the cookies `apiRequest` leaves behind are well-formed: a refresh stores a whole session and a failed retry clears it |
| ApiRequest.MultipartHasNoContentType | lib/api-request.ts:35-38 | a multipart request without caller headers carries no Content-Type, on either attempt |
| ApiRequest.JsonHasContentType | lib/api-request.ts:35-65 | with the corrected headers (the same as written whenever `config.headers` is absent): a JSON request carries `application/json` on every attempt |
| ApiRequest.Non401Rethrown | lib/api-request.ts:50-81 | a failure other than a 401 is rethrown unchanged, with no refresh and no cookie change |
| ApiRequest.RetryAfterRefresh | lib/api-request.ts:55-73 | on a 401, a refresh answer of any status that yields a new access token leads to one retry with that token, and the retry's answer is what the caller gets |
| ApiRequest.BlockFailureSignsOut | lib/api-request.ts:55-79 | a failed refresh, or a failed retry, signs the user out and is what the caller gets |
| ApiRequest.NoNewTokenRethrowsOriginal | lib/api-request.ts:58-81 | a refresh answer of any status without a new access token ends in the original 401 |
| ApiRequest.RefreshAccessToken | lib/api-request.ts:85-107 | the cookie updates and the posted token are those the refresh specification defines |
| ApiRequest.HandleUnauthorized | lib/api-request.ts:55-81 | with the corrected headers (the same as written whenever `config.headers` is absent): the 401 branch's calls, cookie updates and answer are those the exchange specification defines |
| ApiRequest.ApiRequest | lib/api-request.ts:7-83 | with the corrected headers (the same as written whenever `config.headers` is absent): the whole request's calls, cookie updates and answer are those the exchange specification defines |
| AuthStore.MapUser | stores/auth-store.ts:30-38 | id, email and role are copied; the avatar is the image or null; the name is no longer than both name parts and a space; the provider's `mapUser` (providers/auth-provider.tsx:29-37) is the same mapping |
| AuthStore.MapUserName | stores/auth-store.ts:34 | for any parts, missing ones read as empty: the name is the first part without leading whitespace, a space, and the last part without trailing whitespace; when one part is blank it is the other part trimmed, and when both are blank it is empty |
| AuthStore.GetUserOutcomes | lib/auth-api.ts:33-40 | `getUser()` goes through `apiRequest`: a first response that arrives is what it resolves with (the envelope's `data`, possibly missing) and leaves the cookies as they were, as does a failure other than a 401; what arrives after a 401 is the retry's, and the cookies then hold the refreshed auth; the jar stays well-formed |
| AuthStore.RetriedUser | lib/auth-api.ts:33-40 | a response that resolves `getUser()` after a failed first call came from the retry, which needs a refresh reply, and the cookies are the refreshed session |
| AuthStore.FirstReplyKeepsJar | lib/auth-api.ts:33-40 | when the first call answers, `getUser()` resolves with that response's `data` and leaves the cookies untouched |
| AuthStore.GetUserFrom | lib/auth-api.ts:33-40 | the method on the page's cookies answers what the `getUser()` run answers and leaves the cookies that run leaves, which stay well-formed |
| AuthStore.AuthStore.constructor | stores/auth-store.ts:43-46 | no user, loading, not authenticated, not remembered |
| AuthStore.AuthStore.Login | stores/auth-store.ts:48-68 | success exactly when the login call succeeds and the `getUser()` run resolves with `data` (without it `mapUser` throws and the call returns false); it then holds the mapped user, authenticated, with `rememberMe` as passed; a failure ends loading, clears `isAuthenticated` and `rememberMe` and keeps the old user; once the login call succeeds the cookies are `setAuth`'s, as the `getUser()` run then leaves them (unchanged when its first response arrives), whatever `rememberMe` is |
| AuthStore.AuthStore.LoadUser | stores/auth-store.ts:54-67 | the step after the tokens are stored: success exactly when `getUser()` resolves with `data`, and then the mapped user is held, authenticated, not loading, with `rememberMe` as passed; a rejected run or a missing `data` (the `mapUser` TypeError) ends loading and clears `isAuthenticated` and `rememberMe`; the cookies are those the run leaves, unchanged when the first call answers |
| AuthStore.AuthStore.SetRememberMe | stores/auth-store.ts:70-72 | only `rememberMe` changes |
| AuthStore.AuthStore.Logout | stores/auth-store.ts:74-86 | the cookies go and the state is signed out |
| AuthStore.AuthStore.SetUser | stores/auth-store.ts:88-93 | `isAuthenticated` follows whether a user is given |
| AuthStore.AuthStore.SetLoading | stores/auth-store.ts:95-97 | only `isLoading` changes |
| AuthStore.AuthStore.FetchUser | stores/auth-store.ts:99-117 | when the `getUser()` run resolves with `data`, the mapped user is held and the run's cookies kept; when it rejects or its envelope has no `data` (the `mapUser` TypeError), the cookies it left are cleared and the user goes, so no session remains; either way loading ends and `isAuthenticated` matches the user |
| AuthStore.AuthStore.Settle | stores/auth-store.ts:101-116 | an answer that resolved with `data` sets the mapped user, authenticated and not loading, leaving the cookies; a rejected answer or one without `data` (the `catch` for the `mapUser` TypeError) removes the session cookies and signs out; either way loading ends and `user` agrees with `isAuthenticated` |
| AuthStore.AuthStore.InitAuth | stores/auth-store.ts:119-126 | the user is fetched, as `fetchUser` does (a rejected run or one without `data` clears the cookies and the user), exactly when `getAuth` finds a session; otherwise loading ends, the state is marked not authenticated and the cookies stay |
| AuthProvider.StatusOf | providers/auth-provider.tsx:88 | 'loading' exactly while loading; otherwise 'authenticated' exactly when a user is held |
| AuthProvider.DataOf | providers/auth-provider.tsx:87 | `{ user }` exactly when a user is held |
| AuthProvider.SignIn | providers/auth-provider.tsx:119-129 | no error exactly for the 'credentials' provider; otherwise 'Provider not supported' |
| AuthProvider.Provider.constructor | providers/auth-provider.tsx:40-41 | no user, loading |
| AuthProvider.Provider.InitAuth | providers/auth-provider.tsx:44-58 | the user is fetched through a `getUser()` run exactly when a session is stored; a run that resolves with `data` gives the mapped user with the cookies it left; a rejected run or a missing `data` (the `mapUser` TypeError) clears the cookies and the user; loading always ends |
| AuthProvider.Provider.Login | providers/auth-provider.tsx:62-78 | true exactly when the login call succeeds and the `getUser()` run resolves with `data` that `mapUser` accepts; then the status is 'authenticated'; a failure keeps the previous user; the cookies are `setAuth`'s as the `getUser()` run leaves them; loading ends either way |
| AuthProvider.Provider.Logout | providers/auth-provider.tsx:80-84 | the cookies and the user go, and `data` becomes null |
| TableStore.TableStore.constructor | stores/table-store.ts:52-61 | page 0 of size 10, no sort, an empty search query, no column settings, no selection |
| TableStore.TableStore.SetPagination | stores/table-store.ts:79-81 | only the pagination changes |
| TableStore.TableStore.SetPageIndex | stores/table-store.ts:83-87 | only the page index changes |
| TableStore.TableStore.SetPageSize | stores/table-store.ts:89-93 | a new page size starts again at page 0 |
| TableStore.TableStore.ResetPagination | stores/table-store.ts:95-97 | the pagination goes back to its initial value |
| TableStore.TableStore.SetSorting | stores/table-store.ts:100-102 | only the sort list changes |
| TableStore.SetDesc | stores/table-store.ts:109-111 | the same columns in the same order, with the new direction on the matching ones |
| TableStore.UpsertSort | stores/table-store.ts:104-116 | a column already sorted keeps its place and gets the new direction, and the others are unchanged; a new column is appended last; either way the column ends up sorted in the requested direction |
| TableStore.TableStore.AddSort | stores/table-store.ts:104-116 | the sort list becomes the upsert, with the direction defaulting to ascending |
| TableStore.WithoutSort | stores/table-store.ts:118-122 | no entry for the column is left |
| TableStore.RemoveAbsentSort | stores/table-store.ts:118-122 | removing a column that is not sorted changes nothing |
| TableStore.SetDescThenRemove | stores/table-store.ts:104-122 | changing a column's direction and then removing it is the same as removing it |
| TableStore.RemoveAfterAddSort | stores/table-store.ts:104-122 | adding a sort and then removing it leaves the other columns as removal alone would |
| TableStore.RemoveSortPiecewise | stores/table-store.ts:118-122 | removal keeps the other columns in their relative order |
| TableStore.TableStore.RemoveSort | stores/table-store.ts:118-122 | only the sort list changes |
| TableStore.TableStore.ResetSorting | stores/table-store.ts:124-126 | the sort list is emptied |
| TableStore.TableStore.SetFilters | stores/table-store.ts:129-131 | the given keys overwrite and the other filters stay |
| TableStore.TableStore.SetSearchQuery | stores/table-store.ts:133-138 | the query changes and the table goes back to page 0 with the same page size |
| TableStore.TableStore.SetFilter | stores/table-store.ts:140-144 | only that key is written |
| TableStore.TableStore.RemoveFilter | stores/table-store.ts:146-152 | only that key goes |
| TableStore.TableStore.ResetFilters | stores/table-store.ts:154-156 | the filters go back to an empty search query |
| TableStore.TableStore.SetColumnOrder | stores/table-store.ts:159-161 | only the column order changes |
| TableStore.TableStore.SetColumnVisibility | stores/table-store.ts:163-165 | only the visibility map changes |
| TableStore.Toggle | stores/table-store.ts:167-188 | the key flips, a missing key counting as false; every other key is unchanged |
| TableStore.ToggleTwice | stores/table-store.ts:167-188 | toggling twice restores a key that was present, and every other key |
| TableStore.TableStore.ToggleColumnVisibility | stores/table-store.ts:167-174 | only that column's visibility flips |
| TableStore.TableStore.SetRowSelection | stores/table-store.ts:177-179 | only the selection changes |
| TableStore.TableStore.ToggleRowSelection | stores/table-store.ts:181-188 | only that row's selection flips |
| TableStore.AllSelected | stores/table-store.ts:190-196 | exactly the given rows are selected |
| TableStore.TableStore.SelectAll | stores/table-store.ts:190-196 | the selection becomes exactly the given rows |
| TableStore.TableStore.ClearSelection | stores/table-store.ts:198-200 | nothing is selected |
| TableStore.TableStore.Reset | stores/table-store.ts:203-212 | every field is back to its initial value |
| DataStore.NormalizeCountry | stores/data-store.ts:112-115 | the country is kept with a missing flag shown as '' |
| DataStore.NormalizeCountries | stores/data-store.ts:112-115 | one normalised country per fetched country, in order |
| DataStore.ClientName | stores/data-store.ts:156 | the trimmed full name, else the company name, else 'Client'; never empty |
| DataStore.ClientNameFallback | stores/data-store.ts:156 | a client without name parts is shown by its company name, or 'Client' |
| DataStore.NormalizeClient | stores/data-store.ts:154-157 | the id is `_id`, falling back to `id`; the name is the client name |
| DataStore.NormalizeClients | stores/data-store.ts:154-157 | one option per client, in order |
| DataStore.NormalizeRole | stores/data-store.ts:88-91 | the role is kept, with a missing status defaulting to active |
| DataStore.NormalizeRoles | stores/data-store.ts:88-91 | one role per fetched role, in order |
| DataStore.NormalizeBusinessUnit | stores/data-store.ts:194-197 | the id is `_id`, falling back to `id`, with the unit's name |
| DataStore.NormalizeBusinessUnits | stores/data-store.ts:194-197 | one option per unit, in order |
| DataStore.ErrorText | stores/data-store.ts:97-101 | the error's message when it is non-empty, and exactly the fallback when it is empty |
| DataStore.CountriesMatching | stores/data-store.ts:136-145 | exactly the countries whose lower-cased name contains the lower-cased search, or whose ISD code contains the search |
| DataStore.FilterCountriesEmpty | stores/data-store.ts:136-145 | an empty search keeps every country |
| DataStore.FilterCountriesPiecewise | stores/data-store.ts:136-145 | the filter keeps the countries' order |
| DataStore.CachedUnits | stores/data-store.ts:222-224 | the cached units of the client, or none when it is not cached |
| DataStore.FetchedUnits | stores/data-store.ts:193-212 | one option per raw unit, in order, each its normalised form; an empty list when the answer has no data |
| DataStore.CachedAfterStore | stores/data-store.ts:198-212 | after caching a client's units, that client reads them and every other client reads as before |
| DataStore.CachedAfterClear | stores/data-store.ts:226-232 | after clearing a client, it reads no units and every other client reads as before |
| DataStore.FetchBySuccess | stores/data-store.ts:81-130 | a list is loaded exactly when the call succeeds with `success` and data; a transport error gives its message or the default; `success: false` gives the default; missing data gives the TypeError of `.map` on undefined; the loaded items are the caller's normaliser applied to the data |
| DataStore.FetchClientsResult | stores/data-store.ts:148-168 | clients are loaded whenever the answer has data, whatever its `success`; otherwise the error is recorded |
| DataStore.DataStore.constructor | stores/data-store.ts:58-80 | empty lists, no errors, nothing loading |
| DataStore.DataStore.FetchRoles | stores/data-store.ts:81-103 | the roles are loaded or the error is recorded, and loading ends |
| DataStore.DataStore.FetchCountries | stores/data-store.ts:107-130 | both the list and the filtered list become the fetched countries, or the error is recorded |
| DataStore.DataStore.SetFilteredCountries | stores/data-store.ts:132-134 | only the filtered list changes |
| DataStore.DataStore.FilterCountries | stores/data-store.ts:136-145 | the filtered list becomes the matching countries |
| DataStore.DataStore.FetchClients | stores/data-store.ts:148-168 | the clients are loaded or the error is recorded |
| DataStore.DataStore.ClearClients | stores/data-store.ts:170-172 | the list and its error are cleared |
| DataStore.DataStore.FetchBusinessUnits | stores/data-store.ts:175-220 | an empty client id clears the whole cache with no call; otherwise that client's entry is stored, or the error recorded |
| DataStore.DataStore.GetBusinessUnits | stores/data-store.ts:222-224 | returns the cached units of that client, or an empty list |
| DataStore.DataStore.ClearBusinessUnits | stores/data-store.ts:226-236 | with an id, only that entry goes; without one, the whole cache goes |
| DataStore.DataStore.FetchCurrentAdmin | stores/data-store.ts:239-253 | the admin is the response body, or the error is recorded |
| DataStore.DataStore.ClearCurrentAdmin | stores/data-store.ts:255-257 | the admin and its error are cleared |
| UserStore.Merge | stores/user-store.ts:182 | the merged record has the keys of both; the update's values win and the other keys keep theirs |
| UserStore.MergeMatching | stores/user-store.ts:179-184 | the users whose `_id`, or else `id`, matches are merged with the update; the others stay in place |
| UserStore.MergeMatchingIdempotent | stores/user-store.ts:179-184 | applying the same update twice is applying it once |
| UserStore.UpdateEditsInPlace | stores/user-store.ts:179-184 | the list keeps its length and order; only matching users change, and they carry the update's values |
| UserStore.SelectedAfterUpdate | stores/user-store.ts:185-188 | a matching selected user is merged; any other selection is kept |
| UserStore.WithoutUser | stores/user-store.ts:221-224 | no matching user is left and every other user is kept |
| UserStore.WithoutUserOrder | stores/user-store.ts:221-224 | removal keeps the order of the rest, and removing twice is removing once |
| UserStore.SelectedAfterDelete | stores/user-store.ts:225-228 | the selection is cleared exactly when it is the deleted user |
| UserStore.DeleteBody | stores/user-store.ts:208-211 | the request names the user, with the reason, or 'User no longer active' when there is none |
| UserStore.GetAppend | stores/user-store.ts:60-65 | looking up a key in appended parameters finds the first part's value first |
| UserStore.GetFive | stores/user-store.ts:60-65 | a lookup in the five appended parameter groups finds the first group that holds the key |
| UserStore.QueryPairs | stores/user-store.ts:60-65 | at most five parameters, none with an empty value |
| UserStore.QueryPairsSelect | stores/user-store.ts:60-65 | each of page, limit, search, sort and order is sent exactly when it is truthy, with its value |
| UserStore.ListingOf | stores/user-store.ts:72-90 | a 204 empties the listing; otherwise the data or an empty list, with the totals, page and page count defaulting to 0, 1 and 0 |
| UserStore.AfterFetch | stores/user-store.ts:57-97 | loading ends and the selection is kept; a failure records its message or the default; a success clears the error and installs the users, total, page and page count `ListingOf` reads from the answer |
| UserStore.UserStore.constructor | stores/user-store.ts:48-54 | an empty first page, nothing selected, no error |
| UserStore.UserStore.FetchUsers | stores/user-store.ts:57-97 | the query sent is the truthy parameters and the state is the fetch result |
| UserStore.UserStore.ClearUsers | stores/user-store.ts:99-107 | the listing and its error are cleared |
| UserStore.UserStore.SetSelectedUser | stores/user-store.ts:110-112 | only the selection changes |
| UserStore.UserStore.FetchUserById | stores/user-store.ts:114-135 | a successful answer becomes the selection; otherwise the error is recorded |
| UserStore.UserStore.ClearSelectedUser | stores/user-store.ts:137-139 | the selection is cleared |
| UserStore.UserStore.AddUser | stores/user-store.ts:142-165 | success refetches the list and returns the server's message; failure records and returns the error message |
| UserStore.UserStore.UpdateUser | stores/user-store.ts:167-203 | success merges the update into the list and the selection, then refetches; failure records and returns the error message |
| UserStore.UserStore.DeleteUser | stores/user-store.ts:205-243 | the request body has the id and remark; success removes the user from the list and the selection, then refetches; failure records and returns the error message |
| UserStore.UserStore.SetUsersLoading | stores/user-store.ts:246-248 | only the loading flag changes |
| UserStore.UserStore.SetUsersError | stores/user-store.ts:250-252 | only the error changes |
| SettingsStore.GetKeysOfUndefined | stores/settings-store.ts:26 | once a path has left the tree it reads undefined |
| SettingsStore.GetKeysPrefix | stores/settings-store.ts:26 | reading a path prefix is one step followed by the rest of the prefix |
| SettingsStore.SetInEmpty | stores/settings-store.ts:29-35 | a path under a missing key can always be created |
| SettingsStore.SetInSucceedsIff | stores/settings-store.ts:29-35 | `setToPath` succeeds exactly when no proper prefix of the path leads to a boolean, number or string |
| SettingsStore.GetAfterSet | stores/settings-store.ts:25-35 | after a successful `setToPath`, `getFromPath` on the same path gives the value written |
| SettingsStore.SetCreatesIntermediates | stores/settings-store.ts:32 | after a successful write, every level on the way is an object: missing or null levels were created |
| SettingsStore.SetFrame | stores/settings-store.ts:29-35 | every path that parts from the written one reads as before |
| SettingsStore.Flip | stores/settings-store.ts:100 | toggling always changes the mode |
| SettingsStore.FlipTwice | stores/settings-store.ts:98-102 | flipping twice gives the original mode |
| SettingsStore.Settings.constructor | stores/settings-store.ts:40-42 | the configured defaults, the 'system' theme and light mode |
| SettingsStore.Settings.GetOption | stores/settings-store.ts:44-46 | the value at the path of the current settings |
| SettingsStore.Settings.SetOption | stores/settings-store.ts:48-52 | a write that succeeds installs the new tree, and the path then reads the value; a write that throws leaves the settings unchanged |
| SettingsStore.Settings.StoreOption | stores/settings-store.ts:54-69 | in a browser, the same effect on the settings as `setOption`; outside one, nothing |
| SettingsStore.Settings.ResetSettings | stores/settings-store.ts:71-79 | the settings go back to the configured defaults |
| SettingsStore.Settings.SetTheme | stores/settings-store.ts:81-92 | the theme is set; 'light' or 'dark' also sets the mode; 'system' takes the mode from the colour-scheme preference, when there is a browser |
| SettingsStore.Settings.SetThemeMode | stores/settings-store.ts:94-96 | only the mode changes |
| SettingsStore.Settings.ToggleTheme | stores/settings-store.ts:98-102 | the mode flips and the theme becomes that mode |
| FormStore.Read | stores/form-store.ts:4-32 | each field reads as a value of that field's type |
| FormStore.Write | stores/form-store.ts:79-81 | the written field reads the new value and every other field reads as before |
| FormStore.ReadDetermines | stores/form-store.ts:4-32 | two form states whose fields all read alike are equal |
| FormStore.WriteSameValue | stores/form-store.ts:79-81 | writing a field's own value back changes nothing |
| FormStore.WriteTwice | stores/form-store.ts:79-81 | of two writes to one field, the second wins |
| FormStore.MergeOriginals | stores/form-store.ts:87-91 | the given keys are replaced and the others kept |
| FormStore.MergeOriginalsIdempotent | stores/form-store.ts:87-91 | merging the same values twice is merging them once; merging nothing keeps everything |
| FormStore.FirstFile | stores/form-store.ts:94 | the first file, or none exactly when the list is empty |
| FormStore.UserForm.constructor | stores/form-store.ts:50-77 | the initial form: empty strings, status 'active', no image, flags off |
| FormStore.UserForm.SetField | stores/form-store.ts:79-81 | only that field changes |
| FormStore.UserForm.Reset | stores/form-store.ts:83-85 | every field goes back to its initial value, with status 'active' and empty strings |
| FormStore.UserForm.SetOriginalValues | stores/form-store.ts:87-91 | only the original values change, by the merge |
| FormStore.UserForm.SetImageFiles | stores/form-store.ts:93-95 | the file list is set, and the image becomes its first file or none |
| FormStore.UserForm.SetCountrySearch | stores/form-store.ts:97-99 | only the search changes |
| FormStore.UserForm.SetSelectIsdOpen | stores/form-store.ts:101-106 | opening changes only the flag; closing also clears the country search |
| FormStore.UserForm.SetDataLoading | stores/form-store.ts:108-110 | only that flag changes |
| FormStore.UserForm.SetSubmitting | stores/form-store.ts:112-114 | only that flag changes |
| UiStore.WithDialog | stores/ui-store.ts:91-109 | the chosen dialog's flag is set and every other dialog's flag is unchanged |
| UiStore.WithDialogSame | stores/ui-store.ts:91-109 | setting a dialog to its current state changes nothing |
| UiStore.WithoutToast | stores/ui-store.ts:124-128 | no toast with that id is left and every other toast is kept |
| UiStore.WithoutToastPiecewise | stores/ui-store.ts:124-128 | removal keeps the other toasts in order |
| UiStore.RemoveAfterAddToast | stores/ui-store.ts:112-128 | adding a toast with a fresh id and removing that id gives back the queue |
| UiStore.LoadingMessage | stores/ui-store.ts:136 | an absent or empty message is stored as null, and any other message as it is |
| UiStore.UiStore.constructor | stores/ui-store.ts:55-67 | sidebar open, everything else closed, no toasts, not loading |
| UiStore.UiStore.ToggleSidebar | stores/ui-store.ts:70-72 | only the sidebar flag flips |
| UiStore.UiStore.SetSidebarOpen | stores/ui-store.ts:74-76 | only the sidebar flag changes |
| UiStore.UiStore.SetSidebarCollapsed | stores/ui-store.ts:78-80 | only the collapsed flag changes |
| UiStore.UiStore.ToggleMobileMenu | stores/ui-store.ts:82-84 | only the mobile-menu flag flips |
| UiStore.UiStore.SetMobileMenuOpen | stores/ui-store.ts:86-88 | only the mobile-menu flag changes |
| UiStore.ToggleTwiceRestores | stores/ui-store.ts:70-84 | two sidebar toggles and two mobile-menu toggles leave the store as it was |
| UiStore.UiStore.SetDialogOpen | stores/ui-store.ts:91-109 | only the chosen dialog's flag changes |
| UiStore.UiStore.AddToast | stores/ui-store.ts:112-116 | one toast is appended at the end with the given id, message and type, defaulting to 'info'; existing toasts are unchanged |
| UiStore.UiStore.RemoveToast | stores/ui-store.ts:124-128 | the toasts with that id go and the rest keep their order |
| UiStore.UiStore.ClearToasts | stores/ui-store.ts:130-132 | the queue is emptied |
| UiStore.UiStore.SetGlobalLoading | stores/ui-store.ts:135-137 | the flag is set, and the message is stored, or null when absent or empty |
| Helpers.Words | lib/helpers.ts:63-65 | the non-empty, space-free words of the name |
| Helpers.FirstLetters | lib/helpers.ts:66 | one upper-cased first letter per word, in order |
| Helpers.GetInitials | lib/helpers.ts:54-70 | null, undefined or '' give ''; otherwise one upper-cased first letter per word, in order, cut to `count` letters when `count` is positive |
| Helpers.InitialsOfWords | lib/helpers.ts:63-69 | for single-space-separated words, the initials are exactly their first letters |
| Helpers.LeadingSpaceIgnored | lib/helpers.ts:63-65 | a leading space adds no initial |
| Helpers.WordsAtSpace | lib/helpers.ts:63-65 | the words of a name split at a space are the words before it followed by the words after it |
| Helpers.SpaceRunIgnored | lib/helpers.ts:63-65 | a second space inside a name adds no word and no initial, whatever the count |
| Helpers.CountGivesPrefix | lib/helpers.ts:67-69 | a positive count gives a prefix of the full initials, at most `count` long |
| Helpers.TimeAgo | lib/helpers.ts:82-100 | 'just now' exactly below 60 seconds, including negative differences; otherwise the unit is the band `diff` falls in, and the number is `floor(diff / unit)`, at least 1 |
| Helpers.BandsDisjoint | lib/helpers.ts:87-99 | no difference falls in two bands |
| Helpers.BandsCover | lib/helpers.ts:87-99 | every difference of a minute or more falls in a band; a year or more is counted in years |
| Helpers.Render | lib/helpers.ts:88-99 | the text starts with the number and the unit, or is 'just now' |
| Helpers.TimeAgoText | lib/helpers.ts:82-100 | under a minute reads 'just now' |
| Helpers.PluralIff | lib/helpers.ts:88-99 | the text ends in 's ago' exactly when the number is above 1 |
| Helpers.FutureIsJustNow | lib/helpers.ts:85-87 | a date in the future reads 'just now' |
| Helpers.ToAbsoluteUrl | lib/helpers.ts:72-80 | the base path is prepended when set and not '/'; otherwise the path is returned unchanged |
| Helpers.UnchangedIff | lib/helpers.ts:72-80 | the path comes back unchanged exactly when the base path is unset, empty or '/' |

## Left out

- Transport and browser I/O are not modelled:
  - HTTP (axios) is out: the stores take the answer of each call as an `Outcome` input, and lib/api.ts is not part of this model;
  - `localStorage` is out, so `storeOption`'s copy, `resetSettings`' clean-up and `logout`'s removal of 'rememberMe' are missing;
  - `window.location` redirects are out;
  - the zustand `persist` and `devtools` middleware are out;
  - `console` logging is out.
- `typeof window === 'undefined'` checks: only `storeOption` and `setTheme('system')` take the browser's presence as an input. The cookie helpers assume a browser.
- Cookie attributes are not modelled: the jar keeps each cookie's value and lifetime in days, but not the expiry date, path or SameSite. Deleting with a past expiry is deletion. Cookies written by other code must have names without `=`, `;` or spaces, and values made by `encodeURIComponent`.
- UriCodec.Encode: a stand-in for `encodeURIComponent`. It keeps the same unreserved characters. It escapes every other character as `%` and six hex digits of its code point, not as the `%XX` of each UTF-8 byte. The cookie layer relies only on three facts, and the stand-in has all three: the round trip, no `;` or space in the output, and a decode that can fail. UTF-16 surrogates are not modelled.
- UriCodec.Decode: `decodeURIComponent` as the inverse of the stand-in. Any malformed escape is a URIError, so it does not decode `%XX` UTF-8 sequences written by other code.
- Case mapping in `toLowerCase`/`toUpperCase` (country search, initials) is ASCII only.
- Timers and randomness are out: the toast id is an input, and the 5-second auto-removal of a toast is not modelled. In `timeAgo`, the `new Date()` difference and its rounding are not modelled, so the model starts from the elapsed seconds.
- `APP_SETTINGS` is a constructor argument, because config/settings.config is not part of this model.
- SettingsStore.SetIn: `setToPath` changes the nested objects of the settings tree in place. These objects are shared with the previous state, so the old snapshot changes too and nested object identities stay the same. The model works on values and does not capture that sharing. Property names that come from a string's or object's prototype (such as `length`) are not modelled.
- JSON values (`Json.Value`) have no arrays and only integer numbers. `setToPath` writing through an array index is not modelled. Neither are NaN or fractional numbers in the `||` defaults of the user listing's pagination.
- The data and user stores' calls also go through `apiRequest`. Their `Outcome` inputs give only the final answer, not the cookie rewrites of a 401 refresh and retry. Only the user lookup of the auth store and provider is composed with the modelled `apiRequest` run.
- Only the fields the stores read are modelled on the records. Extra fields that pass through unread are dropped: those spread into roles and countries, and the rest of a user record. `currentAdmin` and user records are kept as whole JSON values.
- The already-loading guards, cache lookups and fallbacks that appear only in comments in the source are not modelled.
- AuthStore.UserCall: a response's body is the envelope's `data` as `Option<UserModel>`. A missing or null `data` is `None`, which makes `mapUser` throw. A `data` object with missing fields is not modelled: `mapUser` would copy `undefined` without throwing, but `dbId` and `email` are always strings here.
- AuthStore.AuthStore.Login: no store invariant ties `user` to `isAuthenticated`. A failed login sets `isAuthenticated` to false but keeps an earlier `user`, as stores/auth-store.ts:63-66 does. `Consistent` is stated only after the actions that restore it.
- AuthStore.AuthStore.Login: `rememberMe` is also passed to the login call and to `setAuth`. The call is abstracted as an outcome, and `setAuth` ignores it, so cookie lifetime does not depend on `rememberMe`.
- The concurrent interleaving of asynchronous actions is not modelled: each action runs to completion with its outcomes given. So are the intermediate `isLoading: true` states that another reader could observe.
- React rendering of the provider and `useAuth`/`useSession` plumbing are left out; only the state and the derived `status` and `data` are modelled.

## Findings

| source | as written | input that shows it | evidently intended | confidence | as-written member | corrected member |
|---|---|---|---|---|---|---|
| lib/api-request.ts:41-47 | `axios({ method, url, data, headers, ...config })` spreads `config` last, so a caller's `config.headers` replaces the built `headers`. The same happens in the retry at lines 66-72. | `config = { headers: { 'X-Trace': '1' } }` with a stored access token `t`: the request goes out without `Authorization: Bearer t`, and the retry after a refresh goes out without the new token. | the built headers, which already merge the caller's headers, are sent: the bearer token and the JSON content type survive | not executed | ApiRequest.SentHeadersAsWritten, ApiRequest.ConfigHeadersDropAuthorization | ApiRequest.SentHeaders |
