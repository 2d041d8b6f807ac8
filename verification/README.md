# Auth-aware API client and admin-panel data helpers, in Dafny

This project models two parts of the `bamf-react` front end.

**The authentication layer of `ApiClient`** (`bamf-react/src/lib/api-client.ts`), in module `Api`:

- **Token store.** The class `Api.ApiClient` keeps the `localStorage` entries `accessToken` and `refreshToken` as a `map<string, string>`. The constant `inBrowser` stands for `typeof window !== 'undefined'`. Outside a browser, no token is read or written.
- **Request interceptor.** `InterceptRequest` attaches `Authorization: Bearer <token>` when a non-empty access token is stored.
- **401 response interceptor.** It is asynchronous in the source and is modelled here as three events:
  - `OnResponseError` is the synchronous part that runs when a request fails. It rejects the error unchanged, queues the request behind the refresh already in flight, or marks the request `_retry`, raises `tokenRefreshInProgress` and starts the refresh.
  - `RefreshSucceeded` and `RefreshFailed` are the two ways the awaited `refreshToken()` call can settle.
  - The interceptor call that awaits the refresh is the field `awaitingRefresh`.
  - `Valid()` ties that field to the flag and the queue. The ghost counters of started and settled refreshes show that at most one refresh is in flight at any time.
- **Error normaliser.** `HandleError` builds `{error, status}`. `Complete` is the shared shape of `get`/`post`/`put`/`patch`/`delete`.
- **Query-string builder.** `BuildQueryString` keeps the parameters whose value is neither `undefined` nor `null`.

**The pure data helpers of the CRUD screen** (`bamf-react/src/components/AdminPanel/CRUD_Handler.tsx`), in module `CrudHandler`:

- the section-to-endpoint mapping;
- the empty fallback of the dummy data;
- deletion by id;
- the case-insensitive search filter;
- the column list.

Modules `Text` (`includes`, ASCII `toLowerCase`, `String` of an integer) and `Seqs` (`filter`) hold the JavaScript library behaviour both parts rely on.

The code is modelled as written, including these behaviours a caller might not expect:

- On refresh failure, the queued subscribers are discarded without being called (`RefreshFailed` returns them as `dropped`). Their callers' promises never settle; they are not rejected.
- A queued request is replayed with the new bearer header but without the `_retry` mark. If the replay meets a 401 again while no refresh is in flight, it starts a new refresh (`ResumedWaiterCanStartAnotherRefresh`). Only the request that started the refresh is protected against a second refresh (`RetriedOriginalIsNotRefreshedAgain`).
- A successful refresh stores only the new access token. A rotated refresh token is not stored.
- The refresh token is read when the refresh starts, before the refresh call is awaited. A logout while the refresh is in flight does not stop it. When the refresh then succeeds, the client holds the new access token and no refresh token (`LogoutDuringRefresh`).
- The auth-endpoint test matches only the login and register paths. A 401 from `/api/auth/logout` therefore goes through the refresh path (`RefreshAndLogoutAreNotAuthEndpoints`).

## Model

| member | source | states |
|---|---|---|
| `Api.AuthEndpointIff` | bamf-react/src/lib/api-client.ts:54-55 | a URL counts as an auth endpoint exactly when it is defined and `/api/auth/login` or `/api/auth/register` occurs somewhere in it |
| `Api.LoginAndRegisterAreAuthEndpoints` | bamf-react/src/lib/api-client.ts:53-55 | absolute login URLs and register URLs with a query string are auth endpoints; an undefined URL is not |
| `Api.RefreshAndLogoutAreNotAuthEndpoints` | bamf-react/src/lib/api-client.ts:54-55 | `/api/auth/refresh` and `/api/auth/logout` are not auth endpoints |
| `Api.WithBearer` | bamf-react/src/lib/api-client.ts:62-65 | a request with a header bag gets `Authorization = "Bearer " + token`, and every other header is unchanged; a request without one is returned as is; URL and `_retry` are always kept |
| `Api.Route` | bamf-react/src/lib/api-client.ts:54-72 | an error is rejected unchanged iff it is not a 401, or its request was already retried, or it is an auth endpoint; an eligible 401 is queued iff a refresh is in flight; otherwise it starts a refresh with its request marked `_retry`; a second refresh never starts while one is in flight |
| `Api.RetriedOriginalIsNotRefreshedAgain` | bamf-react/src/lib/api-client.ts:58-86 | the request that started a refresh, retried with the new token, is rejected on a further 401 whatever the refresh state |
| `Api.ResumedWaiterCanStartAnotherRefresh` | bamf-react/src/lib/api-client.ts:59-68 | a queued request replayed with the new token is not marked `_retry`, so a further 401 on it while idle starts another refresh |
| `Api.NotifySubscribers` | bamf-react/src/lib/api-client.ts:78-79 | every subscriber is invoked exactly once, in queue order; each resumes its own request with URL and `_retry` kept and the new bearer header |
| `Api.HandleError` | bamf-react/src/lib/api-client.ts:232-246 | never fails; the error is never empty and prefers the server's `error` field, then the transport message, then `'An error occurred'`; the status is the response status when it is non-zero and 500 otherwise; a non-axios failure has status 500 and its own message, or `'An unexpected error occurred'` |
| `Api.Complete` | bamf-react/src/lib/api-client.ts:142-200 | a CRUD call's result carries exactly one of data and error; a delivered response keeps its data and status; a thrown failure goes through `HandleError` |
| `Api.SurvivingAppend` | bamf-react/src/lib/api-client.ts:251-255 | the kept pairs of a concatenation are the kept pairs of each part, in order, so entry order is preserved |
| `Api.SurvivingExactly` | bamf-react/src/lib/api-client.ts:251-255 | a pair is kept iff its value is neither undefined nor null; the kept pairs are never more than the parameters |
| `Api.BuildQueryString` | bamf-react/src/lib/api-client.ts:249-257 | the loop appends exactly the surviving pairs, in entry order |
| `Api.ApiClient.constructor` | bamf-react/src/lib/api-client.ts:17-32 | a new client has no refresh in flight and an empty subscriber queue, and reads the persisted storage |
| `Api.ApiClient.GetToken` | bamf-react/src/lib/api-client.ts:103-106 | the access token is null outside a browser or when no `accessToken` entry is stored, and is that entry otherwise |
| `Api.ApiClient.StoredRefreshToken` | bamf-react/src/lib/api-client.ts:122-124 | the refresh token is null outside a browser or when no `refreshToken` entry is stored |
| `Api.ApiClient.SetToken` | bamf-react/src/lib/api-client.ts:108-112 | only the `accessToken` entry is overwritten, and only in a browser |
| `Api.ApiClient.ClearToken` | bamf-react/src/lib/api-client.ts:114-119 | both token entries, and nothing else, are removed; afterwards neither token can be read |
| `Api.ApiClient.InterceptRequest` | bamf-react/src/lib/api-client.ts:36-43 | with a non-empty stored token and a header bag, `Authorization` becomes `"Bearer " + token`; otherwise the config is returned unchanged |
| `Api.ApiClient.OnResponseError` | bamf-react/src/lib/api-client.ts:50-72 | keeps `Valid()` and does what `Route` decides. A rejection changes nothing. Queueing appends the request to the end of the queue and changes nothing else. Starting a refresh is possible only when none is in flight; it raises the flag, makes the marked request the one awaiting the refresh, and records the refresh token read at that moment. The token store is never touched |
| `Api.ApiClient.RefreshSucceeded` | bamf-react/src/lib/api-client.ts:74-86 | only when a non-empty refresh token was read as the refresh started; stores the new access token and leaves the refresh-token entry as it is; the flag drops; every queued subscriber is resumed once, in order, with the new bearer header; the queue empties; the awaiting request is retried with the new token and keeps `_retry`; the refresh counts as settled |
| `Api.ApiClient.RefreshFailed` | bamf-react/src/lib/api-client.ts:87-94 | the flag drops; the queue is emptied and its subscribers are returned as dropped, never invoked; both tokens are removed; the awaiting request is the one rejected; the refresh counts as settled |
| `Api.ApiClient.Login` | bamf-react/src/lib/api-client.ts:203-217 | a login response with data stores both its access token and its refresh token (in a browser); a response without data changes nothing |
| `Api.LogoutDuringRefresh` | bamf-react/src/lib/api-client.ts:121-138 | a logout between the start of a refresh and its success leaves the new access token `A2` stored with no refresh token, and the request that hit the 401 is retried with `Bearer A2` |
| `Api.ApiClient.Logout` | bamf-react/src/lib/api-client.ts:219-225 | whatever the logout call returns, both tokens are removed and no token can be read afterwards |
| `Text.IncludesIff` | bamf-react/src/components/AdminPanel/CRUD_Handler.tsx:169 | `includes` holds exactly when the searched string occurs at some position |
| `Text.NatToString` | bamf-react/src/components/AdminPanel/CRUD_Handler.tsx:169 | the numeral of a natural number is non-empty and all decimal digits, and starts with `0` only for zero |
| `Text.IntToString` | bamf-react/src/components/AdminPanel/CRUD_Handler.tsx:169 | `String(n)` of an integer starts with `-` exactly when `n` is negative, is all decimal digits after that, and has no leading zero except for zero itself |
| `Text.NatToStringRoundTrip` | bamf-react/src/components/AdminPanel/CRUD_Handler.tsx:169 | reading the digits of a natural number's numeral back gives the number |
| `Text.IntToStringRoundTrip` | bamf-react/src/components/AdminPanel/CRUD_Handler.tsx:169 | reading the signed numeral `String(n)` back gives `n`, so distinct numbers print differently |
| `Text.LowerShape` | bamf-react/src/components/AdminPanel/CRUD_Handler.tsx:169 | lower-casing keeps the length and leaves no upper-case ASCII letter |
| `Text.LowerIdempotent` | bamf-react/src/components/AdminPanel/CRUD_Handler.tsx:169 | lower-casing a lower-cased string changes nothing |
| `Seqs.Filter` | bamf-react/src/components/AdminPanel/CRUD_Handler.tsx:147 | `filter` keeps exactly the elements that satisfy the predicate and never lengthens the list |
| `Seqs.FilterIsSubsequence` | bamf-react/src/components/AdminPanel/CRUD_Handler.tsx:147 | the filtered list is a subsequence of the original, so order is preserved |
| `Seqs.FilterCount` | bamf-react/src/components/AdminPanel/CRUD_Handler.tsx:147 | each satisfying element keeps all its occurrences; every other element has none |
| `CrudHandler.SectionUrl` | bamf-react/src/components/AdminPanel/CRUD_Handler.tsx:13-35 | every result is an `/api/` path; the result is `/api/unknown` exactly when the section is not one of the nine known names |
| `CrudHandler.SectionUrlInjective` | bamf-react/src/components/AdminPanel/CRUD_Handler.tsx:13-32 | two different known sections never map to the same endpoint |
| `CrudHandler.DummyData` | bamf-react/src/components/AdminPanel/CRUD_Handler.tsx:52-115 | an unknown section yields the empty list; a known section yields its fixture rows |
| `CrudHandler.Lookup` | bamf-react/src/components/AdminPanel/CRUD_Handler.tsx:147 | a value is found exactly when some field has that key, and it is the value of the first field with that key |
| `CrudHandler.ToJsString` | bamf-react/src/components/AdminPanel/CRUD_Handler.tsx:169 | `String(val)`: a string is itself; a number is its decimal numeral, which reads back as the number; booleans, `null` and `undefined` are their JavaScript names |
| `CrudHandler.DeleteById` | bamf-react/src/components/AdminPanel/CRUD_Handler.tsx:147 | an item is in the result iff it is in the data and its id is not the deleted id |
| `CrudHandler.DeleteByIdExact` | bamf-react/src/components/AdminPanel/CRUD_Handler.tsx:145-149 | items with the deleted id lose every occurrence; all others keep every occurrence, in their original order |
| `CrudHandler.MatchesIff` | bamf-react/src/components/AdminPanel/CRUD_Handler.tsx:168-170 | an item matches exactly when some field value, stringified and lower-cased, includes the lower-cased term |
| `CrudHandler.Search` | bamf-react/src/components/AdminPanel/CRUD_Handler.tsx:167-171 | an item is in the search result iff it is in the data and matches the term |
| `CrudHandler.SearchExact` | bamf-react/src/components/AdminPanel/CRUD_Handler.tsx:167-171 | the result keeps every occurrence of a matching item, no other item, and the original order |
| `CrudHandler.EmptySearchKeepsAll` | bamf-react/src/components/AdminPanel/CRUD_Handler.tsx:167-171 | with an empty term, data whose items all carry an `id` field comes back unchanged |
| `CrudHandler.NumericFieldsAreSearchable` | bamf-react/src/components/AdminPanel/CRUD_Handler.tsx:167-171 | a row `{id: 1001, stock: 45}` is found by the terms `"45"` and `"100"` through the numerals of its values |
| `CrudHandler.NumericFieldsDoNotMatchOtherDigits` | bamf-react/src/components/AdminPanel/CRUD_Handler.tsx:167-171 | the same row is not found by `"46"`, which is a substring of none of its values |
| `CrudHandler.SearchIgnoresTermCase` | bamf-react/src/components/AdminPanel/CRUD_Handler.tsx:169 | searching for a term and for its lower-cased form gives the same result |
| `CrudHandler.Keys` | bamf-react/src/components/AdminPanel/CRUD_Handler.tsx:175 | the keys of an item are its field names, in field order |
| `CrudHandler.Columns` | bamf-react/src/components/AdminPanel/CRUD_Handler.tsx:173-176 | no data gives no columns; otherwise the columns are exactly the first item's keys other than `id`, so `id` never appears |
| `CrudHandler.ColumnsOrder` | bamf-react/src/components/AdminPanel/CRUD_Handler.tsx:175 | the columns follow the first item's key order, and each non-`id` key keeps its multiplicity |

## Left out

- The axios transport, `axios.create`, the base URL from the environment and `withCredentials` are not modelled. A call's result is a parameter: a delivered status and body, or a failure with an optional server reply.
- The promise and async machinery is not modelled. Each suspension point is an event method. When a refresh settles is up to the caller of `RefreshSucceeded`/`RefreshFailed`. The bare `axios.post` of the refresh call never passes through the interceptors, so it cannot trigger a nested refresh.
- Re-sending a resumed or retried request (`this.client(originalRequest)`) is not modelled. The model returns the request that would be sent.
- `Api.ApiClient.RefreshSucceeded`: takes the refresh response's `accessToken` as a string. A response body without that field, which the source would store as the text `undefined`, is not modelled.
- `Api.ApiClient.Login`: takes the login body's `accessToken` and `refreshToken` as strings. A body lacking either field, which the source would store as the text `undefined` and later send as a bearer token, is not modelled.
- `Api.BuildQueryString`: returns the surviving key/value pairs. The percent-encoding and the `key=value&...` joining done by `URLSearchParams` are not modelled.
- `Api.HandleError`: a server `error` field that is not a string, and a thrown `null`/`undefined` (on which the source itself would throw), are not modelled.
- `Api.ApiClient.OnResponseError`: an axios error without a `config`, on which the source would throw a `TypeError`, is not modelled.
- `getCurrentUser` is not modelled separately: it is `get('/api/auth/me')`, covered by `Api.Complete`.
- `Text.Lower`: lower-cases the ASCII letters only; full Unicode case mapping of `toLowerCase` is not modelled.
- `CrudHandler.ToJsString`: stringifies integers, strings, booleans, `null` and `undefined`. Fractional numbers, nested objects and arrays are not modelled.
- `CrudHandler.ToJsString`: a number is an unbounded integer printed as its plain decimal numeral. JavaScript prints magnitudes of 10^21 and above in exponent form (`String(1e21)` is `"1e+21"`), and that form is not modelled.
- `Text.IntToString`: gives the plain decimal numeral for every integer. The exponent form JavaScript uses from 10^21 upward is not modelled.
- `CrudHandler.DeleteById`: compares ids as unbounded integers. Beyond 2^53, doubles cannot tell neighbouring integers apart, so the source may treat two distinct ids as equal; that is not modelled.
- `CrudHandler.Item`: an item is a list of fields, which could hold a key twice; a JavaScript object cannot, and such items are outside the model.
- `CrudHandler.Keys`: takes the fields in insertion order. JavaScript lists integer-like keys first, and that ordering is not modelled.
- `CrudHandler.DummyData`: the literal fixture tables are a parameter; only which sections have fixtures is modelled.
- The simulated loading timer, the `tryRealData` fetch and the `confirm` dialog in the CRUD screen are not modelled. Neither are the React state setters, which only consume the computed lists.
- The UI pages and components, `AuthContext`, the thin `auth.service`/`user.service` wrappers and the type-only files are not part of this model.
