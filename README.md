# Animals endpoint: a verified model

This project models the serverless endpoint `api/animals.js`: a single HTTP
handler that keeps an in-memory table of "animal" records (`animalsData`),
lets clients append records with POST and read the whole table with GET,
wipes the table from a periodic cleanup callback, and guards every request
except CORS preflight (OPTIONS) with a static API key.

The model has five modules:

- `Wrappers` (`wrappers.dfy`): `Option`, where `None` is JavaScript's `undefined`/`null`.
- `Json` (`json.dfy`): the parsed request body as a JSON value, JavaScript truthiness and property reads on it.
- `Auth` (`auth.dfy`): `authenticate`. This covers the `||` chain over the `x-api-key` header, the `authorization` header with `'Bearer '` removed, and the `key` query parameter. It also covers `String.prototype.replace` with a string pattern (the first occurrence anywhere in the string is removed, not only a prefix) and the fail-closed comparison with the configured key.
- `Animals` (`animals.dfy`): the record type and the handler's decision ladder as the function `Dispatch`. It also holds the class `Store`, whose field `animals` is `animalsData`. Its methods are `Push` (the `push` of a POST), `Snapshot` (the GET listing), `Cleanup` (one firing of the interval callback) and `Handler` (the handler run on the store in place, proved equal to `Dispatch`).
- `Lifecycle` (`lifecycle.dfy`): runs made of handled requests and cleanup firings, and what the table holds after any run.

Body fields are JSON values, not just strings. So `!animal.name` is JavaScript truthiness: `undefined`, `null`, `false`, `0` and `""` are rejected. A truthy value of any type (a number, an object) is accepted and stored verbatim, exactly as the code does. A body that is `undefined` or `null` makes the destructuring `const { animal } = req.body` throw. That is modelled as the 500 reply, with the table unchanged.

`api/animals.js` has no duplicate suppression, no rate limiting, no length limits on the fields and no timestamp on the records. It compares against one configured key. POST always appends, and a record holds only `jobId`, `name` and `generation`.

## Model

| member | source | states |
|---|---|---|
| `Auth.IndexFrom` | api/animals.js:18 | the search from index `i` returns the leftmost occurrence of the pattern at or after `i`, or `None` when there is none from `i` on |
| `Auth.IndexOf` | api/animals.js:18 | returns the first occurrence of the pattern, and `None` exactly when the pattern occurs nowhere |
| `Auth.ReplaceFirst` | api/animals.js:18 | `replace` with a string pattern leaves a string without the pattern unchanged, and otherwise cuts out exactly the leftmost occurrence |
| `Auth.ReplaceFirstOfPrefix` | api/animals.js:18 | `"Bearer " + t` becomes `t`; only one occurrence is removed, so `"Bearer Bearer t"` becomes `"Bearer t"` |
| `Auth.ReplaceFirstInside` | api/animals.js:18 | the pattern is removed where it first occurs even when it is not a prefix; the text before it is kept |
| `Auth.PresentedKey` | api/animals.js:17-19 | the presented key is `x-api-key` when that is non-empty; otherwise the stripped `authorization` header when that is non-empty; otherwise the query key |
| `Auth.Authenticate` | api/animals.js:15-29 | never admits when no key (or an empty key) is configured; admits only when a non-empty presented key coming from one of the three sources equals the configured key |
| `Auth.FailsClosed` | api/animals.js:21-26 | with `API_KEY` unset or empty, every combination of credentials is rejected |
| `Auth.HeaderKeyDecides` | api/animals.js:17 | a non-empty `x-api-key` alone decides: access if and only if it equals the configured key |
| `Auth.HeaderKeyShadowsOthers` | api/animals.js:17-19 | with a non-empty `x-api-key`, changing the bearer header or the query key never changes the outcome, even when they would match |
| `Auth.QueryKeyIsLastResort` | api/animals.js:17-19 | the query key is irrelevant when either header yields a non-empty value; when neither does, access holds if and only if the query key equals the configured key |
| `Auth.BearerHeaderAdmits` | api/animals.js:18 | a request with no `x-api-key` and `Authorization: Bearer <configured key>` is admitted |
| `Auth.OnlyExactMatchAdmits` | api/animals.js:17-28 | access if and only if a key is configured and it equals `x-api-key`, or `x-api-key` is empty and it equals the stripped `authorization` header, or both are empty and it equals the query key |
| `Auth.MatchIsCaseSensitive` | api/animals.js:28 | the comparison is case-sensitive: `"abc"` is rejected against the configured `"ABC"` |
| `Json.StringTruthiness` | api/animals.js:53 | a string field passes the `!` test if and only if it is non-empty |
| `Animals.Dispatch` | api/animals.js:31-95 | only an accepted POST changes the table, and it appends exactly one record after the unchanged old ones; the reply is 401 exactly for a non-OPTIONS request that fails authentication |
| `Animals.Cleared` | api/animals.js:7-13 | the cleanup always leaves the table empty |
| `Animals.Store.constructor` | api/animals.js:4 | the table starts empty |
| `Animals.Store.Push` | api/animals.js:60-64 | the new table is the old one with the record added at the end |
| `Animals.Store.Snapshot` | api/animals.js:83-88 | returns the current table and `total` equal to its length, changing nothing |
| `Animals.Store.Cleanup` | api/animals.js:7-13 | the table becomes the cleared (empty) table |
| `Animals.Store.Handler` | api/animals.js:31-95 | the reply and the new table are exactly those `Dispatch` gives for the request, the configured key and the old table |
| `Animals.DispatchAppendsAdmitted` | api/animals.js:49-64 | every request leaves the table as before plus the record `Admitted` names, which is at most one and is independent of the table |
| `Animals.ValidPostAppends` | api/animals.js:51-64 | an authorised POST whose body object (with any other properties) holds an `animal` with truthy `jobId`, `name` and `generation` gets 200 and appends one record holding exactly those three values; other properties of `animal` are dropped |
| `Animals.InvalidPostRejected` | api/animals.js:50-58 | an authorised POST with no body gets 500 (lines 75-80); one whose `animal` is missing or has a falsy field gets 400; both leave the table unchanged; 400 happens exactly in the second case |
| `Animals.GetLists` | api/animals.js:83-88 | an authorised GET gets 200 with the current table and its length, and the table is unchanged |
| `Animals.MethodLadder` | api/animals.js:37-47 | OPTIONS gets 200 without authentication; any other unauthenticated request gets 401 (always when no key is configured); an authorised method other than OPTIONS, GET and POST gets 405 (lines 91-94); none of these change the table |
| `Animals.CleanupEmpties` | api/animals.js:7-13 | the cleanup empties the table, is idempotent, and does nothing to an empty table |
| `Lifecycle.RunKeepsSinceLastCleanup` | api/animals.js:4-13 | after any run, the table is the records admitted since the last cleanup, in order; the initial table survives only when no cleanup occurred |
| `Lifecycle.RunWithoutCleanupAppends` | api/animals.js:60 | between cleanups the table only grows, by the admitted records in request order |
| `Lifecycle.CleanupForgetsThePast` | api/animals.js:7-13 | after a cleanup, the table depends only on the requests that follow it, never on what was stored before |
| `Lifecycle.DuplicatePostKeptTwice` | api/animals.js:60-64 | posting the same valid record twice stores it twice: the table grows by two |

## Left out

- CORS headers, the JSON text of responses and their messages: the model keeps only the status code plus, for GET, the records and `total`.
- `console.log` and `console.error` output. The cleanup's `count` exists only for its log line.
- The `setInterval` timer and its 40-second period. A cleanup is an explicit event (`Store.Cleanup`, `Lifecycle.Cleanup`), so the model says nothing about how often it fires.
- Parsing of `req.url` with `new URL(...).searchParams`: the `key` parameter is an already-extracted optional string. A URL that makes the `URL` constructor throw is not modelled.
- Reading `process.env.API_KEY`: the configured key is a parameter.
- The platform's parsing of the body: `req.body` is already a JSON value or `undefined`. Numbers are unbounded reals.
- The text of the 500 error message (`error.message`).
- The `async`/`export default` wrapper and concurrency. The handler never awaits, so on the single-threaded event loop one request runs to completion without a cleanup in between.
- Strings are sequences of Unicode characters, not UTF-16 code units. The comparisons are exact either way.
