# Users API gateway: a verified model

The gateway (`server.js`) is a thin HTTP proxy in front of a users data
service. It has six proxying routes: list, fetch, create, update and delete
users, plus an enhanced *profile* route. Each route makes exactly one upstream
call that mirrors the inbound request. It then wraps how that call settled in
an envelope `{success, data, message, error}` and picks an inbound status.
The profile route also builds an enriched record from the fetched user.

The model has six modules:

- `Wrappers` (`wrappers.dfy`): `Option` stands for JavaScript's `undefined`, and `Result` stands for
  an evaluation that may throw.
- `Text` (`text.dfy`): the string primitives the handlers use. These are `toUpperCase` over the
  ASCII range (`Upper`), `split` on one character (`Split`, with its inverse
  `Join`), and the decimal text of an integer (`IntText`, with its reference
  reading `IntValue`).
- `Json` (`json.dfy`): parsed JSON values and the string conversion a template
  literal applies (`ToText`, `OptionText`). That conversion throws for an object
  with its own `toString` field (`Convertible` says when it does not). The
  helper `Get` reads a property and gives `undefined` for a missing field or a primitive.
- `Profile` (`profile.dfy`): the profile object literal of `server.js:138-145` (`Derive`).
  It covers the `TypeError`s the literal can raise (`Fault`) and `email.split('@')[1]`
  (`EmailDomain`).
- `Gateway` (`gateway.dfy`): the routes (`Route`) and the outbound call each one makes
  (`Outbound`). The upstream result is a three-way `Outcome` (`Ok(body)`,
  `HttpErr(status, message)`, `TransportErr(message)`). `Handle` and `Attempt`
  model the `try` blocks, `FailureStatus` models the `catch` blocks' status
  choice, and `Respond` gives the whole answer.
- `Scenarios` (`scenarios.dfy`): the example exchanges of `server.test.js`, as lemmas over the model.

Conventions:

- An `Envelope` or profile field that is `None` (or missing from the map) was
  `undefined` in the handler, so the JSON reply does not contain it.
- The base URL (`DATA_SERVICE_URL`) and the profile's timestamp
  (`new Date().toISOString()`) are plain parameters: `base` and `clock`.

Behaviour taken from the code:

- `response.data.data` throws when the upstream body is `null`. The `catch`
  then sees no `error.response`, so the answer is 500. When the body is not an
  object, or has no `data` field, `data` is `undefined` and the envelope has no
  `data` field.
- The DELETE handler never reads the body, so any resolved call answers 200.
- The status chosen on failure is `error.response?.status || 500`, so a status
  of 0 also becomes 500.
- `emailDomain` is the second `@`-separated segment of `email`: the text
  between the first and the second `@`. It is not "everything after the first `@`".
  It is `undefined` when there is no `@`. In that case the serialized profile has
  no `emailDomain` key at all, even if the user record had one, because the
  literal's own `emailDomain: undefined` overrides the spread field.
- `profileUrl` embeds `String(user.id)`. A missing id gives `"undefined"`, a
  number gives its decimal digits, and an array gives its elements' texts
  joined with `,`. An object gives `"[object Object]"`, unless it has its own
  `toString` field. Then the conversion throws a `TypeError` and the answer is 500.
- The list route answers 500 on every failure. It does not pass an upstream
  status through, unlike the other five routes.

## Model

| member | source | states |
|---|---|---|
| `Text.Upper` | server.js:140 | the upper-cased name has the same length, and each position is the ASCII upper case of the same position of the name |
| `Text.UpperNoLower` | server.js:140 | no lower-case ASCII letter survives upper-casing, and every other character is kept |
| `Text.Split` | server.js:141 | `split` yields at least one segment, and no segment contains the separator |
| `Text.SplitJoin` | server.js:141 | joining the segments with the separator gives back the original string (round trip) |
| `Text.SplitPrefix` | server.js:141 | a separator-free prefix becomes part of the first segment of what follows it |
| `Text.SplitAtFirst` | server.js:141 | a string `a@u` with no separator in `a` splits into `a` followed by the segments of `u` |
| `Text.SplitCount` | server.js:141 | a string splits into a single segment exactly when it has no separator |
| `Text.NatText` | server.js:143 | the decimal text of a number is non-empty, all digits, and has no leading zero |
| `Text.NatTextValue` | server.js:143 | reading the decimal text back gives the original number (round trip) |
| `Text.JoinSplit` | server.js:141 | splitting the join of separator-free parts gives back those parts (round trip) |
| `Text.IntText` | server.js:143 | the text of an integer is a non-empty numeral (optional minus sign, then digits), with a minus sign exactly for a negative integer |
| `Text.IntTextValue` | server.js:143 | reading the text of any integer back gives that integer (round trip) |
| `Json.ToText` | server.js:143 | `String(v)` returns exactly when `v` is convertible: no object reached through arrays has its own `toString` field |
| `Json.ElementText` | server.js:143 | an array element converts exactly when it is convertible, and `null` is written as the empty text |
| `Json.OptionText` | server.js:143 | `String` of `undefined` is `"undefined"`; otherwise it returns exactly when the value is convertible |
| `Json.ArrayTextSplits` | server.js:143 | the text of a non-empty array of convertible elements, split at `,`, gives back the elements' texts when none contains a comma |
| `Profile.EmailDomain` | server.js:141 | a defined domain contains no `@` |
| `Profile.EmailDomainAbsent` | server.js:141 | the domain is undefined exactly when the address has no `@` |
| `Profile.EmailDomainSegment` | server.js:141 | for `a@d` followed by nothing or by `@...`, with no `@` in `a` or `d`, the domain is `d` |
| `Profile.EmailDomainShape` | server.js:141 | a defined domain `d` is the text that starts after the first `@` and runs to the next `@` or to the end |
| `Profile.Derive` | server.js:135-145 | the profile was built exactly when the user is an object with a string `name` and `email` whose `id`, if present, converts to a string. Otherwise the specific `TypeError`, in the literal's order: `name`, then `email`, then the id. On success: every user field not named like a derived field is unchanged; the key set is the user's keys plus the five derived keys, minus `emailDomain` when the address has no `@`; `displayName` is the upper-cased name; `emailDomain` is the domain; `isAdmin` is true iff `role` is exactly `"admin"`; `profileUrl` is `/api/users/{String(id)}/profile`; `timestamp` is the clock |
| `Gateway.Outbound` | server.js:34-134 | each route's single outbound call uses the inbound verb, and forwards the inbound body unchanged exactly for POST and PUT |
| `Gateway.OutboundMirrorsInbound` | server.js:34-134 | the outbound URL is the inbound path, with the decoded `id` parameter, under the base URL (the profile route fetches `/api/users/:id`) |
| `Gateway.Handle` | server.js:37-151 | once the call resolved, the handler throws exactly on a `null` body or, for the profile, a user it cannot derive from (never for DELETE); what it throws is its own `TypeError`, with no response status; a success has no `error` and the route's success message |
| `Gateway.Attempt` | server.js:35-154 | a rejected call always reaches the `catch` with the upstream message; a status reaches the `catch` only from an upstream error response; a handler `TypeError` arises only after the call resolved |
| `Gateway.FailureStatus` | server.js:44-154 | a failure status is never 0; it is 500 on the list route, and otherwise the caught status unless that is missing or 0, which gives 500 |
| `Gateway.Respond` | server.js:34-161 | every answer is either a success envelope with no `error`, or a failure envelope with an `error` and no `data`. It carries the route's success or failure message, and a success has status 200 or 201 |
| `Gateway.SuccessExactly` | server.js:34-161 | a route succeeds exactly when the upstream call resolved. Except for DELETE, the body must also be non-`null`; for the profile route, the user must also have a string `name` and `email` and an id that converts to a string |
| `Gateway.SuccessEnvelope` | server.js:37-41 | on success: status 201 for POST and 200 otherwise; `data` is the upstream body's `data` field, the derived profile for the profile route, and absent for DELETE |
| `Gateway.HttpErrorPassesThrough` | server.js:61-159 | for every route but the list, an upstream error status is answered unchanged (0 becomes 500), with `success: false`, the route's failure message and the upstream message as `error` |
| `Gateway.TransportErrorIs500` | server.js:152-159 | an upstream call with no response answers 500 with `success: false` on every route |
| `Gateway.ListUsersFailsWith500` | server.js:42-48 | the list route fails on every upstream error, with the upstream message as `error`, and every failure of the list route answers 500, whatever the upstream status |
| `Gateway.FailureStatusOrigin` | server.js:61-159 | a failure status is either 500 or, on a route other than the list, the upstream error's own status |
| `Scenarios.JohnDoeProfileKeys` | server.test.js:150-164 | the sample user's profile has exactly the user's fields plus the five derived ones |
| `Scenarios.JohnDoeProfileTexts` | server.test.js:160-161 | the sample profile's `displayName` is `"JOHN DOE"` and its `emailDomain` is `"example.com"` |
| `Scenarios.JohnDoeProfileFlags` | server.test.js:162-163 | the sample profile's `isAdmin` is true and its `timestamp` is the clock text |
| `Scenarios.JohnDoeProfileUrl` | server.js:143 | the sample profile's `profileUrl` is `"/api/users/1/profile"` |
| `Scenarios.JohnDoeProfileKeepsFields` | server.js:139 | the sample profile keeps the user's own `name` and `id` |
| `Scenarios.JohnDoeDisplayName` | server.test.js:160 | `"John Doe"` upper-cases to `"JOHN DOE"` |
| `Scenarios.JohnDoeEmailDomain` | server.test.js:161 | the domain of `"john@example.com"` is `"example.com"` |
| `Scenarios.JohnDoeProfile` | server.test.js:157-159 | the profile route for user 1 answers 200 with the derived profile as `data` |
| `Scenarios.NotFoundPassesThrough` | server.test.js:75-83 | an upstream 404 for user 9999 answers 404 with `success: false` on both the plain and the profile route |
| `Scenarios.ListUsersPassesData` | server.test.js:35-48 | the list route answers 200 with the upstream list as `data` |
| `Scenarios.CreateUserAnswers201` | server.test.js:87-102 | a created user is answered with 201 and that user as `data` |
| `Scenarios.ProfileWithoutDomain` | server.js:141 | for an address without `@`, the profile has no `emailDomain` key, even when the user record had one |
| `Scenarios.ProfileWithUnconvertibleIdIs500` | server.js:143 | a user whose id is an object with its own `toString` field makes the profile route answer 500 with the `TypeError` |
| `Scenarios.ProfileOfNamelessUserIs500` | server.js:140 | a user record without a name makes the profile route answer 500 with the `TypeError`, although the upstream call succeeded |

## Left out

- Express wiring is not modelled: routing, the `cors()` and `express.json()` middleware, `app.listen` and the module exports (`server.js:1-10`, `163-168`). A `Route` value stands for a request that Express has already matched and parsed. Express also percent-decodes the id, so `id` is the decoded path parameter.
- `Gateway.OutboundMirrorsInbound`: holds of the decoded id only. A decoded id containing `/`, `?` or `#` (sent as `%2F`, `%3F` or `%23`) changes the upstream path or query rather than naming one user; the `Route` value does not keep the raw inbound path.
- The `GET /health` and `GET /` routes are not modelled. They answer constant bodies and call nothing upstream.
- The axios calls are not modelled. Their settled result is the input `Outcome`. The model does not check that axios only rejects non-2xx statuses, so `HttpErr` may carry any status.
- Nothing is logged. `console.error` and `console.log` are I/O only.
- Configuration is not read from the environment. `PORT` and `DATA_SERVICE_URL` are not read; the base URL is the parameter `base`.
- The timestamp is not computed: `new Date().toISOString()` is the input `clock`.
- Message texts are opaque. The `error.message` of an axios error is an opaque string, and the `TypeError` messages are stood for by `Fault` values.
- The success and failure message strings are modelled as the constants of the source, and no property is proved about their wording.
- `Text.Upper`: covers ASCII letters only. Full Unicode case mapping (for example `ß` upper-casing to `SS`) is not modelled.
- `Text.IntText`: JSON numbers are modelled as integers. JavaScript parses them into doubles, so the text is the one JavaScript writes only up to 2^53 in magnitude; rounding above that, fractions and the exponent form are not modelled.
- Object fields are an unordered map, so key order and duplicate keys in the upstream JSON are not modelled. Inherited properties are not modelled either; none of the fields the handlers read (`data`, `name`, `email`, `role`, `id`) is one.
- The bytes of a reply are not modelled. `res.json` serialization is reduced to the envelope's fields, where `None` means "omitted".
