# gqltest, modelled in Dafny

gqltest is a small harness for testing GraphQL endpoints over HTTP. It provides:

- a fluent builder for request headers (`GQLHeaders`);
- `execute`, which sends one request and records its start time and response on the test context;
- `expectOK`, the success check: status 200 and no GraphQL errors;
- `executeOK`, which runs the success check and then, only when an expected value is given, the payload comparison;
- `logOnFail`, an after-each hook that prints diagnostics for a test that did not pass;
- `runtests`, which turns a table of descriptors into one named test each.

The StepZen helper adds three header factories (`admin`, `regular`, `public`) and a one-entry introspection table.

The project has four modules:

- `Wrappers` (wrappers.dfy): `Option`, `Result`, `Outcome`.
- `Json` (json.dfy): JSON values and JavaScript truthiness on them.
- `GQLTest` (gqltest.dfy): everything in packages/gqltest/gqltest.js.
- `StepZen` (stepzen.dfy): everything in packages/gqltest/stepzen.js.

Design of the model:

- The header set is a `map<string, string>` keyed by the lower-cased header name. The platform `Headers` class stores names that way, so names match case-insensitively.
- `GQLHeaders` is a class with that map as its field. Its three mutators change it in place and return `this`. Each mutator's new map is a pure function of the old one (`Put`, `PutAPIKey`, `PutToken`), and the lemmas are about those functions.
- A header factory is described by the chain of builder calls it makes on a new `GQLHeaders` (`HeaderSource.Factory`). `Invoke` plays such a chain on a fresh instance.
- The transport is a parameter `server: HttpRequest -> FetchOutcome`. `execute` is thus specified in terms of the exact request it sends, headers included.
- The two chai-graphql assertions are the two function fields of `Matcher`, left abstract.
- The test context is a class holding `gql_start`, `gql_response` and the state the runner gave the test. `logOnFail` is a function of that context. It returns the list of diagnostic items, not printed text.
- On a failed fetch, `Execute` leaves `gql_response` as it was. In mocha the context object is shared by the tests of one group, so the failure log can then show the response of an earlier test. The model records this without changing it.

What the code does not do:

- A new `GQLHeaders` holds only `Content-Type: application/json`. There is no `Accept` header and no override from an environment variable.
- `expectOK` always checks both the status and the absence of errors. There is no transport-only mode.
- Payload comparison is the plugin's `graphQL` assertion, not a root-aware choice among equivalence modes.
- `runtests` takes an in-memory list. There is no loading of test tables or expected values from files or directories, and no placeholder test for a suite source that fails to load.

## Model

| member | source | states |
|---|---|---|
| `GQLTest.DefaultHeaders` | packages/gqltest/gqltest.js:8-13 | a new header set holds exactly one header: looking up any name gives `application/json` for `Content-Type` (in any case) and nothing for every other name |
| `GQLTest.GQLHeaders.constructor` | packages/gqltest/gqltest.js:9-13 | a new builder's map is the default header set, and its invariant holds |
| `GQLTest.Put` | packages/gqltest/gqltest.js:17-20 | after `headers.set(key, value)` the key (matched case-insensitively) maps to the value, every other name keeps its value, only that name is added, and the invariant is kept |
| `GQLTest.GQLHeaders.WithHeader` | packages/gqltest/gqltest.js:16-20 | `withHeader` replaces the map by `Put` of the old map, keeps the invariant and returns this same instance |
| `GQLTest.PutAPIKey` | packages/gqltest/gqltest.js:22-26 | `Authorization` becomes `apikey <key>`, every header other than Authorization is unchanged, and the invariant is kept |
| `GQLTest.GQLHeaders.WithAPIKey` | packages/gqltest/gqltest.js:22-26 | `withAPIKey` updates the map by `PutAPIKey` and returns this same instance |
| `GQLTest.PutToken` | packages/gqltest/gqltest.js:28-32 | `Authorization` becomes `Bearer <token>`, every header other than Authorization is unchanged, and the invariant is kept |
| `GQLTest.GQLHeaders.WithToken` | packages/gqltest/gqltest.js:28-32 | `withToken` updates the map by `PutToken` and returns this same instance |
| `GQLTest.AuthorizationLastWins` | packages/gqltest/gqltest.js:22-32 | of `withAPIKey` and `withToken`, the one called last decides Authorization, in both orders |
| `GQLTest.ChainWellFormed` | packages/gqltest/gqltest.js:8-32 | no chain of builder calls drops a header or stores a name that is not lower-cased, so Content-Type is always present |
| `GQLTest.ChainLastWins` | packages/gqltest/gqltest.js:16-32 | after a chain of calls, a header holds the value written by the last call that named it, case-insensitively |
| `GQLTest.ChainUntouched` | packages/gqltest/gqltest.js:16-32 | a header that no call of a chain names keeps the value it had before the chain |
| `GQLTest.Invoke` | packages/gqltest/gqltest.js:62-64 | calling a factory gives a fresh, valid instance whose map is the one its chain of calls builds from the defaults |
| `GQLTest.ResolveHeaders` | packages/gqltest/gqltest.js:54-64 | a factory is invoked and its fresh result used; an instance is used itself; an omitted argument becomes a fresh default builder |
| `GQLTest.SuccessCheck` | packages/gqltest/gqltest.js:43-46 | the check passes exactly when the status is 200 and the body has no GraphQL errors; a status other than 200 fails as a status failure before the body is looked at |
| `GQLTest.GQLResponse.ExpectOK` | packages/gqltest/gqltest.js:42-47 | `expectOK` succeeds exactly when the status is 200 and the body has no GraphQL errors, and then returns this same response object |
| `GQLTest.GQLResponse.constructor` | packages/gqltest/gqltest.js:35-40 | a response holds the given status and body |
| `GQLTest.Execute` | packages/gqltest/gqltest.js:49-73 | the request goes out with the resolved headers, `POST` by default. `gql_start` is set to the start time. On a reply, `gql_response` is set to a fresh response carrying the reply's status and body, and that same object is returned. On a rejection, the error is returned and `gql_response` is left unchanged |
| `GQLTest.TestContext.LogOnFail` | packages/gqltest/gqltest.js:75-90 | nothing is logged for a passed test. Otherwise the log holds the start and end times exactly when a start was recorded, and the status and body exactly when a response was recorded. Each item appears once, in the order start, end, status, body |
| `GQLTest.Verdict` | packages/gqltest/gqltest.js:92-108 | a test passes exactly when a reply arrived with status 200, without GraphQL errors and, when `expected` is truthy, matching it. A failed success check is the verdict. A failure after a passed check is a payload mismatch, and only when `expected` is truthy |
| `GQLTest.ComparisonSkippedWithoutExpected` | packages/gqltest/gqltest.js:104-106 | with a falsy `expected`, the payload matcher never affects the verdict, which equals the success check alone |
| `GQLTest.SuccessCheckedFirst` | packages/gqltest/gqltest.js:102-106 | when the success check fails, neither `expected` nor the payload matcher changes the verdict |
| `GQLTest.ExecuteOK` | packages/gqltest/gqltest.js:94-108 | `executeOK` returns success exactly when `Verdict` passes on the reply to the request it sent, and returns `Verdict`'s failure otherwise. `gql_start` is the start time. After any reply, passing or not, `gql_response` is a fresh response with that reply's status and body; after a rejection it is unchanged; on success it is the object returned |
| `GQLTest.TestTitle` | packages/gqltest/gqltest.js:123-126 | the test title is `label` when it is non-empty, and `name` otherwise |
| `GQLTest.LabelNameAlias` | packages/gqltest/gqltest.js:118-126 | the same title under `name` alone or under `label` alone gives the same test title |
| `GQLTest.EffectiveRequest` | packages/gqltest/gqltest.js:128-142 | a truthy `request` is sent verbatim. Otherwise the request is an object with exactly the truthy fields among `documentId`, `query`, `operationName` and `variables`, under those names and with their values, and no other key |
| `GQLTest.RequestTakesPrecedence` | packages/gqltest/gqltest.js:111-117 | with a truthy `request`, changing the flattened fields does not change the effective request |
| `GQLTest.BuildRequest` | packages/gqltest/gqltest.js:128-142 | the field-by-field `if` chain produces exactly `EffectiveRequest` |
| `GQLTest.RunTests` | packages/gqltest/gqltest.js:119-155 | one group named by the suite label, with the log-failure hook. It holds exactly one test per descriptor, in list order, each with the descriptor's title, effective request and expected value |
| `GQLTest.RunTest` | packages/gqltest/gqltest.js:127-151 | a registered test passes exactly when `Verdict` passes on the reply to a `POST` of its request to the group's endpoint with the group's headers; it records `gql_start` and `gql_response` on the context as `ExecuteOK` does and leaves the test state alone |
| `GQLTest.FailedTestIsLogged` | packages/gqltest/gqltest.js:71-89 | when a registered test gets a reply and fails, the failure log run afterwards holds its start and end times and that reply's status and body; a passed test logs nothing |
| `StepZen.Admin` | packages/gqltest/stepzen.js:10-13 | the factory builds exactly `Content-Type: application/json` and `Authorization: apikey <adminKey>` |
| `StepZen.Regular` | packages/gqltest/stepzen.js:15-18 | the factory builds exactly `Content-Type: application/json` and `Authorization: apikey <apiKey>` |
| `StepZen.Public` | packages/gqltest/stepzen.js:20-23 | the factory builds exactly the default header set, with no Authorization |
| `StepZen.CallsAreIndependent` | packages/gqltest/stepzen.js:11-23 | two calls of a factory give separate instances: adding a token through one leaves the other exactly as built |
| `StepZen.IntrospectionTable` | packages/gqltest/stepzen.js:25-33 | the table has one descriptor. It expands to a test titled `federation-service` whose request is `{query: "{_service { sdl }}"}` and which has no expected value |
| `StepZen.IntrospectionChecksSuccessOnly` | packages/gqltest/stepzen.js:25-33 | the introspection test passes exactly when the reply has status 200 and no GraphQL errors |

## Left out

- Network I/O: `fetch` and the parsing of the body as JSON are the `server` parameter. A rejected fetch or an unparseable body is its `NetworkError`. `JSON.stringify` of the request is not modelled: the request is sent as a JSON value.
- The chai-graphql plugin: `notGraphQLError` and `graphQL` are abstract predicates. chai's assertion messages are not modelled; a failure is a `Failure` value.
- Mocha: `describe`, `it`, `afterEach`, timeouts and the runner itself are not modelled. Registration produces a `Suite` value. The runner's setting of `currentTest.state` is a field of `TestContext`.
- Timestamps and printing: `new Date()` is a `now` parameter. `toISOString` and `console.log` formatting are not modelled, only which items the log holds.
- The StepZen CLI calls (`stepzen whoami` via `execSync`): the admin key and the API key are parameters.
- File-backed tables and expected values: `runtests` given a path string fails on `forEach`, and a path given as `expected` goes to the matcher as it is. No file resolution is modelled, because the code has none.
- Header factories: a factory is a chain of builder calls on a new `GQLHeaders`, as all of stepzen.js's are. A JavaScript function that returns a shared instance, or does some other work, is not modelled.
- The platform `Headers` class: it trims whitespace from values, rejects invalid names and values with a `TypeError`, and keeps an iteration order. None of that is modelled. Names are lower-cased for ASCII letters only.
- Request object key order: the assembled request is a map. `JSON.stringify` would write `documentId`, `query`, `operationName`, `variables` in that order.
- JSON numbers are integers in the model. Truthiness is unaffected: a number is falsy exactly when it is zero, and JSON has no `NaN`.
- When the request is assembled: the code builds it inside the test callback, the model at registration. The values are the same, because the fields are captured when each descriptor is destructured.
- Test titles: a descriptor with neither `label` nor `name` registers a test whose title is `None`. The code calls `it(undefined, …)`, which recent mocha versions reject, aborting the whole `describe`; the runner is not modelled.
- `execute` takes no `expected` argument, and neither does the model. Callers that pass one to `execute` compare nothing.
