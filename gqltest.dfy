/** The harness engine of packages/gqltest/gqltest.js: the fluent header builder, the
    success check on a GraphQL response, request execution and the context it records,
    the failure log, and the expansion of a table of test descriptors into named tests. */
module GQLTest {
  import opened Wrappers
  import opened Json

  // ---------------------------------------------------------------------------
  // Header names and header maps
  // ---------------------------------------------------------------------------

  /** ASCII lower-casing of one character. */
  function LowerChar(c: char): char {
    if 'A' <= c <= 'Z' then (c as int + 32) as char else c
  }

  /** The normalised form of a header name: the platform `Headers` class stores names in
      lower case, so two names that differ only in case name the same header. */
  function Lower(name: string): string {
    seq(|name|, i requires 0 <= i < |name| => LowerChar(name[i]))
  }

  /** A header set: normalised header name to value. */
  type HeaderMap = map<string, string>

  /** Every stored name is normalised, and the content type is present (no builder call
      ever removes a header). */
  ghost predicate WellFormed(m: HeaderMap) {
    && (forall k :: k in m ==> Lower(k) == k)
    && "content-type" in m
  }

  /** `headers.get(name)`: the value stored under the name, matched case-insensitively. */
  function Get(m: HeaderMap, name: string): Option<string> {
    if Lower(name) in m then Some(m[Lower(name)]) else None
  }

  const ContentType := "Content-Type"
  const Authorization := "Authorization"
  const JsonMediaType := "application/json"

  /** The headers of a freshly constructed GQLHeaders: exactly one header, the JSON
      content type. */
  function DefaultHeaders(): (m: HeaderMap)
    ensures WellFormed(m)
    ensures forall name :: Get(m, name) == if Lower(name) == "content-type" then Some(JsonMediaType) else None
  {
    assert Lower(ContentType) == "content-type";
    map[Lower(ContentType) := JsonMediaType]
  }

  /** `headers.set(key, value)`: the key now maps to the value, replacing an earlier value
      stored under any name that differs from it only in case; every other header keeps
      its value and no header disappears. */
  function Put(m: HeaderMap, key: string, value: string): (r: HeaderMap)
    ensures forall name :: Get(r, name) == if Lower(name) == Lower(key) then Some(value) else Get(m, name)
    ensures r.Keys == m.Keys + {Lower(key)}
    ensures WellFormed(m) ==> WellFormed(r)
  {
    m[Lower(key) := value]
  }

  /** `withAPIKey`: the Authorization header becomes `apikey <key>`; nothing else changes. */
  function PutAPIKey(m: HeaderMap, apikey: string): (r: HeaderMap)
    ensures Get(r, Authorization) == Some("apikey " + apikey)
    ensures forall name :: Lower(name) != "authorization" ==> Get(r, name) == Get(m, name)
    ensures r.Keys == m.Keys + {"authorization"}
    ensures WellFormed(m) ==> WellFormed(r)
  {
    assert Lower(Authorization) == "authorization";
    Put(m, Authorization, "apikey " + apikey)
  }

  /** `withToken`: the Authorization header becomes `Bearer <token>`; nothing else changes. */
  function PutToken(m: HeaderMap, token: string): (r: HeaderMap)
    ensures Get(r, Authorization) == Some("Bearer " + token)
    ensures forall name :: Lower(name) != "authorization" ==> Get(r, name) == Get(m, name)
    ensures r.Keys == m.Keys + {"authorization"}
    ensures WellFormed(m) ==> WellFormed(r)
  {
    assert Lower(Authorization) == "authorization";
    Put(m, Authorization, "Bearer " + token)
  }

  /** The two Authorization schemes share one header: whichever is set last wins. */
  lemma AuthorizationLastWins(m: HeaderMap, apikey: string, token: string)
    ensures PutToken(PutAPIKey(m, apikey), token) == PutToken(m, token)
    ensures PutAPIKey(PutToken(m, token), apikey) == PutAPIKey(m, apikey)
    ensures Get(PutToken(PutAPIKey(m, apikey), token), Authorization) == Some("Bearer " + token)
    ensures Get(PutAPIKey(PutToken(m, token), apikey), Authorization) == Some("apikey " + apikey)
  {
  }

  // ---------------------------------------------------------------------------
  // Chains of builder calls
  // ---------------------------------------------------------------------------

  /** One call of a fluent chain on a GQLHeaders instance. */
  datatype HeaderCall =
    | WithHeaderCall(key: string, value: string)
    | WithAPIKeyCall(apikey: string)
    | WithTokenCall(token: string)

  /** The header a call writes. */
  function CallName(c: HeaderCall): string {
    match c
    case WithHeaderCall(key, _) => key
    case WithAPIKeyCall(_) => Authorization
    case WithTokenCall(_) => Authorization
  }

  /** The value a call writes. */
  function CallValue(c: HeaderCall): string {
    match c
    case WithHeaderCall(_, value) => value
    case WithAPIKeyCall(apikey) => "apikey " + apikey
    case WithTokenCall(token) => "Bearer " + token
  }

  /** The effect of one call on the header map. */
  function Apply(m: HeaderMap, c: HeaderCall): HeaderMap {
    match c
    case WithHeaderCall(key, value) => Put(m, key, value)
    case WithAPIKeyCall(apikey) => PutAPIKey(m, apikey)
    case WithTokenCall(token) => PutToken(m, token)
  }

  /** The header map after a chain of calls, applied left to right. */
  function Chain(m: HeaderMap, calls: seq<HeaderCall>): HeaderMap
    decreases |calls|
  {
    if calls == [] then m else Apply(Chain(m, calls[..|calls| - 1]), calls[|calls| - 1])
  }

  /** The header map of `new GQLHeaders()` followed by a chain of calls. */
  function Build(calls: seq<HeaderCall>): HeaderMap {
    Chain(DefaultHeaders(), calls)
  }

  /** No call drops a header or breaks normalisation. */
  lemma {:induction false} ChainWellFormed(m: HeaderMap, calls: seq<HeaderCall>)
    requires WellFormed(m)
    ensures WellFormed(Chain(m, calls))
    ensures m.Keys <= Chain(m, calls).Keys
    decreases |calls|
  {
    if calls != [] {
      ChainWellFormed(m, calls[..|calls| - 1]);
    }
  }

  /** Last write wins: when call `i` is the last one naming a header (case-insensitively),
      the header holds the value that call wrote. */
  lemma {:induction false} ChainLastWins(m: HeaderMap, calls: seq<HeaderCall>, name: string, i: nat)
    requires i < |calls| && Lower(CallName(calls[i])) == Lower(name)
    requires forall j :: i < j < |calls| ==> Lower(CallName(calls[j])) != Lower(name)
    ensures Get(Chain(m, calls), name) == Some(CallValue(calls[i]))
    decreases |calls|
  {
    var n := |calls| - 1;
    var prefix := calls[..n];
    if i < n {
      assert forall j :: i < j < |prefix| ==> prefix[j] == calls[j];
      ChainLastWins(m, prefix, name, i);
    }
  }

  /** A header that no call names keeps the value it had before the chain. */
  lemma {:induction false} ChainUntouched(m: HeaderMap, calls: seq<HeaderCall>, name: string)
    requires forall j :: 0 <= j < |calls| ==> Lower(CallName(calls[j])) != Lower(name)
    ensures Get(Chain(m, calls), name) == Get(m, name)
    decreases |calls|
  {
    if calls != [] {
      var prefix := calls[..|calls| - 1];
      assert forall j :: 0 <= j < |prefix| ==> prefix[j] == calls[j];
      ChainUntouched(m, prefix, name);
    }
  }

  // ---------------------------------------------------------------------------
  // The builder object
  // ---------------------------------------------------------------------------

  /** GQLHeaders: a mutable header set whose mutators return the same instance, so that
      calls can be chained. */
  class GQLHeaders {
    /** `this.headers`, the header set handed to the transport. */
    var headers: HeaderMap

    /** The object invariant: names are stored lower-cased and Content-Type is never
        removed. The mutators keep it; none of their effects depends on it. */
    ghost predicate Valid()
      reads this
    {
      WellFormed(headers)
    }

    /** A new builder holds only `Content-Type: application/json`. */
    constructor ()
      ensures Valid()
      ensures headers == DefaultHeaders()
    {
      headers := DefaultHeaders();
    }

    /** `withHeader(key, value)`: sets or overwrites one header, returns this instance. */
    method WithHeader(key: string, value: string) returns (self: GQLHeaders)
      requires Valid()
      modifies this
      ensures Valid()
      ensures self == this
      ensures headers == Put(old(headers), key, value)
    {
      headers := Put(headers, key, value);
      self := this;
    }

    /** `withAPIKey(apikey)`: sets `Authorization: apikey <apikey>`, returns this instance. */
    method WithAPIKey(apikey: string) returns (self: GQLHeaders)
      requires Valid()
      modifies this
      ensures Valid()
      ensures self == this
      ensures headers == PutAPIKey(old(headers), apikey)
    {
      var chained := WithHeader(Authorization, "apikey " + apikey);
      self := this;
    }

    /** `withToken(token)`: sets `Authorization: Bearer <token>`, returns this instance. */
    method WithToken(token: string) returns (self: GQLHeaders)
      requires Valid()
      modifies this
      ensures Valid()
      ensures self == this
      ensures headers == PutToken(old(headers), token)
    {
      var chained := WithHeader(Authorization, "Bearer " + token);
      self := this;
    }
  }

  /** What a caller may pass as `headers`: a builder instance, shared by every request that
      receives it, or a zero-argument factory. A factory is modelled by the chain of calls
      it makes on a new GQLHeaders. */
  datatype HeaderSource = Instance(h: GQLHeaders) | Factory(calls: seq<HeaderCall>)

  /** One chained call on a builder. */
  method Perform(h: GQLHeaders, c: HeaderCall)
    requires h.Valid()
    modifies h
    ensures h.Valid()
    ensures h.headers == Apply(old(h.headers), c)
  {
    var chained: GQLHeaders;
    match c
    case WithHeaderCall(key, value) => chained := h.WithHeader(key, value);
    case WithAPIKeyCall(apikey) => chained := h.WithAPIKey(apikey);
    case WithTokenCall(token) => chained := h.WithToken(token);
  }

  /** A chain extended by one call is the shorter chain followed by that call. */
  lemma ChainStep(m: HeaderMap, calls: seq<HeaderCall>, i: nat)
    requires i < |calls|
    ensures Chain(m, calls[..i + 1]) == Apply(Chain(m, calls[..i]), calls[i])
  {
    assert calls[..i + 1][..i] == calls[..i];
  }

  /** Calling a factory: a new builder, then its chain of calls. */
  method Invoke(calls: seq<HeaderCall>) returns (h: GQLHeaders)
    ensures fresh(h) && h.Valid()
    ensures h.headers == Build(calls)
  {
    h := new GQLHeaders();
    var i := 0;
    while i < |calls|
      invariant 0 <= i <= |calls|
      invariant h.Valid()
      invariant h.headers == Chain(DefaultHeaders(), calls[..i])
    {
      ChainStep(DefaultHeaders(), calls, i);
      Perform(h, calls[i]);
      i := i + 1;
    }
    assert calls[..|calls|] == calls;
  }

  /** The header map a request is sent with, given what the caller passed: the instance's
      current map, the map the factory builds, or the default map when nothing was passed. */
  function SentHeaders(headers: Option<HeaderSource>): HeaderMap
    reads if headers.Some? && headers.value.Instance? then {headers.value.h} else {}
  {
    match headers
    case None => DefaultHeaders()
    case Some(Instance(h)) => h.headers
    case Some(Factory(calls)) => Build(calls)
  }

  /** Header-source resolution in `execute`: a factory is invoked once and its new instance
      used; an instance is used as it is; an omitted argument becomes `new GQLHeaders()`. */
  method ResolveHeaders(headers: Option<HeaderSource>) returns (h: GQLHeaders)
    ensures headers.Some? && headers.value.Instance? ==> h == headers.value.h
    ensures headers.Some? && headers.value.Factory? ==> fresh(h) && h.headers == Build(headers.value.calls)
    ensures headers.None? ==> fresh(h) && h.headers == DefaultHeaders()
    ensures h.headers == SentHeaders(headers)
  {
    match headers
    case None =>
      h := new GQLHeaders();
    case Some(Instance(given)) =>
      h := given;
    case Some(Factory(calls)) =>
      h := Invoke(calls);
  }

  // ---------------------------------------------------------------------------
  // Responses and the success check
  // ---------------------------------------------------------------------------

  /** Why a request failed its test. */
  datatype Failure =
    | TransportFailure                          // fetch rejected, or the body was not JSON
    | StatusMismatch(status: int)               // the status was not 200
    | GraphQLErrors(body: Json)                 // the body carried GraphQL errors
    | PayloadMismatch(body: Json, expected: Json) // the payload did not match `expected`

  /** The two assertions of the chai-graphql plugin, left abstract: whether a body carries
      no GraphQL errors, and whether a body matches an expected value. */
  datatype Matcher = Matcher(notGraphQLError: Json -> bool, graphQL: (Json, Json) -> bool)

  /** The condition `expectOK` asserts: the status is checked first, then the body. */
  function SuccessCheck(status: int, body: Json, m: Matcher): (v: Outcome<Failure>)
    ensures v == Pass <==> status == 200 && m.notGraphQLError(body)
    ensures status != 200 ==> v == Fail(StatusMismatch(status))
    ensures status == 200 && !m.notGraphQLError(body) ==> v == Fail(GraphQLErrors(body))
  {
    if status != 200 then Fail(StatusMismatch(status))
    else if !m.notGraphQLError(body) then Fail(GraphQLErrors(body))
    else Pass
  }

  /** GQLResponse: the HTTP status of the fetch response and its body parsed as JSON. */
  class GQLResponse {
    const status: int
    const body: Json

    constructor (status: int, body: Json)
      ensures this.status == status && this.body == body
    {
      this.status := status;
      this.body := body;
    }

    /** `expectOK`: succeeds exactly when the status is 200 and the body has no GraphQL
        errors, and then returns this same response. */
    function ExpectOK(m: Matcher): (r: Result<GQLResponse, Failure>)
      ensures r.Ok? <==> status == 200 && m.notGraphQLError(body)
      ensures r.Ok? ==> r.value == this
      ensures r.Err? ==> SuccessCheck(status, body, m) == Fail(r.error)
    {
      match SuccessCheck(status, body, m)
      case Pass => Ok(this)
      case Fail(e) => Err(e)
    }
  }

  // ---------------------------------------------------------------------------
  // Test context, execution and the failure log
  // ---------------------------------------------------------------------------

  /** A point in time, in milliseconds. */
  type Time = int

  /** Mocha's `currentTest.state` as the after-each hook sees it. */
  datatype TestState = Passed | Failed | Pending | NoState

  /** One diagnostic line of the failure log. */
  datatype LogItem =
    | StartTime(at: Time)
    | EndTime(at: Time)
    | HttpStatus(code: int)
    | HttpResponse(body: Json)

  /** The position of each kind of line in the log. */
  function Rank(item: LogItem): nat {
    match item
    case StartTime(_) => 0
    case EndTime(_) => 1
    case HttpStatus(_) => 2
    case HttpResponse(_) => 3
  }

  /** The test context: the fields `execute` records for the after-each hook, and the
      state the runner gives the test. */
  class TestContext {
    var gqlStart: Option<Time>
    var gqlResponse: Option<GQLResponse>
    var state: TestState

    constructor ()
      ensures gqlStart == None && gqlResponse == None && state == NoState
    {
      gqlStart := None;
      gqlResponse := None;
      state := NoState;
    }

    /** `logOnFail`, run at time `now`: nothing for a passed test; otherwise the start and
        end times when a start was recorded, then the status and the body when a response
        was recorded, in that order and each once. */
    function LogOnFail(now: Time): (items: seq<LogItem>)
      reads this
      ensures state == Passed ==> items == []
      ensures forall item :: item in items <==>
        && state != Passed
        && ((gqlStart.Some? && (item == StartTime(gqlStart.value) || item == EndTime(now)))
            || (gqlResponse.Some? && (item == HttpStatus(gqlResponse.value.status)
                                      || item == HttpResponse(gqlResponse.value.body))))
      ensures forall i, j :: 0 <= i < j < |items| ==> Rank(items[i]) < Rank(items[j])
    {
      if state == Passed then []
      else
        (if gqlStart.Some? then [StartTime(gqlStart.value), EndTime(now)] else [])
        + (if gqlResponse.Some? then [HttpStatus(gqlResponse.value.status), HttpResponse(gqlResponse.value.body)] else [])
    }
  }

  /** A request as handed to the transport. */
  datatype HttpRequest = HttpRequest(endpoint: string, httpMethod: string, headers: HeaderMap, body: Json)

  /** What the transport gives back: a rejection, or a status with a JSON body. */
  datatype FetchOutcome = NetworkError | Reply(status: int, body: Json)

  const DefaultMethod := "POST"

  /** `execute`: resolves the headers, records the start time, sends the request and, when
      a reply arrives, records the new GQLResponse in the context and returns that same
      object. A rejected request leaves the recorded response as it was. */
  method Execute(test: TestContext, endpoint: string, request: Json, httpMethod: Option<string>,
                 headers: Option<HeaderSource>, now: Time, server: HttpRequest -> FetchOutcome)
    returns (r: Result<GQLResponse, Failure>)
    modifies test
    ensures test.gqlStart == Some(now)
    ensures test.state == old(test.state)
    ensures var reply := server(HttpRequest(endpoint, httpMethod.GetOr(DefaultMethod), old(SentHeaders(headers)), request));
      match reply
      case NetworkError =>
        r == Err(TransportFailure) && test.gqlResponse == old(test.gqlResponse)
      case Reply(status, body) =>
        && r.Ok? && fresh(r.value)
        && r.value.status == status && r.value.body == body
        && test.gqlResponse == Some(r.value)
  {
    var h := ResolveHeaders(headers);
    test.gqlStart := Some(now);
    var reply := server(HttpRequest(endpoint, httpMethod.GetOr(DefaultMethod), h.headers, request));
    match reply
    case NetworkError =>
      r := Err(TransportFailure);
    case Reply(status, body) =>
      var response := new GQLResponse(status, body);
      test.gqlResponse := Some(response);
      r := Ok(test.gqlResponse.value);
  }

  /** The verdict of `executeOK` on a reply: `expectOK` always runs first; the comparison
      with `expected` runs only when `expected` is truthy. */
  function Verdict(reply: FetchOutcome, expected: Option<Json>, m: Matcher): (v: Outcome<Failure>)
    ensures v == Pass <==>
      && reply.Reply? && reply.status == 200 && m.notGraphQLError(reply.body)
      && (Present(expected) ==> m.graphQL(reply.body, expected.value))
    ensures reply.NetworkError? ==> v == Fail(TransportFailure)
    ensures reply.Reply? && SuccessCheck(reply.status, reply.body, m).Fail? ==>
      v == SuccessCheck(reply.status, reply.body, m)
    ensures reply.Reply? && SuccessCheck(reply.status, reply.body, m) == Pass && v.Fail? ==>
      Present(expected) && v == Fail(PayloadMismatch(reply.body, expected.value))
  {
    match reply
    case NetworkError => Fail(TransportFailure)
    case Reply(status, body) =>
      match SuccessCheck(status, body, m)
      case Fail(e) => Fail(e)
      case Pass =>
        if Present(expected) && !m.graphQL(body, expected.value)
        then Fail(PayloadMismatch(body, expected.value))
        else Pass
  }

  /** Without a truthy `expected` the payload matcher is never consulted: the verdict is
      that of the success check alone, whatever the matcher would say. */
  lemma ComparisonSkippedWithoutExpected(reply: FetchOutcome, expected: Option<Json>, m: Matcher,
                                         other: (Json, Json) -> bool)
    requires !Present(expected)
    ensures Verdict(reply, expected, m) == Verdict(reply, None, Matcher(m.notGraphQLError, other))
    ensures reply.Reply? ==>
      Verdict(reply, expected, m) == SuccessCheck(reply.status, reply.body, m)
  {
  }

  /** The success check comes before the comparison: when it fails, neither `expected` nor
      the payload matcher affects the verdict. */
  lemma SuccessCheckedFirst(reply: FetchOutcome, expected: Option<Json>, m: Matcher,
                            other: (Json, Json) -> bool)
    requires reply.Reply? && SuccessCheck(reply.status, reply.body, m).Fail?
    ensures Verdict(reply, expected, m) == Verdict(reply, None, Matcher(m.notGraphQLError, other))
  {
  }

  /** `executeOK`: `execute`, then `expectOK` on the response, then, only when `expected`
      is truthy, the payload comparison. */
  method ExecuteOK(test: TestContext, endpoint: string, request: Json, httpMethod: Option<string>,
                   headers: Option<HeaderSource>, expected: Option<Json>, m: Matcher, now: Time,
                   server: HttpRequest -> FetchOutcome)
    returns (r: Result<GQLResponse, Failure>)
    modifies test
    ensures test.gqlStart == Some(now)
    ensures test.state == old(test.state)
    ensures var reply := server(HttpRequest(endpoint, httpMethod.GetOr(DefaultMethod), old(SentHeaders(headers)), request));
      && (r.Ok? <==> Verdict(reply, expected, m) == Pass)
      && (r.Err? ==> Verdict(reply, expected, m) == Fail(r.error))
      && (reply.NetworkError? ==> test.gqlResponse == old(test.gqlResponse))
      && (reply.Reply? ==> && test.gqlResponse.Some? && fresh(test.gqlResponse.value)
                           && test.gqlResponse.value.status == reply.status
                           && test.gqlResponse.value.body == reply.body)
      && (r.Ok? ==> reply.Reply? && test.gqlResponse == Some(r.value))
  {
    var source: HeaderSource;
    if headers.None? {
      var defaults := new GQLHeaders();
      source := Instance(defaults);
    } else {
      source := headers.value;
    }
    var executed := Execute(test, endpoint, request, Some(httpMethod.GetOr(DefaultMethod)), Some(source), now, server);
    match executed
    case Err(e) =>
      r := Err(e);
    case Ok(response) =>
      match response.ExpectOK(m)
      case Err(e) =>
        r := Err(e);
      case Ok(checked) =>
        if Present(expected) && !m.graphQL(checked.body, expected.value) {
          r := Err(PayloadMismatch(checked.body, expected.value));
        } else {
          r := Ok(checked);
        }
  }

  // ---------------------------------------------------------------------------
  // Table-driven tests
  // ---------------------------------------------------------------------------

  /** A test descriptor; `None` is an absent (undefined) field. */
  datatype Descriptor = Descriptor(
    testLabel: Option<string>,
    name: Option<string>,
    request: Option<Json>,
    documentId: Option<Json>,
    query: Option<Json>,
    variables: Option<Json>,
    operationName: Option<Json>,
    expected: Option<Json>)

  /** A field that is present and truthy. */
  predicate Present(v: Option<Json>) {
    v.Some? && Truthy(v.value)
  }

  /** A title that is present and non-empty (a truthy string). */
  predicate Named(s: Option<string>) {
    s.Some? && s.value != ""
  }

  /** The test title: `label`, or `name` when `label` is falsy. */
  function TestTitle(d: Descriptor): (title: Option<string>)
    ensures Named(d.testLabel) ==> title == d.testLabel
    ensures !Named(d.testLabel) ==> title == d.name
  {
    if Named(d.testLabel) then d.testLabel else d.name
  }

  /** `label` and `name` are aliases: the same string under either gives the same title. */
  lemma LabelNameAlias(d: Descriptor, title: string)
    requires title != "" && d.testLabel.None?
    ensures TestTitle(d.(name := Some(title))) == TestTitle(d.(testLabel := Some(title)))
  {
  }

  /** The keys the flattened request fields are sent under. */
  const RequestKeys: set<string> := {"documentId", "query", "operationName", "variables"}

  /** The flattened descriptor field sent under a request key. */
  function RequestField(d: Descriptor, key: string): Option<Json> {
    if key == "documentId" then d.documentId
    else if key == "query" then d.query
    else if key == "operationName" then d.operationName
    else if key == "variables" then d.variables
    else None
  }

  /** The request a descriptor's test sends: `request` verbatim when it is truthy;
      otherwise an object holding exactly the truthy flattened fields, under their own
      names, and no other key. */
  function EffectiveRequest(d: Descriptor): (r: Json)
    ensures Present(d.request) ==> r == d.request.value
    ensures !Present(d.request) ==> r.JObject?
    ensures !Present(d.request) ==> forall key :: key in r.fields <==> key in RequestKeys && Present(RequestField(d, key))
    ensures !Present(d.request) ==> forall key :: key in r.fields ==> Some(r.fields[key]) == RequestField(d, key)
  {
    if Present(d.request) then d.request.value
    else JObject(map key | key in RequestKeys && Present(RequestField(d, key)) :: RequestField(d, key).value)
  }

  /** Precedence law: a truthy `request` makes the flattened fields irrelevant. */
  lemma RequestTakesPrecedence(d: Descriptor, documentId: Option<Json>, query: Option<Json>,
                               variables: Option<Json>, operationName: Option<Json>)
    requires Present(d.request)
    ensures EffectiveRequest(d.(documentId := documentId, query := query, variables := variables,
                                operationName := operationName)) == d.request.value
  {
  }

  /** The request assembly of `runtests`: `request` when truthy, else an object built up
      one truthy field at a time. */
  method BuildRequest(d: Descriptor) returns (request: Json)
    ensures request == EffectiveRequest(d)
  {
    if Present(d.request) {
      request := d.request.value;
    } else {
      var fields: map<string, Json> := map[];
      if Present(d.documentId) {
        fields := fields["documentId" := d.documentId.value];
      }
      if Present(d.query) {
        fields := fields["query" := d.query.value];
      }
      if Present(d.operationName) {
        fields := fields["operationName" := d.operationName.value];
      }
      if Present(d.variables) {
        fields := fields["variables" := d.variables.value];
      }
      ghost var assembled := EffectiveRequest(d).fields;
      assert forall key :: key in fields <==> key in assembled;
      assert forall key :: key in fields ==> fields[key] == assembled[key];
      request := JObject(fields);
    }
  }

  /** A test as registered with the runner. */
  datatype RegisteredTest = RegisteredTest(title: Option<string>, request: Json, expected: Option<Json>)

  /** What `runtests` registers for one descriptor. */
  function Expand(d: Descriptor): RegisteredTest {
    RegisteredTest(TestTitle(d), EffectiveRequest(d), d.expected)
  }

  /** The after-each hook `runtests` installs (`afterEach('log-failure', logOnFail)`). */
  datatype Hook = LogFailure

  /** A registered `describe` group. */
  datatype Suite = Suite(suiteLabel: string, endpoint: string, headers: Option<HeaderSource>,
                         afterEach: seq<Hook>, tests: seq<RegisteredTest>)

  /** `runtests`: one group named `label` with the failure-log hook, holding exactly one test
      per descriptor, in list order, each sending to `endpoint` with `headers`. */
  method RunTests(suiteLabel: string, endpoint: string, headers: Option<HeaderSource>, tests: seq<Descriptor>)
    returns (suite: Suite)
    ensures suite.suiteLabel == suiteLabel && suite.endpoint == endpoint && suite.headers == headers
    ensures suite.afterEach == [LogFailure]
    ensures |suite.tests| == |tests|
    ensures forall i :: 0 <= i < |tests| ==> suite.tests[i] == Expand(tests[i])
  {
    var registered: seq<RegisteredTest> := [];
    var i := 0;
    while i < |tests|
      invariant 0 <= i <= |tests|
      invariant |registered| == i
      invariant forall k :: 0 <= k < i ==> registered[k] == Expand(tests[k])
    {
      var d := tests[i];
      var title := d.testLabel;
      if !Named(title) {
        title := d.name;
      }
      var request := BuildRequest(d);
      registered := registered + [RegisteredTest(title, request, d.expected)];
      i := i + 1;
    }
    suite := Suite(suiteLabel, endpoint, headers, [LogFailure], registered);
  }

  /** The body of a registered test: `executeOK` with the group's endpoint and headers and the
      test's request and expected value. */
  method RunTest(suite: Suite, t: RegisteredTest, test: TestContext, m: Matcher, now: Time,
                 server: HttpRequest -> FetchOutcome)
    returns (r: Result<GQLResponse, Failure>)
    modifies test
    ensures test.gqlStart == Some(now)
    ensures test.state == old(test.state)
    ensures var reply := server(HttpRequest(suite.endpoint, DefaultMethod, old(SentHeaders(suite.headers)), t.request));
      && (r.Ok? <==> Verdict(reply, t.expected, m) == Pass)
      && (r.Err? ==> Verdict(reply, t.expected, m) == Fail(r.error))
      && (reply.NetworkError? ==> test.gqlResponse == old(test.gqlResponse))
      && (reply.Reply? ==> && test.gqlResponse.Some? && fresh(test.gqlResponse.value)
                           && test.gqlResponse.value.status == reply.status
                           && test.gqlResponse.value.body == reply.body)
      && (r.Ok? ==> reply.Reply? && test.gqlResponse == Some(r.value))
  {
    r := ExecuteOK(test, suite.endpoint, t.request, None, suite.headers, t.expected, m, now, server);
  }

  /** A registered test that receives a reply and fails: once the runner marks it failed,
      the failure log shows the start and end times and that reply's status and body. */
  method FailedTestIsLogged(suite: Suite, t: RegisteredTest, m: Matcher, start: Time, end: Time,
                            server: HttpRequest -> FetchOutcome)
    returns (r: Result<GQLResponse, Failure>, items: seq<LogItem>)
    ensures var reply := server(HttpRequest(suite.endpoint, DefaultMethod, SentHeaders(suite.headers), t.request));
      reply.Reply? && r.Err? ==>
        && StartTime(start) in items && EndTime(end) in items
        && HttpStatus(reply.status) in items && HttpResponse(reply.body) in items
    ensures r.Ok? ==> items == []
  {
    var test := new TestContext();
    r := RunTest(suite, t, test, m, start, server);
    test.state := if r.Ok? then Passed else Failed;
    items := test.LogOnFail(end);
  }
}
