/** The StepZen helpers of packages/gqltest/stepzen.js: three header factories built on
    GQLHeaders, and the introspection test table. The admin key and the API key, which the
    module reads from the StepZen command-line tool when it loads, are parameters here. */
module StepZen {
  import opened Wrappers
  import opened Json
  import opened GQLTest

  /** `admin`: each call builds the default headers plus `Authorization: apikey <adminKey>`. */
  function Admin(adminKey: string): (f: HeaderSource)
    ensures f.Factory?
    ensures Build(f.calls) == map["content-type" := JsonMediaType, "authorization" := "apikey " + adminKey]
  {
    var calls := [WithAPIKeyCall(adminKey)];
    assert Chain(DefaultHeaders(), calls[..0]) == DefaultHeaders();
    assert Build(calls) == PutAPIKey(DefaultHeaders(), adminKey);
    Factory(calls)
  }

  /** `regular`: each call builds the default headers plus `Authorization: apikey <apiKey>`. */
  function Regular(apiKey: string): (f: HeaderSource)
    ensures f.Factory?
    ensures Build(f.calls) == map["content-type" := JsonMediaType, "authorization" := "apikey " + apiKey]
  {
    var calls := [WithAPIKeyCall(apiKey)];
    assert Chain(DefaultHeaders(), calls[..0]) == DefaultHeaders();
    assert Build(calls) == PutAPIKey(DefaultHeaders(), apiKey);
    Factory(calls)
  }

  /** `public`: each call builds exactly what a new builder holds, with no Authorization. */
  function Public(): (f: HeaderSource)
    ensures f.Factory?
    ensures Build(f.calls) == DefaultHeaders()
    ensures Get(Build(f.calls), Authorization) == None
    ensures Get(Build(f.calls), ContentType) == Some(JsonMediaType)
  {
    Factory([])
  }

  /** Two calls of a factory give two separate instances: a header added through the first
      leaves the second exactly as the factory built it. */
  method CallsAreIndependent(f: HeaderSource, token: string) returns (first: HeaderMap, second: HeaderMap)
    requires f.Factory?
    ensures first == PutToken(Build(f.calls), token)
    ensures second == Build(f.calls)
  {
    var a := Invoke(f.calls);
    var b := Invoke(f.calls);
    var chained := a.WithToken(token);
    first, second := a.headers, b.headers;
  }

  /** `introspectionTests`: one test, requesting the federation service SDL, with no
      expected value. */
  const IntrospectionTests: seq<Descriptor> := [
    Descriptor(
      testLabel := Some("federation-service"),
      name := None,
      request := None,
      documentId := None,
      query := Some(JString("{_service { sdl }}")),
      variables := None,
      operationName := None,
      expected := None)
  ]

  /** The table expands to one test titled `federation-service` whose request carries only
      the query. */
  lemma IntrospectionTable()
    ensures |IntrospectionTests| == 1
    ensures Expand(IntrospectionTests[0]) ==
      RegisteredTest(Some("federation-service"), JObject(map["query" := JString("{_service { sdl }}")]), None)
  {
    var fields := EffectiveRequest(IntrospectionTests[0]).fields;
    assert forall key :: key in fields <==> key == "query";
  }

  /** Having no expected value, the introspection test passes exactly when the success
      check does. */
  lemma IntrospectionChecksSuccessOnly(reply: FetchOutcome, m: Matcher)
    ensures Verdict(reply, Expand(IntrospectionTests[0]).expected, m) == Pass <==>
      reply.Reply? && reply.status == 200 && m.notGraphQLError(reply.body)
  {
  }
}
