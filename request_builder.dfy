/** The HTTP request builder: a `RequestBuilder` accumulates a method, an
    endpoint, a header map and a payload map, and `Build` turns them into a
    `Request` and starts over. A `Director` drives a fixed GET recipe and a
    fixed POST recipe through a builder.

    The builder's four fields, taken together as a `Draft` value, are specified
    by pure transition functions; every method of the class is proved to move
    its fields exactly as the matching function says. */
module RequestBuilding {
  import opened Wrappers

  /** A built request. `method` is `None` when the builder's method was never
      set: the source stores the builder's `Optional[str]` as it is. */
  datatype Request = Request(
    httpMethod: Option<string>,
    endpoint: string,
    headers: map<string, string>,
    payload: map<string, string>)

  /** `build` raises `ValueError` when no endpoint is set. */
  datatype BuildError = EndpointNotSet

  /** The four fields of a builder, as a value. */
  datatype Draft = Draft(
    httpMethod: Option<string>,
    endpoint: Option<string>,
    headers: map<string, string>,
    payload: map<string, string>)

  /** The result of `build` together with the builder's fields afterwards. */
  datatype BuildStep = BuildStep(result: Result<Request, BuildError>, next: Draft)

  /** Python truthiness of an optional string: neither `None` nor `""`. */
  predicate Truthy(s: Option<string>)
  {
    s.Some? && s.value != ""
  }

  /** The state of a new or just-reset builder. */
  function EmptyDraft(): (d: Draft)
    ensures d.httpMethod.None? && d.endpoint.None?
    ensures d.headers == map[] && d.payload == map[]
  {
    Draft(None, None, map[], map[])
  }

  /** `method or "GET"`: the method a builder stores for the argument `m`. */
  function MethodOrGet(m: Option<string>): (r: string)
    ensures r != ""
    ensures Truthy(m) ==> r == m.value
    ensures !Truthy(m) ==> r == "GET"
  {
    if Truthy(m) then m.value else "GET"
  }

  /** `dict.update`: the keys of `update` take its values, every other key of
      `current` keeps its value, and no other key appears. */
  function Updated(current: map<string, string>, update: map<string, string>): (r: map<string, string>)
    ensures r.Keys == current.Keys + update.Keys
    ensures forall k | k in update :: r[k] == update[k]
    ensures forall k | k in current && k !in update :: r[k] == current[k]
  {
    current + update
  }

  /** `set_method`: stores a non-empty method and touches nothing else. */
  function WithMethod(d: Draft, m: Option<string>): (r: Draft)
    ensures r.httpMethod.Some? && r.httpMethod.value != ""
    ensures Truthy(m) ==> r.httpMethod == m
    ensures !Truthy(m) ==> r.httpMethod == Some("GET")
    ensures r.endpoint == d.endpoint && r.headers == d.headers && r.payload == d.payload
  {
    d.(httpMethod := Some(MethodOrGet(m)))
  }

  /** `set_endpoint`: stores the endpoint and touches nothing else. */
  function WithEndpoint(d: Draft, e: string): (r: Draft)
    ensures r.endpoint == Some(e)
    ensures r.httpMethod == d.httpMethod && r.headers == d.headers && r.payload == d.payload
  {
    d.(endpoint := Some(e))
  }

  /** `set_headers`: merges into the headers and touches nothing else. */
  function WithHeaders(d: Draft, h: map<string, string>): (r: Draft)
    ensures r.headers.Keys == d.headers.Keys + h.Keys
    ensures forall k | k in h :: r.headers[k] == h[k]
    ensures forall k | k in d.headers && k !in h :: r.headers[k] == d.headers[k]
    ensures r.httpMethod == d.httpMethod && r.endpoint == d.endpoint && r.payload == d.payload
  {
    d.(headers := Updated(d.headers, h))
  }

  /** `set_payload`: merges into the payload and touches nothing else. */
  function WithPayload(d: Draft, p: map<string, string>): (r: Draft)
    ensures r.payload.Keys == d.payload.Keys + p.Keys
    ensures forall k | k in p :: r.payload[k] == p[k]
    ensures forall k | k in d.payload && k !in p :: r.payload[k] == d.payload[k]
    ensures r.httpMethod == d.httpMethod && r.endpoint == d.endpoint && r.headers == d.headers
  {
    d.(payload := Updated(d.payload, p))
  }

  /** `build`: without a truthy endpoint it raises before resetting, so the
      fields stay as they were; otherwise it returns the accumulated request
      and the builder starts over. */
  function Finish(d: Draft): (r: BuildStep)
    ensures r.result.Failure? <==> !Truthy(d.endpoint)
    ensures r.result.Failure? ==> r.next == d
    ensures r.result.Success? ==>
      && r.result.value.httpMethod == d.httpMethod
      && Some(r.result.value.endpoint) == d.endpoint
      && r.result.value.endpoint != ""
      && r.result.value.headers == d.headers
      && r.result.value.payload == d.payload
      && r.next == EmptyDraft()
  {
    if !Truthy(d.endpoint) then BuildStep(Failure(EndpointNotSet), d)
    else BuildStep(Success(Request(d.httpMethod, d.endpoint.value, d.headers, d.payload)), EmptyDraft())
  }

  /** Two `set_headers` calls in a row have the effect of one call with the
      second map merged over the first. */
  lemma HeaderUpdatesAccumulate(d: Draft, h1: map<string, string>, h2: map<string, string>)
    ensures WithHeaders(WithHeaders(d, h1), h2) == WithHeaders(d, Updated(h1, h2))
  {
  }

  /** A successful build leaves nothing behind: building again right away
      fails, because the endpoint was cleared. */
  lemma BuildTwiceFails(d: Draft)
    requires Finish(d).result.Success?
    ensures Finish(Finish(d).next) == BuildStep(Failure(EndpointNotSet), EmptyDraft())
  {
  }

  /** What `Director.get_request(e)` does to a builder in any state: it sets
      the method to GET and the endpoint to `e`, then builds with whatever
      headers and payload the builder had accumulated. When `e` is empty the
      build raises and the two setters' effects remain. */
  lemma GetRecipe(d: Draft, e: string)
    ensures var step := Finish(WithEndpoint(WithMethod(d, Some("GET")), e));
      if e == "" then
        step == BuildStep(Failure(EndpointNotSet), d.(httpMethod := Some("GET"), endpoint := Some("")))
      else
        step == BuildStep(Success(Request(Some("GET"), e, d.headers, d.payload)), EmptyDraft())
  {
  }

  /** `Director.get_request(e)` on a new or reset builder. */
  lemma GetFromEmpty(e: string)
    requires e != ""
    ensures Finish(WithEndpoint(WithMethod(EmptyDraft(), Some("GET")), e)).result
         == Success(Request(Some("GET"), e, map[], map[]))
  {
    GetRecipe(EmptyDraft(), e);
  }

  /** What `Director.post_request(e, h, p)` does to a builder in any state. */
  lemma PostRecipe(d: Draft, e: string, h: map<string, string>, p: map<string, string>)
    ensures var step := Finish(WithPayload(WithHeaders(WithEndpoint(WithMethod(d, Some("POST")), e), h), p));
      if e == "" then
        && step.result == Failure(EndpointNotSet)
        && step.next == Draft(Some("POST"), Some(""), Updated(d.headers, h), Updated(d.payload, p))
      else
        && step.result == Success(Request(Some("POST"), e, Updated(d.headers, h), Updated(d.payload, p)))
        && step.next == EmptyDraft()
  {
  }

  /** `Director.post_request(e, h, p)` on a new or reset builder yields exactly
      `Request("POST", e, h, p)`. */
  lemma PostFromEmpty(e: string, h: map<string, string>, p: map<string, string>)
    requires e != ""
    ensures Finish(WithPayload(WithHeaders(WithEndpoint(WithMethod(EmptyDraft(), Some("POST")), e), h), p)).result
         == Success(Request(Some("POST"), e, h, p))
  {
    PostRecipe(EmptyDraft(), e, h, p);
    assert Updated(map[], h) == h;
    assert Updated(map[], p) == p;
  }

  /** The stateful builder. Each setter returns the builder itself, so calls
      can be chained. */
  class RequestBuilder {
    var httpMethod: Option<string>
    var endpoint: Option<string>
    var headers: map<string, string>
    var payload: map<string, string>

    /** The builder's fields as a value. */
    function Current(): (d: Draft)
      reads this
    {
      Draft(httpMethod, endpoint, headers, payload)
    }

    constructor ()
      ensures Current() == EmptyDraft()
    {
      httpMethod, endpoint, headers, payload := None, None, map[], map[];
    }

    method Reset()
      modifies this
      ensures Current() == EmptyDraft()
    {
      httpMethod, endpoint, headers, payload := None, None, map[], map[];
    }

    method SetMethod(m: Option<string>) returns (self: RequestBuilder)
      modifies this
      ensures self == this
      ensures Current() == WithMethod(old(Current()), m)
    {
      httpMethod := Some(if m.Some? && m.value != "" then m.value else "GET");
      self := this;
    }

    method SetEndpoint(e: string) returns (self: RequestBuilder)
      modifies this
      ensures self == this
      ensures Current() == WithEndpoint(old(Current()), e)
    {
      endpoint := Some(e);
      self := this;
    }

    method SetHeaders(h: map<string, string>) returns (self: RequestBuilder)
      modifies this
      ensures self == this
      ensures Current() == WithHeaders(old(Current()), h)
    {
      headers := headers + h;
      self := this;
    }

    method SetPayload(p: map<string, string>) returns (self: RequestBuilder)
      modifies this
      ensures self == this
      ensures Current() == WithPayload(old(Current()), p)
    {
      payload := payload + p;
      self := this;
    }

    method Build() returns (r: Result<Request, BuildError>)
      modifies this
      ensures r == Finish(old(Current())).result
      ensures Current() == Finish(old(Current())).next
    {
      if endpoint.None? || endpoint.value == "" {
        return Failure(EndpointNotSet);
      }
      r := Success(Request(httpMethod, endpoint.value, headers, payload));
      Reset();
    }
  }

  /** Drives the two fixed recipes through one builder. */
  class Director {
    const builder: RequestBuilder

    constructor (builder: RequestBuilder)
      ensures this.builder == builder
    {
      this.builder := builder;
    }

    method GetRequest(e: string) returns (r: Result<Request, BuildError>)
      modifies builder
      ensures var step := Finish(WithEndpoint(WithMethod(old(builder.Current()), Some("GET")), e));
        r == step.result && builder.Current() == step.next
    {
      var b := builder.SetMethod(Some("GET"));
      b := b.SetEndpoint(e);
      r := b.Build();
    }

    method PostRequest(e: string, h: map<string, string>, p: map<string, string>)
      returns (r: Result<Request, BuildError>)
      modifies builder
      ensures var step := Finish(WithPayload(WithHeaders(WithEndpoint(
                WithMethod(old(builder.Current()), Some("POST")), e), h), p));
        r == step.result && builder.Current() == step.next
    {
      var b := builder.SetMethod(Some("POST"));
      b := b.SetEndpoint(e);
      b := b.SetHeaders(h);
      b := b.SetPayload(p);
      r := b.Build();
    }
  }
}
