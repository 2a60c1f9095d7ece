/**
 * The descriptor compiler (`parse` in src/index.js). It turns the REST part
 * of a service description into one router per allowed audience type. An
 * Express router is modelled by the ordered list of registrations made on it,
 * and each `console.warn` call by one string of the returned warning list.
 * Handler functions are opaque: the compiler only looks them up by name, so
 * their type is the type parameter H.
 */
module RouterDescription {
  import opened ParameterCheck

  /** The methods a route may be registered for, compared exactly (no case folding). */
  const ALLOWED_HTTP_METHODS: seq<string> := ["GET", "POST", "PUT", "DELETE", "PATCH"]

  /** One endpoint spec; `audience` is the spec's `type` field. */
  datatype Endpoint = Endpoint(
    httpMethod: string,
    audience: string,
    handlingFunction: string,
    description: string,
    parameters: Parameters)

  /** The REST part of a service description: a path prefix and, per path suffix, its endpoint specs. */
  datatype RestApi = RestApi(pathPrefix: string, endpoints: seq<(string, seq<Endpoint>)>)

  /**
   * `router[verb](path, [parameterCheckHandler(guard), handler])`: the route's
   * lower-case Express verb, its full path, the schema its guard closes over,
   * and the handler that runs after the guard.
   */
  datatype Registration<H> = Registration(verb: string, path: string, guard: Parameters, handler: H)

  /** What one endpoint spec leads to: a registration on the router of its type, or one warning. */
  datatype Outcome<H> = Registered(audience: string, registration: Registration<H>) | Warned(message: string)

  function LowerChar(c: char): char
  {
    if 'A' <= c <= 'Z' then (c as int - 'A' as int + 'a' as int) as char else c
  }

  /** `toLowerCase`, which the compiler only applies to the ASCII method names it allows. */
  function ToLower(s: string): string
  {
    seq(|s|, i requires 0 <= i < |s| => LowerChar(s[i]))
  }

  function TypeNotValidMessage(e: Endpoint, uri: string): string
  {
    "Type not valid for endpoint with method " + e.httpMethod + " and URI " + uri
  }

  function HandlerMissingMessage(e: Endpoint, uri: string): string
  {
    "Can't find handler function '" + e.handlingFunction + "' for endpoint with method " + e.httpMethod + " and URI " + uri
  }

  function MethodNotAllowedMessage(e: Endpoint, uri: string): string
  {
    "Method not allowed for endpoint with method " + e.httpMethod + " and URI " + uri
  }

  /**
   * The decision made for one spec under path suffix `key`: the type check,
   * then the handler check, then the method check; the first that fails
   * gives the warning.
   */
  function Classify<H>(pathPrefix: string, key: string, e: Endpoint, allowedTypes: seq<string>,
                       handlers: map<string, H>): Outcome<H>
  {
    var uri := pathPrefix + key;
    if e.audience !in allowedTypes then Warned(TypeNotValidMessage(e, uri))
    else if e.handlingFunction !in handlers then Warned(HandlerMissingMessage(e, uri))
    else if e.httpMethod in ALLOWED_HTTP_METHODS then
      Registered(e.audience, Registration(ToLower(e.httpMethod), uri, e.parameters, handlers[e.handlingFunction]))
    else Warned(MethodNotAllowedMessage(e, uri))
  }

  /** The specs of one path suffix, each paired with that suffix. */
  function Pairs(entry: (string, seq<Endpoint>)): seq<(string, Endpoint)>
  {
    seq(|entry.1|, i requires 0 <= i < |entry.1| => (entry.0, entry.1[i]))
  }

  /** Every (suffix, spec) pair in the order the compiler visits them. */
  function Flatten(endpoints: seq<(string, seq<Endpoint>)>): seq<(string, Endpoint)>
  {
    if endpoints == [] then []
    else Flatten(endpoints[..|endpoints| - 1]) + Pairs(endpoints[|endpoints| - 1])
  }

  /** The outcomes of the visited pairs, in visiting order. */
  function Outcomes<H>(pathPrefix: string, items: seq<(string, Endpoint)>, allowedTypes: seq<string>,
                       handlers: map<string, H>): (os: seq<Outcome<H>>)
    ensures |os| == |items|
  {
    if items == [] then []
    else
      var last := items[|items| - 1];
      Outcomes(pathPrefix, items[..|items| - 1], allowedTypes, handlers) +
        [Classify(pathPrefix, last.0, last.1, allowedTypes, handlers)]
  }

  /** The outcomes of a whole description. */
  function Compile<H>(api: RestApi, allowedTypes: seq<string>, handlers: map<string, H>): seq<Outcome<H>>
  {
    Outcomes(api.pathPrefix, Flatten(api.endpoints), allowedTypes, handlers)
  }

  /** The warnings among the outcomes, in order. */
  function Warnings<H>(os: seq<Outcome<H>>): seq<string>
  {
    if os == [] then []
    else
      var last := os[|os| - 1];
      Warnings(os[..|os| - 1]) + (if last.Warned? then [last.message] else [])
  }

  /** The registrations made on the router of type t, in order. */
  function RouterFor<H>(os: seq<Outcome<H>>, t: string): seq<Registration<H>>
  {
    if os == [] then []
    else
      var last := os[|os| - 1];
      RouterFor(os[..|os| - 1], t) + (if last.Registered? && last.audience == t then [last.registration] else [])
  }

  /** All registrations, on whichever router. */
  function Registrations<H>(os: seq<Outcome<H>>): seq<Registration<H>>
  {
    if os == [] then []
    else
      var last := os[|os| - 1];
      Registrations(os[..|os| - 1]) + (if last.Registered? then [last.registration] else [])
  }

  /**
   * `parse(restApiJson, allowedTypes, routeHandlers)`: one router per allowed
   * type, holding the registrations of the specs of that type that pass all
   * three checks, in visiting order, and one warning per rejected spec.
   */
  method Parse<H>(api: RestApi, allowedTypes: seq<string>, handlers: map<string, H>)
    returns (routers: map<string, seq<Registration<H>>>, warnings: seq<string>)
    ensures routers.Keys == set t | t in allowedTypes
    ensures forall t :: t in routers ==> routers[t] == RouterFor(Compile(api, allowedTypes, handlers), t)
    ensures warnings == Warnings(Compile(api, allowedTypes, handlers))
  {
    routers := NewRouters<H>(allowedTypes);
    warnings := [];
    ghost var os: seq<Outcome<H>> := [];
    for k := 0 to |api.endpoints|
      invariant os == Outcomes(api.pathPrefix, Flatten(api.endpoints[..k]), allowedTypes, handlers)
      invariant routers.Keys == set t | t in allowedTypes
      invariant forall t :: t in routers ==> routers[t] == RouterFor(os, t)
      invariant warnings == Warnings(os)
    {
      routers, warnings := VisitPath(api.pathPrefix, api.endpoints[k].0, api.endpoints[k].1,
                                     allowedTypes, handlers, routers, warnings, os);
      FlattenPrefix(api.endpoints, k);
      OutcomesAppend(api.pathPrefix, Flatten(api.endpoints[..k]), Pairs(api.endpoints[k]), allowedTypes, handlers);
      os := os + Outcomes(api.pathPrefix, Pairs(api.endpoints[k]), allowedTypes, handlers);
    }
    assert api.endpoints[..|api.endpoints|] == api.endpoints;
  }

  /** The inner loop of `parse`: visit the specs listed under one path suffix, in order. */
  method VisitPath<H>(pathPrefix: string, key: string, specs: seq<Endpoint>, allowedTypes: seq<string>,
                      handlers: map<string, H>, routers: map<string, seq<Registration<H>>>, warnings: seq<string>,
                      ghost os: seq<Outcome<H>>)
    returns (routers': map<string, seq<Registration<H>>>, warnings': seq<string>)
    requires routers.Keys == set t | t in allowedTypes
    requires forall t :: t in routers ==> routers[t] == RouterFor(os, t)
    requires warnings == Warnings(os)
    ensures routers'.Keys == routers.Keys
    ensures forall t :: t in routers' ==>
              routers'[t] == RouterFor(os + Outcomes(pathPrefix, Pairs((key, specs)), allowedTypes, handlers), t)
    ensures warnings' == Warnings(os + Outcomes(pathPrefix, Pairs((key, specs)), allowedTypes, handlers))
  {
    routers', warnings' := routers, warnings;
    ghost var cur := os;
    for j := 0 to |specs|
      invariant cur == os + Outcomes(pathPrefix, Pairs((key, specs))[..j], allowedTypes, handlers)
      invariant routers'.Keys == routers.Keys
      invariant forall t :: t in routers' ==> routers'[t] == RouterFor(cur, t)
      invariant warnings' == Warnings(cur)
    {
      ghost var o := Classify(pathPrefix, key, specs[j], allowedTypes, handlers);
      PathStep(pathPrefix, key, specs, j, allowedTypes, handlers, os);
      routers', warnings' := Visit(pathPrefix, key, specs[j], allowedTypes, handlers, routers', warnings', cur);
      cur := cur + [o];
    }
    assert Pairs((key, specs))[..|specs|] == Pairs((key, specs));
  }

  /**
   * The body of the inner loop of `parse` for one spec: warn and skip on an
   * unknown type or handler, otherwise register the route or warn about the method.
   */
  method Visit<H>(pathPrefix: string, key: string, e: Endpoint, allowedTypes: seq<string>,
                  handlers: map<string, H>, routers: map<string, seq<Registration<H>>>, warnings: seq<string>,
                  ghost os: seq<Outcome<H>>)
    returns (routers': map<string, seq<Registration<H>>>, warnings': seq<string>)
    requires routers.Keys == set t | t in allowedTypes
    requires forall t :: t in routers ==> routers[t] == RouterFor(os, t)
    requires warnings == Warnings(os)
    ensures routers'.Keys == routers.Keys
    ensures forall t :: t in routers' ==>
              routers'[t] == RouterFor(os + [Classify(pathPrefix, key, e, allowedTypes, handlers)], t)
    ensures warnings' == Warnings(os + [Classify(pathPrefix, key, e, allowedTypes, handlers)])
  {
    OutcomeSnoc(os, Classify(pathPrefix, key, e, allowedTypes, handlers));
    routers', warnings' := routers, warnings;
    if e.audience !in routers {
      warnings' := warnings + [TypeNotValidMessage(e, pathPrefix + key)];
      return;
    }
    if e.handlingFunction !in handlers {
      warnings' := warnings + [HandlerMissingMessage(e, pathPrefix + key)];
      return;
    }
    if e.httpMethod in ALLOWED_HTTP_METHODS {
      var registration := Registration(ToLower(e.httpMethod), pathPrefix + key, e.parameters, handlers[e.handlingFunction]);
      routers' := routers[e.audience := routers[e.audience] + [registration]];
    } else {
      warnings' := warnings + [MethodNotAllowedMessage(e, pathPrefix + key)];
    }
  }

  /** `routers[allowedType] = express.Router()` for every allowed type: one empty router each. */
  method NewRouters<H>(allowedTypes: seq<string>) returns (routers: map<string, seq<Registration<H>>>)
    ensures routers.Keys == set t | t in allowedTypes
    ensures forall t :: t in routers ==> routers[t] == []
  {
    routers := map[];
    for i := 0 to |allowedTypes|
      invariant routers.Keys == set t | t in allowedTypes[..i]
      invariant forall t :: t in routers ==> routers[t] == []
    {
      assert allowedTypes[..i + 1] == allowedTypes[..i] + [allowedTypes[i]];
      routers := routers[allowedTypes[i] := []];
    }
    assert allowedTypes[..|allowedTypes|] == allowedTypes;
  }

  /** Visiting the next spec of a suffix appends its outcome to those visited so far. */
  lemma PathStep<H>(pathPrefix: string, key: string, specs: seq<Endpoint>, j: nat, allowedTypes: seq<string>,
                    handlers: map<string, H>, os: seq<Outcome<H>>)
    requires j < |specs|
    ensures os + Outcomes(pathPrefix, Pairs((key, specs))[..j + 1], allowedTypes, handlers) ==
            os + Outcomes(pathPrefix, Pairs((key, specs))[..j], allowedTypes, handlers) +
            [Classify(pathPrefix, key, specs[j], allowedTypes, handlers)]
  {
    PairsPrefix(key, specs, j);
    OutcomesSnoc(pathPrefix, Pairs((key, specs))[..j], (key, specs[j]), allowedTypes, handlers);
  }

  lemma PairsPrefix(key: string, specs: seq<Endpoint>, j: nat)
    requires j < |specs|
    ensures Pairs((key, specs))[..j + 1] == Pairs((key, specs))[..j] + [(key, specs[j])]
  {
  }

  lemma FlattenPrefix(endpoints: seq<(string, seq<Endpoint>)>, k: nat)
    requires k < |endpoints|
    ensures Flatten(endpoints[..k + 1]) == Flatten(endpoints[..k]) + Pairs(endpoints[k])
  {
    assert endpoints[..k + 1][..k] == endpoints[..k];
  }

  /** The outcomes of two runs of pairs, one after the other. */
  lemma {:induction false} OutcomesAppend<H>(pathPrefix: string, a: seq<(string, Endpoint)>, b: seq<(string, Endpoint)>,
                                             allowedTypes: seq<string>, handlers: map<string, H>)
    ensures Outcomes(pathPrefix, a + b, allowedTypes, handlers) ==
            Outcomes(pathPrefix, a, allowedTypes, handlers) + Outcomes(pathPrefix, b, allowedTypes, handlers)
    decreases |b|
  {
    if b == [] {
      assert a + b == a;
    } else {
      var init, last := b[..|b| - 1], b[|b| - 1];
      assert a + b == (a + init) + [last];
      assert b == init + [last];
      OutcomesSnoc(pathPrefix, a + init, last, allowedTypes, handlers);
      OutcomesSnoc(pathPrefix, init, last, allowedTypes, handlers);
      OutcomesAppend(pathPrefix, a, init, allowedTypes, handlers);
    }
  }

  /** Visiting one more pair appends its outcome. */
  lemma OutcomesSnoc<H>(pathPrefix: string, items: seq<(string, Endpoint)>, p: (string, Endpoint),
                        allowedTypes: seq<string>, handlers: map<string, H>)
    ensures Outcomes(pathPrefix, items + [p], allowedTypes, handlers) ==
            Outcomes(pathPrefix, items, allowedTypes, handlers) + [Classify(pathPrefix, p.0, p.1, allowedTypes, handlers)]
  {
  }

  /** One more outcome adds at most one warning or one registration. */
  lemma OutcomeSnoc<H>(os: seq<Outcome<H>>, o: Outcome<H>)
    ensures Warnings(os + [o]) == Warnings(os) + (if o.Warned? then [o.message] else [])
    ensures forall t :: RouterFor(os + [o], t) ==
                        RouterFor(os, t) + (if o.Registered? && o.audience == t then [o.registration] else [])
    ensures Registrations(os + [o]) == Registrations(os) + (if o.Registered? then [o.registration] else [])
  {
  }

  /** Every visited pair has exactly one outcome, at its own position. */
  lemma {:induction false} OutcomesClassified<H>(pathPrefix: string, items: seq<(string, Endpoint)>,
                                                 allowedTypes: seq<string>, handlers: map<string, H>)
    ensures forall j :: 0 <= j < |items| ==>
              Outcomes(pathPrefix, items, allowedTypes, handlers)[j] ==
              Classify(pathPrefix, items[j].0, items[j].1, allowedTypes, handlers)
  {
    if items != [] {
      var init := items[..|items| - 1];
      OutcomesClassified(pathPrefix, init, allowedTypes, handlers);
      forall j | 0 <= j < |init| ensures init[j] == items[j] { }
    }
  }

  /** The visited pairs are exactly the (suffix, spec) pairs of the description. */
  lemma {:induction false} FlattenMembers(endpoints: seq<(string, seq<Endpoint>)>, p: (string, Endpoint))
    ensures p in Flatten(endpoints) <==>
      exists k, j :: 0 <= k < |endpoints| && 0 <= j < |endpoints[k].1| && p == (endpoints[k].0, endpoints[k].1[j])
  {
    if endpoints != [] {
      var init, last := endpoints[..|endpoints| - 1], endpoints[|endpoints| - 1];
      FlattenMembers(init, p);
      if p in Pairs(last) {
        var j :| 0 <= j < |last.1| && Pairs(last)[j] == p;
        assert p == (endpoints[|endpoints| - 1].0, endpoints[|endpoints| - 1].1[j]);
      }
      if exists k, j :: 0 <= k < |endpoints| && 0 <= j < |endpoints[k].1| && p == (endpoints[k].0, endpoints[k].1[j]) {
        var k, j :| 0 <= k < |endpoints| && 0 <= j < |endpoints[k].1| && p == (endpoints[k].0, endpoints[k].1[j]);
        if k < |init| {
          assert p == (init[k].0, init[k].1[j]);
        } else {
          assert Pairs(last)[j] == p;
        }
      }
    }
  }

  /**
   * The outcome of the j-th visited spec: the first failing check, in the
   * order type, handler, method, gives exactly one warning with its fixed
   * text; a spec that passes all three is registered on the router of its
   * type at the prefixed path, with its guard and its handler.
   */
  lemma EndpointOutcome<H>(api: RestApi, allowedTypes: seq<string>, handlers: map<string, H>, j: int)
    requires 0 <= j < |Flatten(api.endpoints)|
    ensures var (key, e) := Flatten(api.endpoints)[j];
      var uri := api.pathPrefix + key;
      var o := Compile(api, allowedTypes, handlers)[j];
      && (e.audience !in allowedTypes ==> o == Warned(TypeNotValidMessage(e, uri)))
      && (e.audience in allowedTypes && e.handlingFunction !in handlers ==>
            o == Warned(HandlerMissingMessage(e, uri)))
      && (e.audience in allowedTypes && e.handlingFunction in handlers && e.httpMethod !in ALLOWED_HTTP_METHODS ==>
            o == Warned(MethodNotAllowedMessage(e, uri)))
      && (e.audience in allowedTypes && e.handlingFunction in handlers && e.httpMethod in ALLOWED_HTTP_METHODS ==>
            o == Registered(e.audience, Registration(ToLower(e.httpMethod), uri, e.parameters, handlers[e.handlingFunction])))
  {
    OutcomesClassified(api.pathPrefix, Flatten(api.endpoints), allowedTypes, handlers);
  }

  /** The warnings and the registrations of a list of outcomes together are as long as the list. */
  lemma {:induction false} FiltersPartition<H>(os: seq<Outcome<H>>)
    ensures |Warnings(os)| + |Registrations(os)| == |os|
  {
    if os != [] {
      FiltersPartition(os[..|os| - 1]);
    }
  }

  /**
   * Every visited spec of a description gives exactly one warning or one
   * registration, never both and never neither: together they are as many
   * as the specs listed.
   */
  lemma OneOutcomeEach<H>(api: RestApi, allowedTypes: seq<string>, handlers: map<string, H>)
    ensures var os := Compile(api, allowedTypes, handlers);
      |Warnings(os)| + |Registrations(os)| == |Flatten(api.endpoints)|
  {
    FiltersPartition(Compile(api, allowedTypes, handlers));
  }

  /** A registered outcome lands on the router of its type; a warning lands among the warnings. */
  lemma {:induction false} FiltersComplete<H>(os: seq<Outcome<H>>, i: int)
    requires 0 <= i < |os|
    ensures os[i].Registered? ==> os[i].registration in RouterFor(os, os[i].audience)
    ensures os[i].Warned? ==> os[i].message in Warnings(os)
  {
    var init := os[..|os| - 1];
    if i < |init| {
      FiltersComplete(init, i);
      assert os[i] == init[i];
    }
  }

  /** A registration on the router of type t comes from an outcome registered for t. */
  lemma {:induction false} RouterForMember<H>(os: seq<Outcome<H>>, t: string, r: Registration<H>)
    requires r in RouterFor(os, t)
    ensures exists i :: 0 <= i < |os| && os[i] == Registered(t, r)
  {
    var init := os[..|os| - 1];
    if r in RouterFor(init, t) {
      RouterForMember(init, t, r);
      var i :| 0 <= i < |init| && init[i] == Registered(t, r);
      assert os[i] == init[i];
    } else {
      assert os[|os| - 1] == Registered(t, r);
    }
  }

  /**
   * Spec e, listed under suffix key, passes all three checks for router t and
   * is registered there as r: at the prefixed path, with its lower-cased
   * method, its guard and its handler.
   */
  ghost predicate RegisteredAs<H>(pathPrefix: string, key: string, e: Endpoint, allowedTypes: seq<string>,
                            handlers: map<string, H>, t: string, r: Registration<H>)
  {
    && e.audience == t
    && t in allowedTypes
    && e.handlingFunction in handlers
    && e.httpMethod in ALLOWED_HTTP_METHODS
    && r == Registration(ToLower(e.httpMethod), pathPrefix + key, e.parameters, handlers[e.handlingFunction])
  }

  /** Every registration on the router of type t comes from a spec of the description registered as it for t. */
  lemma RegistrationProvenance<H>(api: RestApi, allowedTypes: seq<string>, handlers: map<string, H>,
                                  t: string, r: Registration<H>)
    requires r in RouterFor(Compile(api, allowedTypes, handlers), t)
    ensures exists k, j ::
              && 0 <= k < |api.endpoints| && 0 <= j < |api.endpoints[k].1|
              && RegisteredAs(api.pathPrefix, api.endpoints[k].0, api.endpoints[k].1[j], allowedTypes, handlers, t, r)
  {
    var items := Flatten(api.endpoints);
    var os := Compile(api, allowedTypes, handlers);
    RouterForMember(os, t, r);
    OutcomesClassified(api.pathPrefix, items, allowedTypes, handlers);
    var i :| 0 <= i < |os| && os[i] == Registered(t, r);
    assert RegisteredAs(api.pathPrefix, items[i].0, items[i].1, allowedTypes, handlers, t, r);
    assert items[i] in items;
    FlattenMembers(api.endpoints, items[i]);
  }

  /**
   * Every spec listed in the description reaches the output: one that passes
   * all three checks is registered on the router of its type, at the
   * prefixed path, with its guard and its handler; one that fails a check
   * leaves that check's warning.
   */
  lemma SpecReachesOutput<H>(api: RestApi, allowedTypes: seq<string>, handlers: map<string, H>, k: int, j: int)
    requires 0 <= k < |api.endpoints| && 0 <= j < |api.endpoints[k].1|
    ensures var key, e := api.endpoints[k].0, api.endpoints[k].1[j];
      var os := Compile(api, allowedTypes, handlers);
      var uri := api.pathPrefix + key;
      && (e.audience !in allowedTypes ==> TypeNotValidMessage(e, uri) in Warnings(os))
      && (e.audience in allowedTypes && e.handlingFunction !in handlers ==>
            HandlerMissingMessage(e, uri) in Warnings(os))
      && (e.audience in allowedTypes && e.handlingFunction in handlers && e.httpMethod !in ALLOWED_HTTP_METHODS ==>
            MethodNotAllowedMessage(e, uri) in Warnings(os))
      && (e.audience in allowedTypes && e.handlingFunction in handlers && e.httpMethod in ALLOWED_HTTP_METHODS ==>
            Registration(ToLower(e.httpMethod), uri, e.parameters, handlers[e.handlingFunction])
              in RouterFor(os, e.audience))
  {
    var p := (api.endpoints[k].0, api.endpoints[k].1[j]);
    var items := Flatten(api.endpoints);
    FlattenMembers(api.endpoints, p);
    var i :| 0 <= i < |items| && items[i] == p;
    EndpointOutcome(api, allowedTypes, handlers, i);
    FiltersComplete(Compile(api, allowedTypes, handlers), i);
  }

  lemma {:induction false} FlattenAppend(e1: seq<(string, seq<Endpoint>)>, e2: seq<(string, seq<Endpoint>)>)
    ensures Flatten(e1 + e2) == Flatten(e1) + Flatten(e2)
    decreases |e2|
  {
    if e2 == [] {
      assert e1 + e2 == e1;
    } else {
      var init := e2[..|e2| - 1];
      assert (e1 + e2)[..|e1 + e2| - 1] == e1 + init;
      FlattenAppend(e1, init);
    }
  }

  lemma {:induction false} FiltersAppend<H>(a: seq<Outcome<H>>, b: seq<Outcome<H>>)
    ensures Warnings(a + b) == Warnings(a) + Warnings(b)
    ensures forall t :: RouterFor(a + b, t) == RouterFor(a, t) + RouterFor(b, t)
    decreases |b|
  {
    if b == [] {
      assert a + b == a;
    } else {
      var init := b[..|b| - 1];
      assert (a + b)[..|a + b| - 1] == a + init;
      FiltersAppend(a, init);
    }
  }

  /**
   * Compiling two descriptions' endpoint lists one after the other is
   * compiling each in turn: the warnings and each router's registrations
   * keep the order in which the specs are visited.
   */
  lemma CompileAppend<H>(pathPrefix: string, e1: seq<(string, seq<Endpoint>)>, e2: seq<(string, seq<Endpoint>)>,
                         allowedTypes: seq<string>, handlers: map<string, H>)
    ensures var os := Compile(RestApi(pathPrefix, e1 + e2), allowedTypes, handlers);
      var os1 := Compile(RestApi(pathPrefix, e1), allowedTypes, handlers);
      var os2 := Compile(RestApi(pathPrefix, e2), allowedTypes, handlers);
      && Warnings(os) == Warnings(os1) + Warnings(os2)
      && forall t :: RouterFor(os, t) == RouterFor(os1, t) + RouterFor(os2, t)
  {
    FlattenAppend(e1, e2);
    OutcomesAppend(pathPrefix, Flatten(e1), Flatten(e2), allowedTypes, handlers);
    FiltersAppend(Compile(RestApi(pathPrefix, e1), allowedTypes, handlers), Compile(RestApi(pathPrefix, e2), allowedTypes, handlers));
  }

  /** The Express verb of every allowed method is its lower-case name. */
  lemma AllowedVerbs()
    ensures ToLower("GET") == "get" && ToLower("POST") == "post" && ToLower("PUT") == "put"
    ensures ToLower("DELETE") == "delete" && ToLower("PATCH") == "patch"
  {
  }

  /** What a request that reaches a registered route ends in. */
  datatype Response<H> = Handled(handler: H) | Status(code: int) | Thrown(message: string)

  /** The handler chain `[parameterCheckHandler(guard), handler]` applied to one request. */
  function RunChain<H>(r: Registration<H>, req: Request): (res: Response<H>)
    ensures res.Handled? <==> Check(r.guard, req) == Pass
    ensures res.Handled? ==> res.handler == r.handler
    ensures res.Status? ==> res.code == FAILURE_STATUS
    ensures res.Thrown? ==> res.message == CONFIG_ERROR_MESSAGE
  {
    match Check(r.guard, req)
    case Pass => Handled(r.handler)
    case Fail(status) => Status(status)
    case ConfigError(message) => Thrown(message)
  }

  /** The method check is exact: a lower-case method name is not allowed. */
  lemma MethodCheckIsCaseSensitive()
    ensures "get" !in ALLOWED_HTTP_METHODS && "Post" !in ALLOWED_HTTP_METHODS
    ensures "HEAD" !in ALLOWED_HTTP_METHODS && "OPTIONS" !in ALLOWED_HTTP_METHODS
  {
  }

  /** A description with a single spec compiles to that spec's outcome alone. */
  lemma SingleSpec<H>(pathPrefix: string, key: string, e: Endpoint, allowedTypes: seq<string>, handlers: map<string, H>)
    ensures var o := Classify(pathPrefix, key, e, allowedTypes, handlers);
      var os := Compile(RestApi(pathPrefix, [(key, [e])]), allowedTypes, handlers);
      && Warnings(os) == (if o.Warned? then [o.message] else [])
      && forall t :: RouterFor(os, t) == (if o.Registered? && o.audience == t then [o.registration] else [])
  {
    var endpoints := [(key, [e])];
    assert endpoints[..0] == [];
    assert Flatten(endpoints) == [(key, e)];
    OutcomesSnoc(pathPrefix, [], (key, e), allowedTypes, handlers);
    OutcomeSnoc([], Classify(pathPrefix, key, e, allowedTypes, handlers));
  }

  /** The test suite's description whose handler map is empty: one handler warning, no route. */
  lemma MissingHandlerScenario()
    ensures var spec := Endpoint("POST", "CLIENT", "handleAuthenticate", "Checks the SSID and then starts an authentication",
                                 Declared([("ssid", ParameterSpec("string with Swedish social security number", false))]));
      var os := Compile<int>(RestApi("/authenticate/bankid", [("/", [spec])]), ["CLIENT", "ADMIN", "EXTERNAL"], map[]);
      && Warnings(os) == ["Can't find handler function '" + "handleAuthenticate" + "' for endpoint with method " + "POST" + " and URI " + ("/authenticate/bankid" + "/")]
      && RouterFor(os, "CLIENT") == []
  {
    var spec := Endpoint("POST", "CLIENT", "handleAuthenticate", "Checks the SSID and then starts an authentication",
                         Declared([("ssid", ParameterSpec("string with Swedish social security number", false))]));
    SingleSpec<int>("/authenticate/bankid", "/", spec, ["CLIENT", "ADMIN", "EXTERNAL"], map[]);
  }

  /** The test suite's HEAD endpoint: one method warning, no route. */
  lemma HeadMethodScenario()
    ensures var spec := Endpoint("HEAD", "CLIENT", "handleAuthenticate", "Checks the SSID and then starts an authentication",
                                 Declared([("ssid", NonObject)]));
      var os := Compile(RestApi("/authenticate/bankid", [("/", [spec])]), ["CLIENT", "ADMIN", "EXTERNAL"],
                        map["handleAuthenticate" := 200]);
      && Warnings(os) == ["Method not allowed for endpoint with method " + "HEAD" + " and URI " + ("/authenticate/bankid" + "/")]
      && RouterFor(os, "CLIENT") == []
  {
    var spec := Endpoint("HEAD", "CLIENT", "handleAuthenticate", "Checks the SSID and then starts an authentication",
                         Declared([("ssid", NonObject)]));
    assert "HEAD" !in ALLOWED_HTTP_METHODS;
    SingleSpec("/authenticate/bankid", "/", spec, ["CLIENT", "ADMIN", "EXTERNAL"], map["handleAuthenticate" := 200]);
  }

  /** The test suite's BACKEND endpoint: one type warning, no route. */
  lemma UnknownTypeScenario()
    ensures var spec := Endpoint("POST", "BACKEND", "handleAuthenticate", "Checks the SSID and then starts an authentication",
                                 Declared([("ssid", ParameterSpec("string with Swedish social security number", false))]));
      var os := Compile(RestApi("/authenticate/bankid", [("/", [spec])]), ["CLIENT", "ADMIN", "EXTERNAL"],
                        map["handleAuthenticate" := 200]);
      && Warnings(os) == ["Type not valid for endpoint with method " + "POST" + " and URI " + ("/authenticate/bankid" + "/")]
      && RouterFor(os, "CLIENT") == []
  {
    var spec := Endpoint("POST", "BACKEND", "handleAuthenticate", "Checks the SSID and then starts an authentication",
                         Declared([("ssid", ParameterSpec("string with Swedish social security number", false))]));
    SingleSpec("/authenticate/bankid", "/", spec, ["CLIENT", "ADMIN", "EXTERNAL"], map["handleAuthenticate" := 200]);
  }

  /** A suffix holding two specs compiles to their two outcomes, in list order. */
  lemma TwoSpecs<H>(pathPrefix: string, key: string, a: Endpoint, b: Endpoint, allowedTypes: seq<string>,
                    handlers: map<string, H>)
    ensures Compile(RestApi(pathPrefix, [(key, [a, b])]), allowedTypes, handlers) ==
            [Classify(pathPrefix, key, a, allowedTypes, handlers), Classify(pathPrefix, key, b, allowedTypes, handlers)]
  {
    var endpoints := [(key, [a, b])];
    assert endpoints[..0] == [];
    assert Flatten(endpoints) == [(key, a)] + [(key, b)];
    OutcomesSnoc(pathPrefix, [], (key, a), allowedTypes, handlers);
    OutcomesSnoc(pathPrefix, [(key, a)], (key, b), allowedTypes, handlers);
  }

  /**
   * The test suite's two-router description: the CLIENT spec lands on the
   * CLIENT router and the ADMIN spec on the ADMIN router, with no warning.
   */
  lemma TwoRoutersScenario(api: RestApi, client: Endpoint, admin: Endpoint)
    requires client == Endpoint("POST", "CLIENT", "handleAuthenticate", "Checks the SSID and then starts an authentication",
                                Declared([("ssid", ParameterSpec("string with Swedish social security number", false))]))
    requires admin == Endpoint("GET", "ADMIN", "handleListAuthentications", "Lists all auth which have been made", NoSchema)
    requires api == RestApi("/authenticate/bankid", [("/", [client, admin])])
    ensures var os := Compile(api, ["CLIENT", "ADMIN", "EXTERNAL"],
                              map["handleAuthenticate" := 1, "handleListAuthentications" := 2]);
      && Warnings(os) == []
      && RouterFor(os, "CLIENT") == [Registration("post", api.pathPrefix + "/", client.parameters, 1)]
      && RouterFor(os, "ADMIN") == [Registration("get", api.pathPrefix + "/", NoSchema, 2)]
      && RouterFor(os, "EXTERNAL") == []
  {
    var types, handlers := ["CLIENT", "ADMIN", "EXTERNAL"], map["handleAuthenticate" := 1, "handleListAuthentications" := 2];
    var o1 := Registered("CLIENT", Registration("post", api.pathPrefix + "/", client.parameters, 1));
    var o2 := Registered("ADMIN", Registration("get", api.pathPrefix + "/", NoSchema, 2));
    AllowedVerbs();
    assert "POST" in ALLOWED_HTTP_METHODS && "GET" in ALLOWED_HTTP_METHODS;
    assert Classify(api.pathPrefix, "/", client, types, handlers) == o1;
    assert Classify(api.pathPrefix, "/", admin, types, handlers) == o2;
    TwoSpecs(api.pathPrefix, "/", client, admin, types, handlers);
    assert [] + [o1] == [o1] && [o1] + [o2] == [o1, o2];
    OutcomeSnoc([], o1);
    OutcomeSnoc([o1], o2);
    assert "CLIENT" != "ADMIN" && "CLIENT" != "EXTERNAL" && "ADMIN" != "EXTERNAL";
  }
}
