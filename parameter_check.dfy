/**
 * The parameter guard that every registered route runs before its handler
 * (`parameterCheckHandler` in src/index.js). It checks that the request's
 * flat parameter map carries every required declared parameter and nothing
 * that is not declared. The HTTP side effects (`res.sendStatus(500)`,
 * `next()`, the thrown error) are modelled as the returned Verdict.
 */
module ParameterCheck {
  import opened Wrappers

  /** A value found in a request's query string or body. Only its presence matters. */
  datatype Value = Bool(b: bool) | Str(s: string) | Other

  /**
   * A flat, string-keyed parameter map. A key mapped to None is a key whose
   * value is `undefined`: it is listed among the map's keys but is not present.
   */
  type ParamMap = map<string, Option<Value>>

  datatype Request = Request(httpMethod: string, query: ParamMap, body: ParamMap)

  /** One entry of an endpoint's `parameters` object: an object, or any non-object value. */
  datatype Definition = ParameterSpec(description: string, optional: bool) | NonObject

  type Entry = (string, Definition)

  /** An endpoint's `parameters`: not an object at all, or an object with ordered entries. */
  datatype Parameters = NoSchema | Declared(entries: seq<Entry>)

  /** The status sent when validation fails. */
  const FAILURE_STATUS: int := 500

  /** The message of the error raised for a non-object definition (spelling as in the source). */
  const CONFIG_ERROR_MESSAGE: string := "RestAPI paramters was expected to be an object"

  /** Pass: `next()` is called. Fail: the status is sent and the chain stops. ConfigError: an error is thrown. */
  datatype Verdict = Pass | Fail(status: int) | ConfigError(message: string)

  /** The parameter map the guard inspects: the query for GET, the body for every other method. */
  function Candidate(req: Request): ParamMap
  {
    if req.httpMethod == "GET" then req.query else req.body
  }

  /** `requestParams[name] !== undefined` */
  predicate Present(m: ParamMap, name: string)
  {
    name in m && m[name].Some?
  }

  /** `params[key] !== undefined`, once every definition is known to be an object */
  predicate Declares(entries: seq<Entry>, key: string)
  {
    exists i :: 0 <= i < |entries| && entries[i].0 == key
  }

  /** Whether the required-presence pass stops at this entry, with an error or with 500. */
  predicate Stops(entry: Entry, cand: ParamMap)
  {
    entry.1.NonObject? || (!entry.1.optional && !Present(cand, entry.0))
  }

  /** What the required-presence pass returns when it stops at a definition. */
  function StopVerdict(d: Definition): Verdict
  {
    if d.NonObject? then ConfigError(CONFIG_ERROR_MESSAGE) else Fail(FAILURE_STATUS)
  }

  /** Entry i is the first entry at which the required-presence pass stops. */
  predicate FirstStop(entries: seq<Entry>, cand: ParamMap, i: int)
  {
    0 <= i < |entries| && Stops(entries[i], cand) &&
    forall j :: 0 <= j < i ==> !Stops(entries[j], cand)
  }

  /** Every definition is an object and every non-optional one is present. */
  predicate RequiredSatisfied(entries: seq<Entry>, cand: ParamMap)
  {
    forall i :: 0 <= i < |entries| ==> !Stops(entries[i], cand)
  }

  /** The extraneous-key pass succeeds: every key of the candidate map is declared. */
  predicate NoExtraneous(entries: seq<Entry>, cand: ParamMap)
  {
    forall key :: key in cand ==> Declares(entries, key)
  }

  /**
   * The required-presence pass over the schema entries in order: None when it
   * runs to the end, otherwise the verdict it returns early with.
   */
  function RequiredPass(entries: seq<Entry>, cand: ParamMap): (r: Option<Verdict>)
    ensures r.Some? ==> r.value == ConfigError(CONFIG_ERROR_MESSAGE) || r.value == Fail(FAILURE_STATUS)
  {
    if entries == [] then None
    else
      var (name, def) := entries[0];
      if def.NonObject? then Some(ConfigError(CONFIG_ERROR_MESSAGE))
      else if def.optional then RequiredPass(entries[1..], cand)
      else if !Present(cand, name) then Some(Fail(FAILURE_STATUS))
      else RequiredPass(entries[1..], cand)
  }

  /** The guard built from `params`, applied to one request. */
  function Check(params: Parameters, req: Request): (v: Verdict)
    ensures params.NoSchema? ==> v == Pass
    ensures v.Fail? ==> v.status == FAILURE_STATUS
    ensures v.ConfigError? ==> v.message == CONFIG_ERROR_MESSAGE
  {
    match params
    case NoSchema => Pass
    case Declared(entries) =>
      var cand := Candidate(req);
      match RequiredPass(entries, cand)
      case Some(v) => v
      case None => if NoExtraneous(entries, cand) then Pass else Fail(FAILURE_STATUS)
  }

  /** The required-presence pass runs to the end exactly when no entry stops it. */
  lemma {:induction false} RequiredPassCompletes(entries: seq<Entry>, cand: ParamMap)
    ensures RequiredPass(entries, cand).None? <==> RequiredSatisfied(entries, cand)
  {
    if entries != [] {
      RequiredPassCompletes(entries[1..], cand);
      if RequiredSatisfied(entries[1..], cand) && !Stops(entries[0], cand) {
        forall i | 0 <= i < |entries| ensures !Stops(entries[i], cand) {
          if i > 0 { assert entries[i] == entries[1..][i - 1]; }
        }
      }
      if RequiredSatisfied(entries, cand) {
        forall i | 0 <= i < |entries[1..]| ensures !Stops(entries[1..][i], cand) {
          assert entries[1..][i] == entries[i + 1];
        }
      }
    }
  }

  /** When the pass stops, it stops at the first stopping entry, with that entry's verdict. */
  lemma {:induction false} RequiredPassFirstStop(entries: seq<Entry>, cand: ParamMap, i: int)
    requires FirstStop(entries, cand, i)
    ensures RequiredPass(entries, cand) == Some(StopVerdict(entries[i].1))
  {
    if i > 0 {
      assert !Stops(entries[0], cand);
      forall j | 0 <= j < i - 1 ensures !Stops(entries[1..][j], cand) {
        assert entries[1..][j] == entries[j + 1];
      }
      RequiredPassFirstStop(entries[1..], cand, i - 1);
    }
  }

  /** If some entry stops the pass, there is a first one. */
  lemma {:induction false} FirstStopExists(entries: seq<Entry>, cand: ParamMap)
    requires !RequiredSatisfied(entries, cand)
    ensures exists i :: FirstStop(entries, cand, i)
  {
    if Stops(entries[0], cand) {
      assert FirstStop(entries, cand, 0);
    } else {
      var k :| 0 <= k < |entries| && Stops(entries[k], cand);
      assert Stops(entries[1..][k - 1], cand);
      FirstStopExists(entries[1..], cand);
      var i :| FirstStop(entries[1..], cand, i);
      forall j | 0 <= j < i + 1 ensures !Stops(entries[j], cand) {
        if j > 0 { assert entries[j] == entries[1..][j - 1]; }
      }
      assert FirstStop(entries, cand, i + 1);
    }
  }

  /**
   * The guard passes exactly when there is no schema, or every definition is
   * an object, every required parameter is present and no undeclared key is sent.
   */
  lemma CheckPassIff(params: Parameters, req: Request)
    ensures Check(params, req) == Pass <==>
      params.NoSchema? ||
      (RequiredSatisfied(params.entries, Candidate(req)) && NoExtraneous(params.entries, Candidate(req)))
  {
    if params.Declared? {
      RequiredPassCompletes(params.entries, Candidate(req));
    }
  }

  /**
   * A required parameter that is absent from the candidate map gives 500,
   * provided no non-object definition comes before it.
   */
  lemma MissingRequiredFails(params: Parameters, req: Request, i: int)
    requires params.Declared? && 0 <= i < |params.entries|
    requires params.entries[i].1.ParameterSpec? && !params.entries[i].1.optional
    requires !Present(Candidate(req), params.entries[i].0)
    requires forall j :: 0 <= j < i ==> params.entries[j].1.ParameterSpec?
    ensures Check(params, req) == Fail(FAILURE_STATUS)
  {
    var entries, cand := params.entries, Candidate(req);
    assert Stops(entries[i], cand);
    FirstStopExists(entries, cand);
    var k :| FirstStop(entries, cand, k);
    assert k <= i;
    RequiredPassFirstStop(entries, cand, k);
  }

  /**
   * The configuration error is raised exactly when the required-presence pass
   * reaches a non-object definition before any required parameter was found missing.
   */
  lemma ConfigErrorIff(params: Parameters, req: Request)
    ensures Check(params, req).ConfigError? <==>
      params.Declared? &&
      exists i :: FirstStop(params.entries, Candidate(req), i) && params.entries[i].1.NonObject?
  {
    if params.Declared? {
      var entries, cand := params.entries, Candidate(req);
      if exists i :: FirstStop(entries, cand, i) && entries[i].1.NonObject? {
        var i :| FirstStop(entries, cand, i) && entries[i].1.NonObject?;
        RequiredPassFirstStop(entries, cand, i);
      }
      if Check(params, req).ConfigError? {
        RequiredPassCompletes(entries, cand);
        FirstStopExists(entries, cand);
        var i :| FirstStop(entries, cand, i);
        RequiredPassFirstStop(entries, cand, i);
      }
    }
  }

  /** Any key of the candidate map that the schema does not declare gives 500, once every definition is an object. */
  lemma ExtraneousKeyFails(params: Parameters, req: Request, key: string)
    requires params.Declared?
    requires forall i :: 0 <= i < |params.entries| ==> params.entries[i].1.ParameterSpec?
    requires key in Candidate(req) && !Declares(params.entries, key)
    ensures Check(params, req) == Fail(FAILURE_STATUS)
  {
    var entries, cand := params.entries, Candidate(req);
    if !RequiredSatisfied(entries, cand) {
      FirstStopExists(entries, cand);
      var k :| FirstStop(entries, cand, k);
      RequiredPassFirstStop(entries, cand, k);
    } else {
      RequiredPassCompletes(entries, cand);
    }
  }

  /** A GET request is judged on its query alone; every other method on its body alone. */
  lemma CandidateFollowsMethod(params: Parameters, req: Request, other: ParamMap)
    ensures req.httpMethod == "GET" ==> Check(params, req.(body := other)) == Check(params, req)
    ensures req.httpMethod != "GET" ==> Check(params, req.(query := other)) == Check(params, req)
  {
  }

  /**
   * The guard decisions exercised by the repository's own test suite, plus
   * one case outside it: a required parameter missing from an empty body.
   */
  lemma SuiteScenarios()
    ensures var ssid := Declared([("ssid", ParameterSpec("string with Swedish social security number", false))]);
      && Check(ssid, Request("POST", map[], map["ssid" := Some(Str("testSSID"))])) == Pass
      && Check(ssid, Request("POST", map[], map["test" := Some(Str("hello"))])) == Fail(FAILURE_STATUS)
      && Check(ssid, Request("POST", map[], map["ssid" := Some(Bool(false))])) == Pass
      && Check(ssid, Request("POST", map[], map[])) == Fail(FAILURE_STATUS)
    ensures var test := Declared([("test", ParameterSpec("some test param", false))]);
      && Check(test, Request("GET", map["test" := Some(Str("hello"))], map[])) == Pass
      && Check(test, Request("GET", map["test" := Some(Str("false"))], map[])) == Pass
    ensures var optional := Declared([("optionalValue", ParameterSpec("A value which is optional", true))]);
      && Check(optional, Request("POST", map[], map[])) == Pass
      && Check(optional, Request("POST", map[], map["optionalValue" := Some(Str("Hello"))])) == Pass
    ensures Check(NoSchema, Request("GET", map[], map[])) == Pass
  {
  }
}
