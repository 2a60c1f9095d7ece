# express-router-ms-description, modelled in Dafny

The repository turns the REST part of a microservice description into Express
routers. `parse` takes a path prefix, an ordered map from path suffix to a list
of endpoint specs, the allowed audience types and a map of named handler
functions. It creates one router per allowed type. Each spec then goes through
three checks in a fixed order: its type must be allowed, its handler must exist,
and its method must be one of GET, POST, PUT, DELETE and PATCH. A spec that
passes all three is registered on the router of its type, at `pathPrefix + key`.
Its handler chain is a parameter guard followed by the named handler. A spec that
fails a check produces one warning, with a fixed text, and is skipped. The guard
(`parameterCheckHandler`) rejects a request with status 500 when a required
declared parameter is absent or when an undeclared key is sent. It raises an
error when a declared parameter's definition is not an object.

The project has three files:

- `wrappers.dfy` (module `Wrappers`): the `Option` datatype.
- `parameter_check.dfy` (module `ParameterCheck`): the guard as a pure function.
  - `Check` gives the guard's `Verdict`: `Pass` (the chain continues), `Fail(500)` or `ConfigError(message)`.
  - The candidate map is the query for GET and the body for every other method.
  - `RequiredPass` is the first loop of the guard. It returns early on a missing parameter or on a non-object definition.
  - The predicate `NoExtraneous` is the second loop.
  - A request value is `Option<Value>`. A key mapped to `None` has the value `undefined`: it is listed as a key but it is not present. `false` and `""` are present.
- `router_description.dfy` (module `RouterDescription`): the compiler.
  - `Parse` is an imperative method. It builds the routers with `NewRouters`, then runs two nested loops: one over the path suffixes, and one over each suffix's specs (`VisitPath`). `Visit` handles one spec.
  - Each Express router is modelled as the ordered list of its `Registration`s: the lower-case verb, the full path, the guard's schema and the handler.
  - The `console.warn` calls become the returned list of warning strings.
  - `Parse` is proved against the specification functions `Compile`, `Warnings` and `RouterFor`. `Compile` gives one `Outcome` per spec, in visiting order. `Warnings` and `RouterFor` filter those outcomes.
  - The lemmas prove what the outcomes mean: exact warning texts, the order of the checks, where each registration comes from, and that order is kept.
  - `RunChain` runs a registered handler chain against a request.

Handlers are opaque. They are looked up by name only, and the type parameter `H` stands for them.

Three behaviours of the code worth stating plainly:

- The method check is exact and case-sensitive (src/index.js:56). There is no upper-casing step, so `get` or `Post` is "not allowed".
- A non-object parameter definition raises its error when a request reaches that entry (src/index.js:86-88), not when the router is built. An earlier required parameter that is missing gives 500 first.
- Routes are registered at `pathPrefix + key`, behind the guard, and the guard runs both passes.

## Model

| member | source | states |
|---|---|---|
| ParameterCheck.RequiredPass | src/index.js:85-98 | the required-presence pass stops only with the configuration error or with status 500, never with a pass |
| ParameterCheck.Check | src/index.js:76-108 | with no schema the guard passes; a failure is always status 500; a thrown error always carries the fixed message |
| ParameterCheck.RequiredPassCompletes | src/index.js:85-98 | the first loop runs to its end iff every definition is an object and every non-optional parameter is present |
| ParameterCheck.RequiredPassFirstStop | src/index.js:85-97 | when the first loop stops, it stops at the first offending entry: the error for a non-object definition, 500 for a missing required parameter |
| ParameterCheck.FirstStopExists | src/index.js:85-98 | if any entry would stop the first loop, a first such entry exists |
| ParameterCheck.CheckPassIff | src/index.js:78-106 | the guard passes iff there is no schema, or every definition is an object, every required parameter is present and every sent key is declared |
| ParameterCheck.MissingRequiredFails | src/index.js:90-97 | an absent non-optional parameter gives 500 (the chain stops) when no non-object definition precedes it; `optional` entries are skipped |
| ParameterCheck.ConfigErrorIff | src/index.js:85-88 | the configuration error is raised iff the first entry at which the first loop stops is a non-object definition |
| ParameterCheck.ExtraneousKeyFails | src/index.js:100-105 | a sent key that the schema does not declare gives 500 once every definition is an object |
| ParameterCheck.CandidateFollowsMethod | src/index.js:83 | a GET request is judged on its query alone; any other method on its body alone |
| ParameterCheck.SuiteScenarios | test/test.js:72-128 | the guard decisions of the test suite: `ssid` sent as a string or as `false` passes; an undeclared `test` gives 500; GET query values pass; an omitted or a sent optional parameter passes. One case outside the suite: an empty body missing the required `ssid` gives 500 |
| RouterDescription.Outcomes | src/index.js:37-65 | there is one outcome per visited spec |
| RouterDescription.Parse | src/index.js:30-69 | one router per distinct allowed type and no other key; each router holds exactly the registrations that `RouterFor` selects from the outcomes, in order; the warnings are exactly those of the rejected specs, in order |
| RouterDescription.NewRouters | src/index.js:32-35 | creates one empty router per distinct allowed type, and nothing else |
| RouterDescription.VisitPath | src/index.js:42-65 | visiting one suffix's specs appends their outcomes, in list order, to the routers and the warnings |
| RouterDescription.Visit | src/index.js:44-64 | one spec adds exactly its own outcome: one warning, or one registration on the router of its type |
| RouterDescription.OutcomesClassified | src/index.js:37-65 | the outcome at each position is the decision for the spec visited at that position |
| RouterDescription.FlattenMembers | src/index.js:37-43 | the visited (suffix, spec) pairs are exactly the specs listed under each suffix of the description |
| RouterDescription.EndpointOutcome | src/index.js:45-64 | the checks run in the order type, handler, method; the first that fails gives exactly one warning with its fixed text and URI `pathPrefix + key`; a spec passing all three is registered on its type's router with the lower-cased method, the prefixed path, its guard and its handler |
| RouterDescription.OneOutcomeEach | src/index.js:43-65 | over the compiled description, the warnings and the registrations together are exactly as many as the listed specs: each spec yields one or the other, never both and never neither |
| RouterDescription.FiltersComplete | src/index.js:45-61 | a registered outcome appears on the router of its own type, and a warning among the warnings |
| RouterDescription.SpecReachesOutput | src/index.js:43-64 | every listed spec reaches the output: one that passes the type, handler and method checks is registered on the router of its type at `pathPrefix + key` with its guard and handler; one that fails leaves that check's exact warning |
| RouterDescription.RouterForMember | src/index.js:55-61 | a registration on router t is the outcome of some spec registered for t |
| RouterDescription.RegistrationProvenance | src/index.js:45-61 | every registration on router t comes from a spec of the description whose type is t (an allowed type), whose handler exists and whose method is allowed, at that spec's prefixed path |
| RouterDescription.OutcomesAppend | src/index.js:37-65 | the outcomes of two runs of specs are the outcomes of each, concatenated |
| RouterDescription.FlattenAppend | src/index.js:37-43 | the specs of two endpoint lists are visited one list after the other |
| RouterDescription.FiltersAppend | src/index.js:46-63 | warnings and each router's registrations distribute over concatenated outcomes |
| RouterDescription.CompileAppend | src/index.js:37-65 | compiling two endpoint lists in sequence gives the warnings and each router's registrations of the first followed by those of the second: the visiting order is kept |
| RouterDescription.SingleSpec | src/index.js:43-65 | a description holding one spec yields only that spec's outcome |
| RouterDescription.AllowedVerbs | src/index.js:57-58 | each allowed method is registered under its lower-case Express verb |
| RouterDescription.MethodCheckIsCaseSensitive | src/index.js:3 | the allowed methods are exactly the upper-case names: `get`, `Post`, HEAD and OPTIONS are not allowed |
| RouterDescription.RunChain | src/index.js:60 | the registered chain runs the handler iff the guard passes; otherwise it ends with status 500 or with the thrown configuration error |
| RouterDescription.MissingHandlerScenario | test/test.js:186-215 | with no handlers, the CLIENT POST spec gives the "Can't find handler function 'handleAuthenticate'" warning and no route |
| RouterDescription.HeadMethodScenario | test/test.js:217-247 | a HEAD spec gives the "Method not allowed" warning and no route |
| RouterDescription.UnknownTypeScenario | test/test.js:249-279 | a BACKEND spec gives the "Type not valid" warning and no route |
| RouterDescription.TwoRoutersScenario | test/test.js:131-177 | the CLIENT POST spec lands on the CLIENT router and the ADMIN GET spec on the ADMIN router, at the prefixed path, with no warning |

## Left out

- Express itself is not modelled: `express.Router()`, route matching, mounting with `app.use`, and the 404 for an unregistered path or method. A router is its list of registrations.
- `console.warn` is not modelled as I/O. Each call is one entry of the returned warning list.
- `res.sendStatus` and `next()` are not modelled as I/O. They become the guard's `Verdict` and the chain's `Response`.
- The handler functions are opaque. The model carries whatever value the handler map holds under the name.
- Express router objects are updated in place. The model passes routers as a `map` value that each step reassigns, so aliasing between routers is not modelled.
- Some JavaScript value quirks are not modelled:
  - `typeof null === 'object'`: a `null` schema or definition would crash.
  - The truthiness of a non-boolean `optional`: the model takes `optional` as a boolean.
  - A non-string `type`, `method` or `handlingFunction`, which would be interpolated as `undefined`.
  - A non-array spec list.
  - An absent request body: the model treats it as an empty map.
- Prototype-chain lookups and the `hasOwnProperty` guards are not modelled. Membership is plain map or sequence membership.
- JavaScript key-ordering rules for integer-like keys are not modelled. Endpoints and schema entries are ordered sequences, visited in sequence order. Duplicate keys, which a JavaScript object cannot hold, are processed once per occurrence.
- `ToLower` folds ASCII letters only. It is applied only to the five allowed method names, which are ASCII.
- The `description` fields are carried in the data but have no effect, as in the source.
- Building the same routers twice from the same inputs is not stated as its own lemma. `Parse`'s postconditions fix its results completely, so two calls agree.
