# MELIStoreCore data and presentation core, modelled in Dafny

This project models the deterministic core of the MELIStoreCore Swift package:

- the HTTP failure taxonomy `RequestError` and its classifier `build(from:)`;
- the immutable `HeadersBuilder`;
- the decision logic of `HTTPManager`: service-URL construction, header
  assembly, the arguments `post` and `get` hand to the transport, the failure
  branch of `performRequest` and the error routing of `request`;
- the bounded retry of `AttemptsManager.execute`;
- the three-stage pipeline `executeDataSource` and the helper `mapOptionalList`;
- the form-field helpers `FieldContentWrapper` and `EmptyValidator`;
- the navigation stack of `Router`.

One module per Swift file: `RequestErrors` (request_error.dfy), `Headers`
(headers_builder.dfy), `HTTP` (http_manager.dfy), `Attempts`
(attempts_manager.dfy), `Repository` (base_repository.dfy), `ResponseMapper`
(base_response_mapper.dfy), `Validation` (validation.dfy, the validator protocol
and `ValidationError`), `EmptyValidation` (empty_validator.dfy), `FieldContent`
(field_content_wrapper.dfy) and `Navigation` (router.dfy). `Wrappers`
(wrappers.dfy) holds the `Option`, `Result` and `Outcome` types that stand for
Swift optionals and `throws`.

Modelling choices:

- Swift `throws` is a `Result`; an error thrown by `HTTPManager` is
  `Error.RequestErr(RequestError)` or `Error.Other(raw)`, where `raw` is any
  other error (the transport's own error, or whatever an error mapper returns).
- The network engine is a parameter `transport` from the request it is handed
  (URL, method, parameters, encoding, headers) to an outcome: a decoded value, or
  a failure with an optional response status code and the raw error.
- The environment values `baseURL` and `accessToken` are parameters
  (`HTTP.Environment`, and the `token` of `AddAuthorization`).
- The block given to `execute` is a function from the call number (0, 1, 2, ...)
  to the outcome of that call.
- `AttemptsManager`, `FieldContentWrapper` and `Router` update fields in place and
  are classes; their methods are proved against spec functions (`Attempts.Run`,
  `FieldContent.FirstFailure`) or state their whole new state.

Three behaviours of the code worth stating:

- The retry counter counts failures and the check `attempts < maxAttempts` comes
  after the increment, so from a fresh counter an always-failing block runs
  max(1, maxAttempts) times: `maxAttempts` is the number of runs, and a value of
  0 or less still runs the block once (`Attempts.AlwaysFailingBlock`).
- `replacingOccurrences(of: "//", with: "/")` runs over the whole URL, scheme
  included: a base URL `https://host/` produces a service URL starting
  `https:/host` (`HTTP.SchemeSeparatorIsRewritten`), and a run of n slashes
  becomes a run of (n + 1) / 2 slashes, so `///` becomes `//`
  (`HTTP.SlashRun`, with `HTTP.ReplacingAppend` and
  `HTTP.ReplacingAppendBeforeNonSlash` for a run between other characters).
  The model does not claim that the result is free of doubled separators.
- A transport failure without a status code is rethrown as it was; it never
  becomes `.fail` (`HTTP.PerformRequest`).

## Model

| member | source | states |
|---|---|---|
| RequestErrors.Build | Sources/MELIStoreCore/Data/Utils/Enums/RequestError.swift:38-48 | a missing code gives `.fail` and only then; 401 gives `.unauthorized` and 404 `.notFound`, each iff; the result is never `.invalidURL`, a `.statusCode` never carries 401 or 404, and the code the result stands for is exactly the input |
| RequestErrors.BuildOfStatusOf | Sources/MELIStoreCore/Data/Utils/Enums/RequestError.swift:17-48 | every error `build` can produce is `build` of the code it stands for, so `build` is a bijection onto those errors |
| Headers.Empty | Sources/MELIStoreCore/Data/Utils/HeadersBuilder.swift:46-48 | a fresh builder builds to the empty dictionary |
| Headers.HeadersBuilder.Add | Sources/MELIStoreCore/Data/Utils/HeadersBuilder.swift:72-82 | the new builder maps `key` to `value`, its keys are the old keys plus `key`, every other key keeps its old value; the receiver is a value and is left as it was |
| Headers.HeadersBuilder.AddAuthorization | Sources/MELIStoreCore/Data/Utils/HeadersBuilder.swift:58-65 | equals `add("Authorization", "Bearer " + token)`, so the Authorization value is `Bearer <token>` |
| Headers.AddAllIsLastWrite | Sources/MELIStoreCore/Data/Utils/HeadersBuilder.swift:52-54 | after any chain of `add` calls from a fresh builder, `build()` holds a key iff some call wrote it, with the value of the last such call, and nothing else |
| Headers.OverwriteKeepsEarlierBuilder | Sources/MELIStoreCore/Data/Utils/HeadersBuilder.swift:72-82 | adding A=1, B=2 builds {A:1, B:2}; adding A=3 afterwards builds {A:3, B:2} |
| HTTP.ReplacingDoubleSlashes | Sources/MELIStoreCore/Data/Utils/Managers/HTTP/HTTPManager.swift:158 | the left-to-right replacement of "//" by "/" never lengthens its input |
| HTTP.ReplacingShortensIffDoubleSlash | Sources/MELIStoreCore/Data/Utils/Managers/HTTP/HTTPManager.swift:158 | the replacement shortens its input exactly when the input contains "//", and leaves an input without "//" unchanged |
| HTTP.ReplacingKeepsNonSlashes | Sources/MELIStoreCore/Data/Utils/Managers/HTTP/HTTPManager.swift:158 | only slashes are dropped: the other characters survive in order |
| HTTP.ReplacingAppend | Sources/MELIStoreCore/Data/Utils/Managers/HTTP/HTTPManager.swift:158 | the scan never pairs across a boundary that follows a non-slash character, so it works piecewise there |
| HTTP.ReplacingAppendBeforeNonSlash | Sources/MELIStoreCore/Data/Utils/Managers/HTTP/HTTPManager.swift:158 | the scan also works piecewise at a boundary followed by a non-slash character, such as the end of a run of slashes; with `ReplacingAppend` and `SlashRun` this fixes how every run of slashes inside a URL is rewritten |
| HTTP.SlashRun | Sources/MELIStoreCore/Data/Utils/Managers/HTTP/HTTPManager.swift:158 | a run of n slashes becomes a run of (n + 1) / 2: slashes are paired from the left and not rescanned, so runs are not collapsed to one slash |
| HTTP.TripleSlashBecomesDouble | Sources/MELIStoreCore/Data/Utils/Managers/HTTP/HTTPManager.swift:158 | inside a URL, "a///b" becomes "a//b" |
| HTTP.ServiceURL | Sources/MELIStoreCore/Data/Utils/Managers/HTTP/HTTPManager.swift:154-159 | the URL is never longer than `baseURL + api + "/" + path`, equals it iff it has no "//", and keeps all its non-slash characters in order |
| HTTP.SchemeSeparatorIsRewritten | Sources/MELIStoreCore/Data/Utils/Managers/HTTP/HTTPManager.swift:154-158 | a base URL `scheme://host` yields a URL `scheme:/` followed by the replacement over the rest: the scheme's "//" is rewritten too |
| HTTP.CreateHeadersBuilder | Sources/MELIStoreCore/Data/Utils/Managers/HTTP/HTTPManager.swift:179-192 | starts empty and applies `extraHeaders` first; without authentication the result is exactly that; with it, Authorization is `Bearer <token>` even if `extraHeaders` set one, and every other key is as `extraHeaders` left it; no customisation and no authentication give no headers |
| HTTP.HeaderListSize | Sources/MELIStoreCore/Data/Utils/Managers/HTTP/HTTPManager.swift:171-173 | the header list has one entry per dictionary entry |
| HTTP.CreateHeaders | Sources/MELIStoreCore/Data/Utils/Managers/HTTP/HTTPManager.swift:162-176 | the headers are exactly the built dictionary's entries, one `HTTPHeader` each; none without customisation and authentication |
| HTTP.OutgoingRequest | Sources/MELIStoreCore/Data/Utils/Managers/HTTP/HTTPManager.swift:95-108 | the transport receives the service URL, the given method and encoding, only the query parameters (never a body) and the assembled headers |
| HTTP.PerformRequest | Sources/MELIStoreCore/Data/Utils/Managers/HTTP/HTTPManager.swift:136-148 | a delivered value is returned; a failure without a code is rethrown unchanged; a failure with code c becomes the `RequestError` standing for c; this branch never produces `.fail` or `.invalidURL` |
| HTTP.RouteError | Sources/MELIStoreCore/Data/Utils/Managers/HTTP/HTTPManager.swift:109-115 | a `RequestError` is replaced by `requestErrorMapper(error)` when a mapper is given and kept otherwise; any other error and any success pass unchanged and never reach the mapper |
| HTTP.Request | Sources/MELIStoreCore/Data/Utils/Managers/HTTP/HTTPManager.swift:84-151 | one transport call with the outgoing request; success returns the value, a code-less failure rethrows the raw error, a failure with a code throws the mapped or unmapped `build(code)` |
| HTTP.NoMapperErrorsAreClassified | Sources/MELIStoreCore/Data/Utils/Managers/HTTP/HTTPManager.swift:109-147 | without a mapper, a thrown `RequestError` is never `.fail` or `.invalidURL`, and a `.statusCode` never carries 401 or 404 |
| HTTP.Post | Sources/MELIStoreCore/Data/Utils/Managers/HTTP/HTTPManager.swift:37-53 | POST with JSON encoding and no parameters; the outcome is the same whatever the body |
| HTTP.Get | Sources/MELIStoreCore/Data/Utils/Managers/HTTP/HTTPManager.swift:65-81 | the transport is asked for a GET of the service URL with query-string encoding, the transformed query parameters (none when absent) and the assembled headers; its answer is returned, or its failure classified and routed as in `request` |
| HTTP.GetAsksTransportOnlyAboutItsRequest | Sources/MELIStoreCore/Data/Utils/Managers/HTTP/HTTPManager.swift:65-81 | two transports that answer that one GET request alike give the same result |
| Attempts.Budget | Sources/MELIStoreCore/Utils/Managers/Attempts/AttemptsManager.swift:42-53 | at least one call is made, and only one iff the incremented counter already reaches `maxAttempts` |
| Attempts.Run | Sources/MELIStoreCore/Utils/Managers/Attempts/AttemptsManager.swift:36-53 | between 1 and Budget calls are made; the outcome is the last call's, every earlier call failed (no call after a success), and a failure is returned only when the budget is used up |
| Attempts.AttemptsManager.constructor | Sources/MELIStoreCore/Utils/Managers/Attempts/AttemptsManager.swift:23 | the counter starts at 0 |
| Attempts.AttemptsManager.Increment | Sources/MELIStoreCore/Utils/Managers/Attempts/AttemptsManager.swift:57 | each failure raises the counter by exactly one |
| Attempts.AttemptsManager.Restore | Sources/MELIStoreCore/Utils/Managers/Attempts/AttemptsManager.swift:60 | the counter returns to 0 |
| Attempts.AttemptsManager.Execute | Sources/MELIStoreCore/Utils/Managers/Attempts/AttemptsManager.swift:32-54 | the loop returns the outcome and call count that `Run` gives from the current counter, and the counter is 0 afterwards, on success and on the final failure |
| Attempts.AlwaysFailingBlock | Sources/MELIStoreCore/Utils/Managers/Attempts/AttemptsManager.swift:42-47 | from a fresh counter an always-failing block runs max(1, maxAttempts) times and the last call's error is thrown |
| Attempts.SucceedsAtSecondAttempt | Tests/MELIStoreCoreTests/Utils/Managers/AttemptsManagerTests.swift:45-64 | a block that fails once and then succeeds runs exactly twice with `maxAttempts` 3 and its value is returned |
| Attempts.SucceedsAtFirstAttempt | Tests/MELIStoreCoreTests/Utils/Managers/AttemptsManagerTests.swift:32-43 | a block that succeeds at once runs once and its value is returned |
| Repository.ExecuteDataSource | Sources/MELIStoreCore/Data/Repositories/BaseRepositoryProtocol.swift:83-87 | a `mapRequest` error is thrown as is; otherwise a `call` error on exactly the mapped request is thrown as is; otherwise the result is `mapResponse` of the response |
| Repository.MapRequestFailureShortCircuits | Sources/MELIStoreCore/Data/Repositories/BaseRepositoryProtocol.swift:83 | when `mapRequest` throws, neither `call` nor `mapResponse` affects the outcome |
| Repository.CallFailureShortCircuits | Sources/MELIStoreCore/Data/Repositories/BaseRepositoryProtocol.swift:85 | when `call` throws, `mapResponse` does not affect the outcome |
| Repository.CallSeesOnlyMappedRequest | Sources/MELIStoreCore/Data/Repositories/BaseRepositoryProtocol.swift:83-85 | `call` sees only the request `mapRequest` produced |
| ResponseMapper.CompactMap | Sources/MELIStoreCore/Data/Mappers/BaseResponseMapperProtocol.swift:51 | succeeds iff no element's transform throws, and then has at most as many elements as the input |
| ResponseMapper.MapOptionalList | Sources/MELIStoreCore/Data/Mappers/BaseResponseMapperProtocol.swift:47-54 | an absent list gives `[]`; a present one gives its `compactMap` |
| ResponseMapper.CompactMapAppend | Sources/MELIStoreCore/Data/Mappers/BaseResponseMapperProtocol.swift:51 | order is kept: mapping `xs + ys` maps `xs`, then `ys`, and concatenates, an error in `xs` winning |
| ResponseMapper.CompactMapFirstError | Sources/MELIStoreCore/Data/Mappers/BaseResponseMapperProtocol.swift:47-51 | the error thrown is that of the first element whose transform throws |
| ResponseMapper.CompactMapAllPresent | Sources/MELIStoreCore/Data/Mappers/BaseResponseMapperProtocol.swift:51 | a transform that never throws or returns `nil` gives a list as long as the input with `result[i] == transform(list[i])` |
| ResponseMapper.CompactMapLength | Sources/MELIStoreCore/Data/Mappers/BaseResponseMapperProtocol.swift:51 | a transform that never throws gives one element per non-`nil` result |
| ResponseMapper.DoublesAboveOne | Sources/MELIStoreCore/Data/Mappers/BaseResponseMapperProtocol.swift:47-54 | [1, 2, 3] with "x > 1 ? 2x : nil" gives [4, 6] |
| EmptyValidation.EmptyValidator.Validate | Sources/MELIStoreCore/Presentation/Utils/Validators/Implementations/EmptyValidator.swift:28-42 | throws iff the text is empty, and what it throws is a `ValidationError` with the message given at construction |
| EmptyValidation.OnlyEmptinessMatters | Sources/MELIStoreCore/Presentation/Utils/Validators/Implementations/EmptyValidator.swift:36-42 | the outcome depends only on whether the text is empty |
| FieldContent.FirstFailureNoneIffAllPass | Sources/MELIStoreCore/Presentation/Utils/Inputs/FieldContentWrapper.swift:78-84 | no error message exactly when every validator passes |
| FieldContent.FirstFailureAt | Sources/MELIStoreCore/Presentation/Utils/Inputs/FieldContentWrapper.swift:78-89 | the message is that of the first throwing validator (its `ValidationError` message, else its description); later validators play no part |
| FieldContent.EmptyFieldTakesEmptyValidatorMessage | Sources/MELIStoreCore/Presentation/Utils/Inputs/FieldContentWrapper.swift:16-25 | an empty field guarded by an `EmptyValidator` gets that validator's message |
| FieldContent.FieldContentWrapper.Build | Sources/MELIStoreCore/Presentation/Utils/Inputs/FieldContentWrapper.swift:48-55 | content is the initial value, no error, not yet validated, the given validators |
| FieldContent.FieldContentWrapper.HasError | Sources/MELIStoreCore/Presentation/Utils/Inputs/FieldContentWrapper.swift:41 | true exactly when an error message is present |
| FieldContent.FieldContentWrapper.ExecuteValidators | Sources/MELIStoreCore/Presentation/Utils/Inputs/FieldContentWrapper.swift:78-90 | the error becomes the first failure's message over the validators in order, or none; content and the validated flag are unchanged |
| FieldContent.FieldContentWrapper.Validate | Sources/MELIStoreCore/Presentation/Utils/Inputs/FieldContentWrapper.swift:63-74 | with `always` false before any validation nothing runs and nothing changes; otherwise the validators run and the field is marked validated; the result is always `!hasError` of the new state; content never changes |
| FieldContent.ValidationScenarios | Tests/MELIStoreCoreTests/Presentation/Utils/Utils/FieldContentWrapperTests.swift:27-58 | a field whose validator passes validates to true with no error and is marked validated; one whose validator fails validates to false and carries that validator's message |
| Navigation.Router.constructor | Sources/MELIStoreCore/Presentation/Router/Router.swift:43-45 | a new router has an empty path |
| Navigation.Router.Push | Sources/MELIStoreCore/Presentation/Router/Router.swift:49-51 | appends the route, leaving the earlier routes in place |
| Navigation.Router.PushDestination | Sources/MELIStoreCore/Presentation/Router/Router.swift:55-57 | the same as `push(_:)` |
| Navigation.Router.Pop | Sources/MELIStoreCore/Presentation/Router/Router.swift:60-62 | on a non-empty path, removes exactly the last route |
| Navigation.Router.PopToRoot | Sources/MELIStoreCore/Presentation/Router/Router.swift:65-67 | empties the path from any state |
| Navigation.Router.Replace | Sources/MELIStoreCore/Presentation/Router/Router.swift:71-74 | leaves exactly the new route |
| Navigation.RouterScenarios | Tests/MELIStoreCoreTests/Presentation/Router/RouterTests.swift:30-73 | on a fresh router, push and push(destination:) each leave one route, push then pop leaves none, two pushes then popToRoot leave none, replace leaves one |

## Left out

- Alamofire itself (`AF.request`, `.validate()`, `responseDecodable`, the checked continuation): replaced by the `transport` parameter; which failures carry a status code is the transport's business.
- JSON and URL parameter encoding, and `Decodable` decoding: library behaviour; the model records only which encoding is chosen.
- Reading `Bundle.main.infoDictionary` and the `fatalError` on a missing value: the environment values are parameters.
- `HTTP.CreateHeaders`: the order of the header list is not modelled (it is a set), because Swift dictionary order is unspecified; the case-insensitive merging that Alamofire's `HTTPHeaders` may do is library behaviour.
- Dependency injection (`@Inject`, the containers, the module protocols): wiring only.
- Concurrency: actor isolation, `async`, `@Sendable` and `@MainActor`; everything is modelled sequentially, so reentrant calls of one `AttemptsManager` that interleave their counter updates are not covered.
- `Attempts.AttemptsManager.Execute`: the source retries by recursion and warns against very large `maxAttempts` (AttemptsManager.swift:19); the model is a loop, so the stack overflow a very large budget could cause is not captured. The counter never exceeds max(1, maxAttempts): it starts at 0, a retry happens only while it is below `maxAttempts`, and it is reset on both exits.
- `HTTP.ReplacingDoubleSlashes` and `HTTP.ServiceURL`: the scan pairs code points, while Foundation matches whole characters, so a '/' followed by a combining mark is not a slash there ("a//\u{301}b" is left unchanged by Swift, rewritten to "a/\u{301}b" by the model); the model is exact when no '/' carries a combining mark, and URLs are ASCII in practice.
- `Headers.HeadersBuilder.Add` and `Headers.AddAllIsLastWrite`: keys compare by code point, while Swift `String` keys compare canonically equivalent strings as equal ("\u{E9}" and "e\u{301}" are one key in Swift, two in the model); header names are ASCII tokens in practice.
- SwiftUI: `NavigationPath`, `@Published`, `ObservableObject` and the navigation views; only the stack of routes is modelled, as a sequence.
- `FieldContentWrapper` is a Swift struct with value semantics; as a class the model does not capture copying on assignment.
- The `localizedDescription` of errors other than `ValidationError` is an opaque string carried by the error.
- The protocol-only files (`HTTPManagerProtocol`, `AttemptsManagerProtocol`, `EndpointProtocol`, `QueryParamsModelProtocol`, `RequestModelProtocol`, `ValidatorProtocol`, the mapper protocols, `UIMapper`, `ValidationError`) appear only as types and function parameters.
- Package.swift is not part of this model.
