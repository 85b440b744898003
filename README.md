# Background jobs over a hosted message queue — a Dafny model

The library lets an application register named jobs, publish a request that
asks a hosted queue service to call the application back later, and answer
that signed callback by running the job's handler. This project models the
library's own logic and leaves the queue service to its interface:

- `Jobs` (jobs.dfy): a job is a key and a handler. The registry maps keys to
  handlers. `BuildRegistry` is the registration loop that both webhook entry
  points run, and it is proved against `Built`. When a key is repeated, the
  last job with that key wins.
- `GlobalRegistry` (global_registry.dfy): the process-wide registry map of
  packages/core/index.ts and the in-place `registerJob`.
- `Webhook` (webhook.dfy): the check chain that answers one callback. It
  checks that the signature and key are present, reads the body, verifies
  the signature, looks up the handler, then runs it. `Handle` returns the
  foreign calls it made, in order, and the outcome: a response, or a failure
  that propagates to the caller.
- `RequestHandler` (request_handler.dfy): `requestHandler`. It builds a new
  registry on every call.
- `NextAdapter` (next_adapter.dfy): `createHandler`. It builds the registry
  and the receiver once, as constant fields, and its `POST` answers every
  request against that same registry.
- `Manager` (manager.dfy): `JobManager` with its constant client and
  endpoint, the job objects that `createJob` returns, and `buildRequest`.
  It also models `dispatch`. The publish client is kept only as a ghost log
  of the requests handed to `publishJSON`.

Foreign behaviour becomes inputs:
- the query parameter, the signature header and the result of
  `request.json()` are `Option` values in `Inbound`;
- the receiver's verdict is a function `Verifier` of the signature and the
  parsed body;
- what a handler call does is a function `Invoker` from a handler identity
  and an argument to how the handler's promise settles.

Behaviour of the code worth noting:
- The code treats an empty signature or key as missing (`!signature || !key`, src/request.ts:43).
- A `null` body passes the presence check, verification and lookup. It then throws when `body.payload` is read (src/request.ts:82).
- The manager takes a ready client and an endpoint (src/manager.ts:59-62). test/smoke.test.ts:16-41 constructs it from a `token` and expects `createQueue` and `job.queue`. src/manager.ts has none of these.
- A job object has `key`, `handler`, `run` and `dispatch` (src/manager.ts:74-87), and nothing else.

## Model

| member | source | states |
|---|---|---|
| `Jobs.Register` | packages/core/index.ts:41 | setting a key adds it to the key set, maps it to the job's handler, leaves every other entry unchanged, and grows the map by at most one (by none when the key was already there) |
| `Jobs.BuildRegistry` | src/request.ts:24-31 | the loop registers the jobs in order. The result has exactly the keys of `jobs`, and for each key the handler of the last job with that key |
| `Jobs.BuiltKeys` | packages/core/adapters/nextjs.ts:23-28 | the registry built from `jobs` has every job's key and no other key |
| `Jobs.LastDuplicateWins` | src/request.ts:29-31 | for the last job with a given key, the registry maps that key to that job's handler, whatever earlier jobs with the key registered |
| `Jobs.LookupIsLastJob` | packages/core/adapters/nextjs.ts:28 | a key is registered if and only if some job has it. Its handler is the handler of the last job with that key |
| `GlobalRegistry.ModuleRegistry.constructor` | packages/core/index.ts:35 | the module registry starts empty |
| `GlobalRegistry.ModuleRegistry.RegisterJob` | packages/core/index.ts:40-42 | the registry afterwards is the old one with `job.key` mapped to `job.handler`. The key set gains `job.key`, other keys keep their handlers, and re-registering a key overwrites it |
| `Webhook.Handle` | src/request.ts:36-87 | the body is read, verified and handed to a handler in that order, each at most once. Only `registry[key]` is ever called. Verification sees the request's own signature and body. An empty 200 is given only after a handler call |
| `Webhook.MissingSignatureOrKey` | src/request.ts:43-47 | 400 "Missing signature or key" is given exactly when the signature or key is absent or empty. In that case nothing is read, verified or called |
| `Webhook.InvalidSignature` | src/request.ts:57-66 | a rejected signature gives 400 "Invalid signature" after reading and verifying, and calls no handler even for a registered key |
| `Webhook.VerifyBeforeLookup` | src/request.ts:57-77 | an unregistered key gives 404 "Handler not registered" when the signature is accepted and 400 "Invalid signature" otherwise. No handler runs |
| `Webhook.RunsRegisteredHandler` | src/request.ts:82-87 | when all checks pass, `registry[key]` is called once with `body.payload`. The answer is an empty 200 if that call resolves; if it rejects, the rejection propagates unchanged |
| `Webhook.PayloadField` | src/request.ts:82 | the handler's argument is the `payload` field of an object body, and `undefined` for any other non-null body. Reading it throws exactly for `null` and `undefined` (`request.json()` never yields `undefined`) |
| `Webhook.BodyFailuresPropagate` | src/request.ts:52-82 | a body that cannot be read fails the request after the presence check. A `null` body that passes verification and lookup fails it before any handler call |
| `Webhook.SucceedsIff` | src/request.ts:43-87 | an empty 200 is given if and only if every check passes and the handler resolves |
| `RequestHandler.RequestHandler` | src/request.ts:16-88 | the answer is the check chain run against the registry built from `jobs` on this call. A key absent from `jobs` never gets a 200 |
| `NextAdapter.NextHandler.constructor` | packages/core/adapters/nextjs.ts:7-28 | the registry is built once, with exactly the jobs' keys and last-duplicate-wins handlers. The receiver is the one made from the current and next signing keys |
| `NextAdapter.NextHandler.Post` | packages/core/adapters/nextjs.ts:37-72 | every request runs the check chain against the constant registry made at construction, which it only reads; what `Handle` ensures (any handler called is `registry[key]`) therefore holds of every `POST` |
| `Manager.CreateManager` | src/manager.ts:36-38 | a new manager holding the given client and endpoint |
| `Manager.JobManager.constructor` | src/manager.ts:59-62 | client and endpoint are set here and are constant afterwards |
| `Manager.JobManager.CreateJob` | src/manager.ts:70-88 | the new job object carries exactly the given key and handler and is bound to this manager |
| `Manager.JobManager.BuildRequest` | src/manager.ts:99-110 | `url` is exactly `endpoint + "?job=" + key`, `method` is "POST" and `body` is the payload, even when the options carry their own. Every other option field passes through unchanged, and no other field is added |
| `Manager.JobManager.Dispatch` | src/manager.ts:119-123 | exactly one request, the built one, is appended to the published log |
| `Manager.JobObject.Dispatch` | src/manager.ts:85-86 | a job's dispatch publishes exactly the request built for the job's own key |
| `Manager.RunAgreesWithWebhook` | src/manager.ts:80 | `run` and a verified callback for a job registered last under its key call the same handler. The callback passes it the payload and answers 200 exactly when `run` resolves |
| `Manager.DispatchedPayloadLost` | src/manager.ts:104-108 | as written, dispatching any object payload without a `payload` field, under any key and options, delivers a body whose handler receives `undefined` |
| `Manager.EmailPayloadLost` | src/manager.ts:104-108 | the instance: dispatching `{ to: "a@b.com" }` for `"send-email"` hands the handler `undefined` instead of the payload |
| `Manager.JobManager.BuildEnvelopedRequest` | src/manager.ts:104-109 | the corrected request: the same fields as `buildRequest`, except that the body wraps the payload as `{ payload }` |
| `Manager.EnvelopedPayloadDelivered` | src/manager.ts:119-122 | with the corrected request, every payload reaches the registered handler unchanged |

## Findings

| source | as written | input that shows it | evidently intended | confidence | as-written member | corrected member |
|---|---|---|---|---|---|---|
| src/manager.ts:106 | the published body is the payload itself, but the webhook (src/request.ts:82) calls the handler with `body.payload` | `job.dispatch({ to: "a@b.com" })` for a registered job: the callback calls the handler with `undefined` | the handler receives the payload given to `dispatch`; `createJob` types both as `TPayload` | medium, not executed | `Manager.DispatchedPayloadLost` | `Manager.EnvelopedPayloadDelivered` |

`Manager.JobManager.Dispatch` and `Manager.JobObject.Dispatch` still publish
the as-written request. What `dispatch` publishes is the observable contract
of src/manager.ts, and the fix could be made on either side.

## Left out

- Signature cryptography and the signing-key pair are foreign. The receiver is its verdict function `Verifier`.
- The model does not claim that `JSON.stringify(body)` reproduces the signed raw body.
- The verdict is fixed per receiver: it depends only on the signature and the body. Time-dependent verification (the signed token's validity times, key rotation over time) is not modelled.
- A `verify` promise that rejects would propagate. The model only has true/false verdicts.
- `request.json()`, `new URL(...)`, `searchParams.get` and `headers.get` are foreign parsing. Their results are inputs. A `new URL` that throws on a malformed URL is not modelled.
- How a key containing `&`, `#`, `%` or `+` reads back through `searchParams.get` is URL parsing. The key is concatenated into the URL without escaping, and no round trip of such keys is claimed.
- `publishJSON` is a network call. It is a ghost log, and the acknowledgement promise it returns is not modelled.
- The queue service's delivery is outside the model. `EnvelopedPayloadDelivered` assumes the published body arrives as it was sent, which holds for JSON values.
- async/Promise scheduling and `console.error` logging do not change any outcome.
- Handlers are identities (`Handler`). Their behaviour is the `Invoker` input.
- `Manager.JobObject.Run` has no contract of its own, because it passes its argument straight to the handler. Its property is stated by `Manager.RunAgreesWithWebhook`.
- Queues (`createQueue`, `queue`, `trigger`, parallelism, the "Queue does not exist" error) and token-based construction are not implemented by src/manager.ts. They appear only in test/smoke.test.ts.
- packages/core/use.ts is not part of this model. It imports a `config` that packages/core/index.ts does not export.
- `TriggerOptions.sync` (packages/core/index.ts:23-30) is declared and never used.
- src/nextjs.ts only forwards to `requestHandler`, so `RequestHandler.RequestHandler` covers it.
- src/job.ts holds only types. They are the `Jobs` datatypes.
- In src/request.ts the registry is built before the presence check. This cannot be observed and is not modelled as an ordering.
