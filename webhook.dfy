/** The check chain that answers an inbound webhook callback. It is written
    twice in the source, in `requestHandler` (src/request.ts) and in the `POST`
    closure of `createHandler` (packages/core/adapters/nextjs.ts); both run
    exactly the steps of `Handle` below. */
module Webhook {
  import opened Values
  import opened Jobs

  const MissingMessage := "Missing signature or key"
  const InvalidMessage := "Invalid signature"
  const NotRegisteredMessage := "Handler not registered"

  /** What the request carries, as the foreign parsers return it:
      the `job` query parameter, the `Upstash-Signature` header (each `None`
      when `get` returns null) and the value `request.json()` resolves to
      (`None` when it rejects). */
  datatype Inbound = Inbound(signature: Option<string>, key: Option<string>, body: Option<Value>)

  /** `receiver.verify({ signature, body: JSON.stringify(body) })`. */
  type Verifier = (string, Value) -> bool

  /** How the promise of a handler call settles. */
  datatype Completion = Resolved | Rejected(reason: Value)

  /** What calling a handler with an argument does. */
  type Invoker = (Handler, Value) -> Completion

  /** The foreign calls a request makes, in the order it makes them. */
  datatype Call =
    | ReadBody
    | Verify(signature: string, body: Value)
    | Invoke(handler: Handler, arg: Value)

  /** Why the handler's promise rejects instead of giving a response. */
  datatype Failure =
    | MalformedBody              // `request.json()` rejected
    | PayloadOfNull              // `body.payload` with `body === null` throws a TypeError
    | HandlerFailed(reason: Value)

  datatype Outcome = Respond(status: nat, text: string) | Throw(failure: Failure)

  datatype Run = Run(calls: seq<Call>, outcome: Outcome)

  /** `!x` is false exactly for a non-empty string. */
  predicate Present(x: Option<string>)
  {
    x.Some? && x.value != ""
  }

  /** `body.payload`: `None` when reading it throws. */
  function PayloadOf(body: Value): Option<Value>
  {
    match body
    case Undefined => None
    case Null => None
    case Obj(fields) => Some(if "payload" in fields then fields["payload"] else Undefined)
    case _ => Some(Undefined)
  }

  function Stage(c: Call): nat
  {
    match c
    case ReadBody => 0
    case Verify(_, _) => 1
    case Invoke(_, _) => 2
  }

  /** Reading the body, verifying and calling the handler happen in this
      order, each at most once, and none is skipped before a later one. */
  predicate InOrder(calls: seq<Call>)
  {
    |calls| <= 3 && forall i | 0 <= i < |calls| :: Stage(calls[i]) == i
  }

  /** One inbound request against a registry. */
  function Handle(req: Inbound, verify: Verifier, registry: Registry, invoke: Invoker): (r: Run)
    ensures InOrder(r.calls)
    ensures forall c | c in r.calls && c.Invoke? ::
      req.key.Some? && req.key.value in registry && c.handler == registry[req.key.value]
    ensures forall c | c in r.calls && c.Verify? :: req.signature == Some(c.signature) && req.body == Some(c.body)
    ensures r.outcome == Respond(200, "") ==> |r.calls| == 3
  {
    if !Present(req.signature) || !Present(req.key) then
      Run([], Respond(400, MissingMessage))
    else if req.body.None? then
      Run([ReadBody], Throw(MalformedBody))
    else
      var signature, key, body := req.signature.value, req.key.value, req.body.value;
      var checked := [ReadBody, Verify(signature, body)];
      if !verify(signature, body) then
        Run(checked, Respond(400, InvalidMessage))
      else if key !in registry then
        Run(checked, Respond(404, NotRegisteredMessage))
      else if PayloadOf(body).None? then
        Run(checked, Throw(PayloadOfNull))
      else
        var handler, arg := registry[key], PayloadOf(body).value;
        Run(checked + [Invoke(handler, arg)],
            match invoke(handler, arg)
            case Resolved => Respond(200, "")
            case Rejected(reason) => Throw(HandlerFailed(reason)))
  }

  /** An absent or empty signature or key, and nothing else, gives
      400 "Missing signature or key"; then the body is not read, the
      signature not verified and no handler called. */
  lemma MissingSignatureOrKey(req: Inbound, verify: Verifier, registry: Registry, invoke: Invoker)
    ensures var r := Handle(req, verify, registry, invoke);
      (!Present(req.signature) || !Present(req.key)) <==> r.outcome == Respond(400, MissingMessage)
    ensures !Present(req.signature) || !Present(req.key) ==> Handle(req, verify, registry, invoke).calls == []
  {
  }

  /** A rejected signature gives 400 "Invalid signature" and calls no
      handler, whether or not the key is registered. */
  lemma InvalidSignature(req: Inbound, verify: Verifier, registry: Registry, invoke: Invoker)
    requires Present(req.signature) && Present(req.key) && req.body.Some?
    requires !verify(req.signature.value, req.body.value)
    ensures Handle(req, verify, registry, invoke) ==
      Run([ReadBody, Verify(req.signature.value, req.body.value)], Respond(400, InvalidMessage))
  {
  }

  /** Verification comes before the lookup: an unregistered key answers 404
      only when the signature is accepted, and 400 otherwise. */
  lemma VerifyBeforeLookup(req: Inbound, verify: Verifier, registry: Registry, invoke: Invoker)
    requires Present(req.signature) && Present(req.key) && req.body.Some?
    requires req.key.value !in registry
    ensures Handle(req, verify, registry, invoke).outcome ==
      if verify(req.signature.value, req.body.value) then Respond(404, NotRegisteredMessage)
      else Respond(400, InvalidMessage)
    ensures forall c | c in Handle(req, verify, registry, invoke).calls :: !c.Invoke?
  {
  }

  /** When every check passes, the registered handler, and only it, is
      called once with `body.payload`; the answer is an empty 200 once it
      resolves, and its rejection propagates untranslated. */
  lemma RunsRegisteredHandler(req: Inbound, verify: Verifier, registry: Registry, invoke: Invoker)
    requires Present(req.signature) && Present(req.key) && req.body.Some?
    requires verify(req.signature.value, req.body.value)
    requires req.key.value in registry
    requires PayloadOf(req.body.value).Some?
    ensures var h, arg := registry[req.key.value], PayloadOf(req.body.value).value;
      && Handle(req, verify, registry, invoke).calls ==
         [ReadBody, Verify(req.signature.value, req.body.value), Invoke(h, arg)]
      && Handle(req, verify, registry, invoke).outcome ==
         (if invoke(h, arg).Resolved? then Respond(200, "") else Throw(HandlerFailed(invoke(h, arg).reason)))
  {
  }

  /** The handler receives the `payload` field of an object body, and
      `undefined` when the body is any other non-null value. */
  lemma PayloadField(body: Value)
    ensures body.Obj? && "payload" in body.fields ==> PayloadOf(body) == Some(body.fields["payload"])
    ensures !body.Obj? && !body.Null? && !body.Undefined? ==> PayloadOf(body) == Some(Undefined)
    ensures PayloadOf(body).None? <==> body == Null || body == Undefined
  {
  }

  /** A body that cannot be read, or a `null` body once the checks pass,
      makes the request fail instead of answering. */
  lemma BodyFailuresPropagate(req: Inbound, verify: Verifier, registry: Registry, invoke: Invoker)
    requires Present(req.signature) && Present(req.key)
    ensures req.body.None? ==> Handle(req, verify, registry, invoke) == Run([ReadBody], Throw(MalformedBody))
    ensures req.body == Some(Null) && verify(req.signature.value, Null) && req.key.value in registry ==>
      Handle(req, verify, registry, invoke) == Run([ReadBody, Verify(req.signature.value, Null)], Throw(PayloadOfNull))
  {
  }

  /** An empty 200 is given exactly when every check passes and the
      handler resolves. */
  lemma {:induction false} SucceedsIff(req: Inbound, verify: Verifier, registry: Registry, invoke: Invoker)
    ensures Handle(req, verify, registry, invoke).outcome == Respond(200, "") <==>
      && Present(req.signature) && Present(req.key) && req.body.Some?
      && verify(req.signature.value, req.body.value)
      && req.key.value in registry
      && PayloadOf(req.body.value).Some?
      && invoke(registry[req.key.value], PayloadOf(req.body.value).value).Resolved?
  {
  }
}
