/** The job manager of src/manager.ts: it makes job objects that run their
    handler in process or publish a request that the queue service delivers
    back to the webhook endpoint. */
module Manager {
  import opened Values
  import opened Jobs
  import opened Webhook

  /** The publish client. Publishing is a network call; the model keeps only
      the log of the requests handed to `publishJSON`, in order. */
  class Client {
    ghost var published: seq<Record>

    constructor ()
      ensures published == []
    {
      published := [];
    }

    method PublishJSON(request: Record)
      modifies this
      ensures published == old(published) + [request]
    {
      published := published + [request];
    }
  }

  /** The three fields `buildRequest` writes after spreading the options. */
  const Overridden: set<string> := {"body", "method", "url"}

  class JobManager {
    const client: Client
    const endpoint: string

    /** `new JobManager({ client, endpoint })`: the only place either is set. */
    constructor (client: Client, endpoint: string)
      ensures this.client == client && this.endpoint == endpoint
    {
      this.client := client;
      this.endpoint := endpoint;
    }

    /** `createJob(key, handler)`. */
    method CreateJob(key: string, handler: Handler) returns (job: JobObject)
      ensures fresh(job)
      ensures job.key == key && job.handler == handler && job.manager == this
    {
      job := new JobObject(key, handler, this);
    }

    /** `buildRequest(key, body, options)`: the options first, then `body`,
        `method` and `url`, which override any option of the same name. */
    function BuildRequest(key: string, body: Value, options: Option<Record>): (r: Record)
      ensures r.Keys == Spread(options).Keys + Overridden
      ensures r["body"] == body
      ensures r["method"] == Str("POST")
      ensures r["url"] == Str(endpoint + "?job=" + key)
      ensures forall f | f in Spread(options) && f !in Overridden :: r[f] == Spread(options)[f]
    {
      Spread(options) + map["body" := body, "method" := Str("POST"), "url" := Str(endpoint + "?job=" + key)]
    }

    /** `dispatch(key, body, options)`: publish the built request, once. */
    method Dispatch(key: string, body: Value, options: Option<Record>)
      modifies client
      ensures client.published == old(client.published) + [BuildRequest(key, body, options)]
    {
      var request := BuildRequest(key, body, options);
      client.PublishJSON(request);
    }

    /** What the evident intent asks of `buildRequest`: the webhook hands
        `body.payload` to the handler, so the payload travels under that field. */
    function BuildEnvelopedRequest(key: string, payload: Value, options: Option<Record>): (r: Record)
      ensures r.Keys == Spread(options).Keys + Overridden
      ensures r["body"] == Obj(map["payload" := payload])
      ensures r["method"] == Str("POST") && r["url"] == Str(endpoint + "?job=" + key)
      ensures forall f | f in Spread(options) && f !in Overridden :: r[f] == Spread(options)[f]
    {
      BuildRequest(key, Obj(map["payload" := payload]), options)
    }
  }

  /** The object `createJob` returns: its key and handler, and closures over
      them and the manager that made it. */
  class JobObject {
    const key: string
    const handler: Handler
    const manager: JobManager

    constructor (key: string, handler: Handler, manager: JobManager)
      ensures this.key == key && this.handler == handler && this.manager == manager
    {
      this.key := key;
      this.handler := handler;
      this.manager := manager;
    }

    /** `run(payload)`: the handler's own call, result unchanged. */
    function Run(payload: Value, invoke: Invoker): Completion
    {
      invoke(handler, payload)
    }

    /** `dispatch(payload, options)`: a dispatch under this job's own key. */
    method Dispatch(payload: Value, options: Option<Record>)
      modifies manager.client
      ensures manager.client.published == old(manager.client.published) + [manager.BuildRequest(key, payload, options)]
    {
      manager.Dispatch(key, payload, options);
    }
  }

  /** `createManager(config)`. */
  method CreateManager(client: Client, endpoint: string) returns (m: JobManager)
    ensures fresh(m) && m.client == client && m.endpoint == endpoint
  {
    m := new JobManager(client, endpoint);
  }

  /** The callback that delivers `body` for the job `key`, signed with `signature`. */
  function Delivery(signature: string, key: string, body: Value): Inbound
  {
    Inbound(Some(signature), Some(key), Some(body))
  }

  /** Running a registered job in process and receiving a callback for it
      call the same handler; the webhook passes it the `payload` field of
      the delivered body, and answers 200 exactly when `run` would resolve. */
  lemma {:induction false} RunAgreesWithWebhook(job: JobObject, jobs: seq<Job>, i: int, signature: string,
                                                payload: Value, verify: Verifier, invoke: Invoker)
    requires LastWithKey(jobs, i) && jobs[i] == Job(job.key, job.handler)
    requires job.key != "" && signature != ""
    requires verify(signature, Obj(map["payload" := payload]))
    ensures var r := Handle(Delivery(signature, job.key, Obj(map["payload" := payload])), verify, Built(jobs), invoke);
      && r.calls[|r.calls| - 1] == Invoke(job.handler, payload)
      && (r.outcome == Respond(200, "") <==> job.Run(payload, invoke) == Resolved)
  {
    LastDuplicateWins(jobs, i);
    var body := Obj(map["payload" := payload]);
    assert PayloadOf(body) == Some(payload);
    RunsRegisteredHandler(Delivery(signature, job.key, body), verify, Built(jobs), invoke);
  }

  /** As written, a dispatched object payload without a `payload` field
      reaches the handler as `undefined`, whatever the key and options. */
  lemma DispatchedPayloadLost(m: JobManager, key: string, fields: map<string, Value>, options: Option<Record>,
                              registry: Registry, signature: string, verify: Verifier, invoke: Invoker)
    requires "payload" !in fields
    requires key in registry && key != "" && signature != ""
    requires verify(signature, Obj(fields))
    ensures var sent := m.BuildRequest(key, Obj(fields), options);
      var r := Handle(Delivery(signature, key, sent["body"]), verify, registry, invoke);
      r.calls[2] == Invoke(registry[key], Undefined) && Undefined != Obj(fields)
  {
  }

  /** The instance: `{ to: "a@b.com" }` dispatched for "send-email" is lost. */
  lemma EmailPayloadLost(m: JobManager, registry: Registry, signature: string, verify: Verifier, invoke: Invoker)
    requires "send-email" in registry && signature != ""
    requires verify(signature, Obj(map["to" := Str("a@b.com")]))
    ensures var payload := Obj(map["to" := Str("a@b.com")]);
      var sent := m.BuildRequest("send-email", payload, None);
      var r := Handle(Delivery(signature, "send-email", sent["body"]), verify, registry, invoke);
      r.calls[2] == Invoke(registry["send-email"], Undefined) && Undefined != payload
  {
    DispatchedPayloadLost(m, "send-email", map["to" := Str("a@b.com")], None, registry, signature, verify, invoke);
  }

  /** With the payload sent under `payload`, every dispatched payload reaches
      the registered handler unchanged, provided the queue delivers the
      published body as it was sent. */
  lemma EnvelopedPayloadDelivered(m: JobManager, key: string, payload: Value, options: Option<Record>,
                                  registry: Registry, signature: string, verify: Verifier, invoke: Invoker)
    requires key in registry && key != "" && signature != ""
    requires verify(signature, m.BuildEnvelopedRequest(key, payload, options)["body"])
    ensures var sent := m.BuildEnvelopedRequest(key, payload, options);
      Handle(Delivery(signature, key, sent["body"]), verify, registry, invoke).calls[2] == Invoke(registry[key], payload)
  {
  }
}
