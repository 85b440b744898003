/** `createHandler` of packages/core/adapters/nextjs.ts: the registry and the
    receiver are made once, and the returned `POST` answers every request
    against that same registry. */
module NextAdapter {
  import opened Values
  import opened Jobs
  import opened Webhook

  /** `new Receiver({ currentSigningKey, nextSigningKey })`, as the verdict
      function of the receiver it builds. */
  type ReceiverFactory = (string, string) -> Verifier

  class NextHandler {
    const registry: Registry
    const receiver: Verifier

    /** `createHandler({ jobs, nextSigningKey, currentSigningKey })`. */
    constructor (jobs: seq<Job>, nextSigningKey: string, currentSigningKey: string, newReceiver: ReceiverFactory)
      ensures registry == Built(jobs)
      ensures registry.Keys == KeysOf(jobs)
      ensures forall i | LastWithKey(jobs, i) :: registry[jobs[i].key] == jobs[i].handler
      ensures receiver == newReceiver(currentSigningKey, nextSigningKey)
    {
      receiver := newReceiver(currentSigningKey, nextSigningKey);
      var r := BuildRegistry(jobs);
      registry := r;
    }

    /** `POST(request)`: the shared check chain on the registry built at
        construction, which it only reads. */
    function Post(request: Inbound, invoke: Invoker): (r: Run)
      ensures r == Handle(request, receiver, registry, invoke)
    {
      Handle(request, receiver, registry, invoke)
    }
  }
}
