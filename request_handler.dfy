/** `requestHandler` of src/request.ts: it registers the given jobs into a
    fresh registry on every call, then answers the request. */
module RequestHandler {
  import opened Values
  import opened Jobs
  import opened Webhook

  method RequestHandler(request: Inbound, jobs: seq<Job>, receiver: Verifier, invoke: Invoker)
    returns (r: Run)
    ensures r == Handle(request, receiver, Built(jobs), invoke)
    ensures request.key.Some? && request.key.value !in KeysOf(jobs) ==> !r.outcome.Respond? || r.outcome.status != 200
  {
    var registry := BuildRegistry(jobs);
    r := Handle(request, receiver, registry, invoke);
  }
}
