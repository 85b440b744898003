/** The process-wide registry of packages/core/index.ts: one map that
    `registerJob` updates in place. */
module GlobalRegistry {
  import opened Jobs

  class ModuleRegistry {
    /** `export const registry = new Map<string, JobFunction>()`. */
    var registry: Registry

    constructor ()
      ensures registry == map[]
    {
      registry := map[];
    }

    /** `registerJob(job)`: insert or overwrite the entry for `job.key`. */
    method RegisterJob(job: Job)
      modifies this
      ensures registry == Register(old(registry), job)
      ensures registry.Keys == old(registry).Keys + {job.key}
      ensures registry[job.key] == job.handler
      ensures forall k | k in old(registry) && k != job.key :: registry[k] == old(registry)[k]
    {
      registry := registry[job.key := job.handler];
    }
  }
}
