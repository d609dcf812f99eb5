/** Results that may be missing or failed. */
module Results {

  datatype Option<T> = None | Some(value: T)

  datatype Result<T> = Ok(value: T) | Err(message: string)
}

/** The names of pods and of the allocations, one for every container, that carry their costs. */
module Workloads {

  datatype PodKey = PodKey(cluster: string, ns: string, pod: string)

  /** An allocation is a container of a pod. */
  datatype AllocId = AllocId(pod: PodKey, container: string)

  const UNMOUNTED_SUFFIX := "__unmounted__"
}

/** Spans of time. */
module Times {

  /** Instants are integers; a window holds the instants from `start` up to `end`. */
  datatype Window = Window(start: int, end: int)
}
