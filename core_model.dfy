/**
 * The placement engine's own model of the cluster (`core.model`): the values
 * the adapter hands to the scheduler.
 */
module CoreModel {
  import opened Base

  /** CPU in millicores and memory in bytes, as numbers without a unit. */
  datatype Capacity = Capacity(cpuMillis: int, memory: int)

  datatype Node = Node(
    name: string,
    labels: Option<map<string, string>>,
    capacity: Capacity,
    allocatable: Capacity)

  /** Resource name to requested amount, in the order the pod declared them. */
  datatype ResourceRequirements = ResourceRequirements(requests: seq<(string, int)>)

  /** A container is named after the image it runs. */
  datatype Container = Container(name: string, resources: Option<ResourceRequirements>)

  datatype PodSpec = PodSpec(containers: seq<Container>, labels: Option<map<string, string>>)

  datatype Pod = Pod(name: string, namespace: Option<string>, spec: PodSpec)
}
