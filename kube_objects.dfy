/**
 * The Kubernetes client objects the adapter reads (`V1Node`, `V1Pod`,
 * `V1Container` and their parts), reduced to the fields it touches.
 * A Python dict whose order matters is a sequence of (key, value) pairs.
 */
module KubeObjects {
  import opened Base

  datatype V1ObjectMeta = V1ObjectMeta(
    name: string,
    namespace: Option<string>,
    labels: Option<map<string, string>>)

  /** `status.capacity`: resource name to quantity string ("4", "16Gi"). */
  datatype V1NodeStatus = V1NodeStatus(capacity: map<string, string>)

  datatype V1Node = V1Node(metadata: V1ObjectMeta, status: V1NodeStatus)

  /** `resources.requests` is None when the container asks for nothing. */
  datatype V1ResourceRequirements = V1ResourceRequirements(requests: Option<seq<(string, string)>>)

  datatype V1Container = V1Container(image: string, resources: V1ResourceRequirements)

  datatype V1PodSpec = V1PodSpec(containers: seq<V1Container>, schedulerName: Option<string>)

  datatype V1PodStatus = V1PodStatus(phase: Option<string>)

  datatype V1Pod = V1Pod(metadata: V1ObjectMeta, spec: V1PodSpec, status: V1PodStatus)
}
