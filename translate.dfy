/**
 * Translation of Kubernetes client objects into the placement engine's model
 * (skippy/kube/utils.py).  Every function here is pure; an exception raised
 * on the way is an `Err` result, and a list comprehension stops at the first
 * element that raises.
 */
module Translate {
  import opened Base
  import opened PyInt
  import opened KubeObjects
  import opened CoreModel

  /** `parse_size_string` of `core.utils`: turns a quantity string into a
      number or raises.  Its rules live outside this adapter, so it is a
      parameter of every translation that uses it. */
  type SizeParser = string -> Result<int>

  /** `e` is what the first element of `xs` on which `f` raises raises. */
  ghost predicate FirstError<A, B>(f: A -> Result<B>, xs: seq<A>, e: Error) {
    exists k | 0 <= k < |xs| :: f(xs[k]).Err? && f(xs[k]).error == e && forall i | 0 <= i < k :: f(xs[i]).Ok?
  }

  /** The list comprehension `[f(x) for x in xs]`: the results in order, or
      the exception of the first element on which `f` raises. */
  function MapAll<A, B>(f: A -> Result<B>, xs: seq<A>): (r: Result<seq<B>>)
    ensures r.Ok? <==> forall i | 0 <= i < |xs| :: f(xs[i]).Ok?
    ensures r.Ok? ==> |r.value| == |xs| && forall i | 0 <= i < |xs| :: r.value[i] == f(xs[i]).value
    ensures r.Err? ==> FirstError(f, xs, r.error)
  {
    if xs == [] then Ok([])
    else
      match f(xs[0])
      case Err(e) => Err(e)
      case Ok(y) =>
        match MapAll(f, xs[1..])
        case Err(e) => Err(e)
        case Ok(ys) => Ok([y] + ys)
  }

  /** `d.keys()` and `d.values()` of a dict, in insertion order. */
  function Keys<K, V>(d: seq<(K, V)>): seq<K> {
    seq(|d|, i requires 0 <= i < |d| => d[i].0)
  }

  function Values<K, V>(d: seq<(K, V)>): seq<V> {
    seq(|d|, i requires 0 <= i < |d| => d[i].1)
  }

  /** `dict(zip(ks, vs))`: pairs up to the shorter of the two. */
  function Zip<K, V>(ks: seq<K>, vs: seq<V>): seq<(K, V)> {
    var n := if |ks| <= |vs| then |ks| else |vs|;
    seq(n, i requires 0 <= i < n => (ks[i], vs[i]))
  }

  /** The requests of a translated container: the same keys in the same
      order, each value the parsed size of the original quantity. */
  predicate RequestsParsed(requests: seq<(string, string)>, parsed: seq<(string, int)>, parseSize: SizeParser) {
    && Keys(parsed) == Keys(requests)
    && forall i | 0 <= i < |requests| :: parseSize(requests[i].1) == Ok(parsed[i].1)
  }

  /** `create_container`: the container is named after its image; it has
      resource requirements exactly when the V1 container has requests, and
      then they hold every request key with its parsed value.  It fails
      exactly when some request value does not parse, with the error of the
      first such value. */
  function CreateContainer(c: V1Container, parseSize: SizeParser): (r: Result<Container>)
    ensures r.Ok? <==> c.resources.requests.None? || forall q | q in Values(c.resources.requests.value) :: parseSize(q).Ok?
    ensures r.Ok? ==> r.value.name == c.image
    ensures r.Ok? ==> (r.value.resources.None? <==> c.resources.requests.None?)
    ensures r.Ok? && c.resources.requests.Some? ==>
              RequestsParsed(c.resources.requests.value, r.value.resources.value.requests, parseSize)
    ensures r.Err? ==> c.resources.requests.Some? && FirstError(parseSize, Values(c.resources.requests.value), r.error)
  {
    var name := c.image;
    match c.resources.requests
    case None => Ok(Container(name, None))
    case Some(requests) =>
      match MapAll(parseSize, Values(requests))
      case Err(e) => Err(e)
      case Ok(sizes) => Ok(Container(name, Some(ResourceRequirements(Zip(Keys(requests), sizes)))))
  }

  /** `create_pod`: one container per V1 container, in the same order, and
      name, namespace and labels copied from the metadata.  It fails exactly
      when some container fails, with the first container's error. */
  function CreatePod(pod: V1Pod, parseSize: SizeParser): (r: Result<Pod>)
    ensures r.Ok? <==> forall c | c in pod.spec.containers :: CreateContainer(c, parseSize).Ok?
    ensures r.Ok? ==> && r.value.name == pod.metadata.name
                      && r.value.namespace == pod.metadata.namespace
                      && r.value.spec.labels == pod.metadata.labels
    ensures r.Ok? ==> && |r.value.spec.containers| == |pod.spec.containers|
                      && forall i | 0 <= i < |pod.spec.containers| ::
                           CreateContainer(pod.spec.containers[i], parseSize) == Ok(r.value.spec.containers[i])
    ensures r.Err? ==> FirstError((c: V1Container) => CreateContainer(c, parseSize), pod.spec.containers, r.error)
  {
    var name := pod.metadata.name;
    match MapAll((c: V1Container) => CreateContainer(c, parseSize), pod.spec.containers)
    case Err(e) => Err(e)
    case Ok(containers) =>
      Ok(Pod(name, pod.metadata.namespace, PodSpec(containers, pod.metadata.labels)))
  }

  /** `create_node`: CPU cores become `int(cores) * 1000` millicores, memory
      is the parsed size of the memory quantity, and the allocatable
      capacity starts equal to the capacity.  It raises `KeyError` for a
      missing "cpu" or "memory" entry, `ValueError` for a CPU quantity that
      is not a plain integer, and whatever the size parser raises. */
  function CreateNode(v1node: V1Node, parseSize: SizeParser): (r: Result<Node>)
    ensures var cap := v1node.status.capacity;
            r.Ok? <==> && "cpu" in cap && ParseInt(cap["cpu"]).Some?
                       && "memory" in cap && parseSize(cap["memory"]).Ok?
    ensures var cap := v1node.status.capacity;
            r.Ok? ==> && r.value.capacity.cpuMillis == ParseInt(cap["cpu"]).value * 1000
                      && parseSize(cap["memory"]) == Ok(r.value.capacity.memory)
    ensures r.Ok? ==> r.value.allocatable == r.value.capacity && r.value.capacity.cpuMillis % 1000 == 0
    ensures r.Ok? ==> r.value.name == v1node.metadata.name && r.value.labels == v1node.metadata.labels
    ensures "cpu" !in v1node.status.capacity ==> r == Err(KeyError("cpu"))
    ensures var cap := v1node.status.capacity;
            "cpu" in cap && ParseInt(cap["cpu"]).None? ==> r == Err(ValueError(cap["cpu"]))
    ensures var cap := v1node.status.capacity;
            "cpu" in cap && ParseInt(cap["cpu"]).Some? && "memory" !in cap ==> r == Err(KeyError("memory"))
    ensures var cap := v1node.status.capacity;
            ("cpu" in cap && ParseInt(cap["cpu"]).Some? && "memory" in cap && parseSize(cap["memory"]).Err?)
              ==> r == Err(parseSize(cap["memory"]).error)
  {
    var name := v1node.metadata.name;
    var labels := v1node.metadata.labels;
    var cap := v1node.status.capacity;
    if "cpu" !in cap then Err(KeyError("cpu"))
    else match ParseInt(cap["cpu"])
      case None => Err(ValueError(cap["cpu"]))
      case Some(cores) =>
        var cpuMillis := cores * 1000;
        if "memory" !in cap then Err(KeyError("memory"))
        else match parseSize(cap["memory"])
          case Err(e) => Err(e)
          case Ok(memory) =>
            var capacity := Capacity(cpuMillis, memory);
            var allocatable := Capacity(cpuMillis, memory);
            Ok(Node(name, labels, capacity, allocatable))
  }

  /** `create_nodes`: one node per V1 node, in the same order, or the error
      of the first V1 node that does not translate.  Every node starts with
      allocatable equal to capacity and a whole number of cores. */
  function CreateNodes(v1nodes: seq<V1Node>, parseSize: SizeParser): (r: Result<seq<Node>>)
    ensures r.Ok? <==> forall i | 0 <= i < |v1nodes| :: CreateNode(v1nodes[i], parseSize).Ok?
    ensures r.Ok? ==> && |r.value| == |v1nodes|
                      && forall i | 0 <= i < |v1nodes| :: CreateNode(v1nodes[i], parseSize) == Ok(r.value[i])
    ensures r.Ok? ==> forall i | 0 <= i < |r.value| ::
                        r.value[i].allocatable == r.value[i].capacity && r.value[i].capacity.cpuMillis % 1000 == 0
    ensures r.Err? ==> FirstError((n: V1Node) => CreateNode(n, parseSize), v1nodes, r.error)
  {
    MapAll((n: V1Node) => CreateNode(n, parseSize), v1nodes)
  }

  /** Translating a V1 node that carries a node's name, labels, whole cores
      written as Python writes integers, and a memory quantity the parser
      reads as the node's memory gives back exactly that node. */
  lemma {:induction false} CreateNodeRoundTrip(node: Node, namespace: Option<string>, memoryQuantity: string, parseSize: SizeParser)
    requires node.allocatable == node.capacity
    requires node.capacity.cpuMillis % 1000 == 0
    requires parseSize(memoryQuantity) == Ok(node.capacity.memory)
    ensures var v1node := V1Node(V1ObjectMeta(node.name, namespace, node.labels),
                                 V1NodeStatus(map["cpu" := IntToString(node.capacity.cpuMillis / 1000),
                                                  "memory" := memoryQuantity]));
            CreateNode(v1node, parseSize) == Ok(node)
  {
    var cores := node.capacity.cpuMillis / 1000;
    assert cores * 1000 == node.capacity.cpuMillis;
    ParseIntRoundTrip(cores);
    var cap := map["cpu" := IntToString(cores), "memory" := memoryQuantity];
    assert cap["cpu"] == IntToString(cores) && cap["memory"] == memoryQuantity;
  }

  /** A node reporting 2 cores and a memory quantity the parser reads as
      8 GiB gets 2000 millicores and 8 GiB, allocatable as much. */
  lemma {:induction false} CreateNodeExample(parseSize: SizeParser)
    requires parseSize("8Gi") == Ok(8589934592)
    ensures var v1node := V1Node(V1ObjectMeta("n1", None, None), V1NodeStatus(map["cpu" := "2", "memory" := "8Gi"]));
            CreateNode(v1node, parseSize) == Ok(Node("n1", None, Capacity(2000, 8589934592), Capacity(2000, 8589934592)))
  {
    var node := Node("n1", None, Capacity(2000, 8589934592), Capacity(2000, 8589934592));
    CreateNodeRoundTrip(node, None, "8Gi", parseSize);
    assert IntToString(2000 / 1000) == "2";
  }

  /** A CPU quantity in millicores ("500m") is not a whole number of cores:
      the node does not translate, it raises `ValueError`. */
  lemma {:induction false} MillicoreCpuRejected(v1node: V1Node, parseSize: SizeParser)
    requires "cpu" in v1node.status.capacity
    requires 'm' in v1node.status.capacity["cpu"]
    ensures CreateNode(v1node, parseSize) == Err(ValueError(v1node.status.capacity["cpu"]))
  {
    var q := v1node.status.capacity["cpu"];
    var i :| 0 <= i < |q| && q[i] == 'm';
    ParseIntRejects(q, i);
  }
}
