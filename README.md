# skippy-kubernetes adapter core, modelled in Dafny

skippy is a placement engine for edge clusters; `skippy-kubernetes` is the
adapter that lets it schedule pods on a Kubernetes cluster. This project
models the two parts of the adapter that hold logic of their own:

- **Object translation** (`skippy/kube/utils.py`): Kubernetes `V1Node`,
  `V1Pod` and `V1Container` objects become skippy's `Node`, `Pod`,
  `Container` and `ResourceRequirements` values. CPU cores become
  millicores through Python's `int()`. A node's allocatable capacity starts
  equal to its capacity. A container is named after its image. Request keys
  are kept and every request value goes through `parse_size_string`. Pod
  name, namespace, labels and container order are copied. Any exception is
  an `Err` result, and a list comprehension stops at the first element that
  raises.
- **The watch loop** (`skippy/kube/main.py`): every pod event is checked
  for eligibility. The pod must be `Pending`, the event must be `ADDED`, and
  the pod must name the configured scheduler unless no name is configured.
  An eligible pod is translated and handed to `scheduler.schedule`. The
  command-line value `"None"` switches the scheduler-name filter (and the
  namespace) off. `WatchLoop.Run` and the method `WatchLoop.WatchLoop` model
  the loop as intended: an exception raised for one event is logged and the
  next event is still handled. `WatchLoop.RunAsWritten` models the code as
  written: when the `ApiException` handler itself raises, the loop ends
  (see Findings).

Files:

- `base.dfy`: `Option`, `Result` and the exceptions (`Error`) that can be raised.
- `pyint.dfy`: Python's `int(text)` in base 10 and `str(n)` for integers, with the round trip between them.
- `kube_objects.dfy`: the Kubernetes client objects, reduced to the fields the adapter reads.
- `core_model.dfy`: skippy's `Capacity`, `Node`, `ResourceRequirements`, `Container`, `PodSpec`, `Pod`.
- `translate.dfy`: `create_nodes`, `create_node`, `create_container`, `create_pod`, as pure functions.
- `watch_loop.dfy`: the event filter, the per-event handling, the loop as a method and its specification, and the loop as written (see Findings).

How things outside the adapter are handled:

- `parse_size_string` lives in `core.utils`, which is not part of this model. It is the parameter `parseSize: string -> Result<int>`, which may fail, and every property about sizes is stated relative to it.
- `scheduler.schedule` is the parameter `schedule: (seq<Pod>, Pod) -> Result<SchedulingResult>`. Its first argument is every pod handed to the scheduler before, oldest first. This stands for the scheduler's hidden state, and the call may raise.
- The body of an `ApiException` is decoded by `json.loads(...)['message']`. This is the parameter `decodeMessage`, which returns None when decoding raises.
- The watch stream is a finite sequence of events. Its end stands for the keyboard interrupt that stops the loop.

## Model

| member | source | states |
|---|---|---|
| `Translate.MapAll` | skippy/kube/utils.py:10 | A list comprehension succeeds exactly when every element succeeds. Its result then has one entry per element, in order. Otherwise it raises the error of the first element that fails. |
| `Translate.CreateNode` | skippy/kube/utils.py:13-20 | The node succeeds exactly when "cpu" and "memory" are present, `int()` accepts the cpu value and the size parser accepts the memory value. Then cpu millis is `int(cpu) * 1000`, so a whole number of cores, and memory is the parsed size. Allocatable equals capacity, and name and labels come from the metadata. A missing "cpu" raises `KeyError("cpu")`, a non-integer cpu raises `ValueError`, a missing "memory" raises `KeyError("memory")`, and a memory value the size parser rejects raises the parser's own error. |
| `Translate.CreateNodes` | skippy/kube/utils.py:9-10 | Succeeds exactly when every V1 node translates. Then the result has the same length, element i is `create_node` of input i, and every node has allocatable equal to capacity and whole cores. Otherwise it raises the first node's error. |
| `Translate.CreateContainer` | skippy/kube/utils.py:23-31 | The name is the image. Resources are absent exactly when `requests` is None. Otherwise the requests hold the same keys in the same order, each value the parsed size of the original. It fails exactly when some request value does not parse, with the first such error. |
| `Translate.CreatePod` | skippy/kube/utils.py:34-40 | One container per V1 container, in order, each being `create_container` of its original. Name, namespace and labels are copied from the metadata. It fails exactly when some container fails, with the first container's error. |
| `Translate.CreateNodeRoundTrip` | skippy/kube/utils.py:13-20 | Take a node with allocatable equal to capacity and whole cores. Write it as a V1 node whose cpu is Python's numeral for its cores and whose memory quantity parses to its memory. That V1 node translates back to exactly the same node. |
| `Translate.CreateNodeExample` | skippy/kube/utils.py:16-19 | A node reporting cpu "2" and memory "8Gi" (parsed as 8 GiB) gets capacity and allocatable both equal to (2000, 8589934592). |
| `Translate.MillicoreCpuRejected` | skippy/kube/utils.py:16 | A cpu quantity containing `m` (such as "500m") makes the node raise `ValueError`, rather than yield a value. |
| `PyInt.ParseInt` | skippy/kube/utils.py:16 | Python's `int(text)` in base 10: after stripping surrounding whitespace, an optional sign followed by digits, single underscores allowed between digits, gives that integer. Anything else raises `ValueError` (None). |
| `PyInt.ParseIntRoundTrip` | skippy/kube/utils.py:16 | `int(str(n)) == n` for every integer n (the digit-count limit of newer CPython releases is not modelled; see Left out). |
| `PyInt.ParseIntPadded` | skippy/kube/utils.py:16 | `int()` ignores whitespace around a numeral. |
| `PyInt.ParseIntAlphabet` | skippy/kube/utils.py:16 | A string `int()` accepts contains only whitespace, digits, underscores and signs. |
| `PyInt.ParseIntRejects` | skippy/kube/utils.py:16 | A string with any other character (a unit suffix such as `m` or `Gi`) makes `int()` raise. |
| `PyInt.NatToStringValue` | skippy/kube/utils.py:16 | Python's numeral for a natural number is a non-empty digit string whose value is that number. |
| `WatchLoop.ArgumentValue` | skippy/kube/main.py:37-38 | The option value `"None"` becomes no value, and no other value is changed. The result is never `"None"`. |
| `WatchLoop.Eligible` | skippy/kube/main.py:99-101 | An event is eligible exactly when its pod is `Pending`, its type is `ADDED`, and the pod names the configured scheduler or no scheduler name is configured. |
| `WatchLoop.HandleEvent` | skippy/kube/main.py:98-112 | The body of the per-event `try`: an ineligible event is ignored; an eligible one is translated with `create_pod`, a translation error is caught and kept, and otherwise the pod is handed to `schedule` together with the pods scheduled before it, whose answer or exception is kept. |
| `WatchLoop.NoneDisablesNameFilter` | skippy/kube/main.py:100 | With the scheduler-name option set to `"None"`, an event is eligible exactly when its pod is `Pending` and the event is `ADDED`. The pod's scheduler name is not looked at. |
| `WatchLoop.Run` | skippy/kube/main.py:96-112 | The specification of the loop gives exactly one outcome per event. |
| `WatchLoop.WatchLoop` | skippy/kube/main.py:96-112 | The loop method's outcomes are the specification's outcomes. The pods it hands to the scheduler are exactly the reference pods: the translations of the eligible, translatable events, in arrival order. They are also the pods of its `Scheduled` outcomes. |
| `WatchLoop.RunSnoc` | skippy/kube/main.py:96 | Handling one more event appends exactly that event's outcome. The scheduler then sees every pod scheduled before it. |
| `WatchLoop.RunAt` | skippy/kube/main.py:96-104 | The outcome of the k-th event is that event handled on its own. At that point the scheduler has seen the pods of the eligible, translatable events before it. |
| `WatchLoop.RunDispatchesEligiblePods` | skippy/kube/main.py:99-104 | Across the whole run, `schedule` is called exactly once per eligible, translatable event, in arrival order, and for nothing else. |
| `WatchLoop.OutcomeOfEvent` | skippy/kube/main.py:98-112 | Each event is decided by that event alone. It is ignored exactly when ineligible. It fails exactly when eligible but untranslatable, and carries the translation's error. It is scheduled exactly when eligible and translatable, as its translation. |
| `WatchLoop.ScheduledOnlyIfEligible` | skippy/kube/main.py:99-101 | A scheduled event has a `Pending` pod and type `ADDED`. When a scheduler name is configured, the pod names that scheduler. |
| `WatchLoop.RunningPodIgnored` | skippy/kube/main.py:99 | An event about a `Running` pod is never scheduled. |
| `WatchLoop.FailureDoesNotStopLaterEvents` | skippy/kube/main.py:98-112 | Suppose an earlier event failed, in translation or in the scheduler. A later eligible, translatable event is still scheduled. |
| `WatchLoop.HandlerRaises` | skippy/kube/main.py:106-108 | The `except ApiException` handler itself raises exactly when the event's exception is an `ApiException` whose body is None (so `json.loads` raises) or whose body `json.loads(...)['message']` cannot decode. |
| `WatchLoop.RunAsWritten` | skippy/kube/main.py:96-113 | The loop as written handles at most as many events as the stream holds. |
| `WatchLoop.AsWrittenStopsAtHandlerFailure` | skippy/kube/main.py:106-113 | The loop as written agrees with the intended loop up to its end. It stops at the first event whose `ApiException` handler raises: no earlier outcome has a raising handler, and it ends early only right after one that does. When no handler raises, it handles every event. |
| `WatchLoop.ApiHandlerCrashExample` | skippy/kube/main.py:106-108 | Take two pending pods, where scheduling the first raises an `ApiException` without a body. The loop as written stops after the first pod, while the intended loop schedules the second pod. |

## Findings

| source | as written | input that shows it | evidently intended | confidence | as-written member | corrected member |
|---|---|---|---|---|---|---|
| skippy/kube/main.py:106-108 | The `except ApiException` handler evaluates `json.loads(e.body)['message']` itself. If that raises, the sibling `except Exception` does not catch it, and the outer `try` only catches `KeyboardInterrupt`. So the exception leaves `main()` and the scheduler stops. | Two pending `ADDED` pods for this scheduler, where scheduling the first raises `ApiException` with body None. A client-side `ApiException(status=0, reason=...)` has no HTTP response. A non-JSON error body does the same. (As written, skippy/kube/main.py:58 calls `KubeClusterContext()` without the `target_namespace` argument that skippy/kube/kubeclustercontext.py:13 requires, so the loop is reached only once that call is fixed.) | Log the exception and go on with the next event, as the comment on lines 110-111 and the `except Exception` clause show. | high, not executed | `WatchLoop.RunAsWritten`, `WatchLoop.ApiHandlerCrashExample` | `WatchLoop.WatchLoop`, `WatchLoop.FailureDoesNotStopLaterEvents` |

## Notes on the code

- A node's cpu value is read with `int()` (skippy/kube/utils.py:16), so a millicore quantity such as `500m` raises `ValueError` (`Translate.MillicoreCpuRejected`).
- Nothing checks that a capacity is non-negative: a cpu value of `"-2"` gives -2000 millicores. Capacities are therefore `int`.
- The code modelled here has no node caching, storage-node discovery, no-schedule filtering, bandwidth graphs, static image states or handling of binding errors.
- Container request values (including `cpu`) go through `parse_size_string`; there is no separate CPU rule for containers.

## Left out

- Argument parsing, log-level setup and kube-config loading (skippy/kube/main.py:19-52) are configuration I/O. Only the `"None"` sentinel (lines 37-38) is modelled.
- Priority weights and the priority list (skippy/kube/main.py:39, 54-72) need float parsing and priority classes that are not part of this model.
- The `Scheduler` (skippy/kube/main.py:73, 104) is external. It is the `schedule` parameter, a function of the pods handed to it before. A scheduler whose answers depend on anything else is not captured.
- Watch-stream creation and namespace scoping (skippy/kube/main.py:76-82) are network I/O.
- Logging, including the log lines at skippy/kube/main.py:84-87 and 103-105, is not modelled.
- The `KeyboardInterrupt` handler (skippy/kube/main.py:113-114) is the end of the event sequence.
- skippy/kube/kubeclustercontext.py is left out. Its node functions are stubs, `place_pod_on_node` delegates to a superclass that is not part of this model and then calls the cluster API, and `list_nodes` only maps an API call.
- skippy/kube/liveness_probe.py (an HTTP server thread) and setup.py (packaging) are left out.
- `core.model` and `core.utils` are not part of this model. The values of `core.model` are rebuilt from the constructor calls in skippy/kube/utils.py.
- PyInt.ParseInt: models `int()` on ASCII text only. Python also accepts non-ASCII decimal digits and non-ASCII Unicode whitespace (such as U+0085 and U+00A0), which the model treats as raising.
- PyInt.ParseInt, PyInt.ParseIntRoundTrip, PyInt.ParseIntPadded, Translate.CreateNode: the limit on the length of decimal conversions is not modelled. CPython 3.7.14 and later security releases make `int(text)` and `str(n)` raise `ValueError` above 4300 digits by default (the limit is changed by `PYTHONINTMAXSTRDIGITS`, and earlier 3.7 releases have none). So `int("1" * 4301)` raises at skippy/kube/utils.py:16 where `Translate.CreateNode` returns `Ok`, and the round trip `int(str(n)) == n` holds in Python only for numerals of at most that many digits.
- Translate.CreateNode, Translate.CreatePod, Translate.CreateContainer: an attribute that is None where the code expects an object is not modelled. This covers metadata, spec, status, resources and capacity, which would raise `AttributeError` or `TypeError`. The API server always fills these in. Inside the loop such an exception would be caught like any other.
- WatchLoop.HandleEvent: a watch event whose object is not a pod (for example an `ERROR` event) is not modelled. In the code, reading its `status` raises inside the per-event `try` and is caught, so nothing is scheduled. A pod name of None, which makes the string concatenation on line 103 raise, is not modelled either.
- `create_nodes` is not called by any code in this repository. `KubeClusterContext` uses its own stub instead.
