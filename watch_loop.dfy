/**
 * The scheduler's main event loop (skippy/kube/main.py): every pod event of
 * the watch stream is checked for eligibility, and an eligible pod is
 * translated and handed to the scheduler.  `Run` and `WatchLoop` are the loop
 * as intended, where an exception raised for one event is logged and the next
 * event is still handled.  `RunAsWritten` is the loop as written, where an
 * `ApiException` handler that itself raises ends the loop.  The stream is a
 * finite sequence of events; its end stands for the keyboard interrupt that
 * stops the loop.
 */
module WatchLoop {
  import opened Base
  import opened KubeObjects
  import opened CoreModel
  import Translate

  /** The value of the `--scheduler-name` and `--namespace` options: the
      literal "None" switches the option off; any other value is kept. */
  function ArgumentValue(arg: Option<string>): (r: Option<string>)
    ensures r != Some("None")
    ensures r.None? <==> arg.None? || arg == Some("None")
    ensures r.Some? ==> r == arg
  {
    if arg == Some("None") then None else arg
  }

  /** One event of the pod watch stream: its type ("ADDED", "MODIFIED",
      "DELETED", ...) and the pod it is about. */
  datatype WatchEvent = WatchEvent(eventType: string, pod: V1Pod)

  /** What `schedule` returns; the loop only logs it. */
  type SchedulingResult = string

  /** `scheduler.schedule(pod)`.  The scheduler lies outside this adapter;
      its decision may depend on every pod handed to it before (the first
      argument, oldest first), and it may raise. */
  type Scheduler = (seq<Pod>, Pod) -> Result<SchedulingResult>

  /** What the loop is configured with: the scheduler name to filter on
      (None: no filter), the size parser and the scheduler. */
  datatype Setup = Setup(schedulerName: Option<string>, parseSize: Translate.SizeParser, schedule: Scheduler)

  /** What handling one event came to.  An exception raised by the
      translation or by the scheduler is caught and logged; it is kept here. */
  datatype EventOutcome =
    | Ignored
    | TranslationFailed(error: Error)
    | Scheduled(pod: Pod, result: Result<SchedulingResult>)

  /** A newly added pod awaiting placement that names this scheduler, or any
      scheduler when no name is configured. */
  predicate Eligible(e: WatchEvent, schedulerName: Option<string>) {
    && e.pod.status.phase == Some("Pending")
    && (schedulerName.None? || e.pod.spec.schedulerName == schedulerName)
    && e.eventType == "ADDED"
  }

  /** The body of the loop for one event, given the pods scheduled before. */
  function HandleEvent(e: WatchEvent, setup: Setup, history: seq<Pod>): EventOutcome {
    if !Eligible(e, setup.schedulerName) then Ignored
    else
      match Translate.CreatePod(e.pod, setup.parseSize)
      case Err(err) => TranslationFailed(err)
      case Ok(pod) => Scheduled(pod, setup.schedule(history, pod))
  }

  /** The pod an outcome handed to the scheduler, if any. */
  function PodOf(o: EventOutcome): seq<Pod> {
    if o.Scheduled? then [o.pod] else []
  }

  /** The pods handed to the scheduler by a run, in order. */
  function Dispatched(outcomes: seq<EventOutcome>): seq<Pod> {
    if outcomes == [] then [] else PodOf(outcomes[0]) + Dispatched(outcomes[1..])
  }

  /** The loop over a stream of events, each handled in arrival order, after
      `history` has already been handed to the scheduler. */
  function Run(events: seq<WatchEvent>, setup: Setup, history: seq<Pod>): (r: seq<EventOutcome>)
    ensures |r| == |events|
  {
    if events == [] then []
    else
      var o := HandleEvent(events[0], setup, history);
      [o] + Run(events[1..], setup, history + PodOf(o))
  }

  /** The pod an event must be scheduled as: its translation, when it is
      eligible and translates. */
  function Translated(e: WatchEvent, setup: Setup): seq<Pod> {
    if Eligible(e, setup.schedulerName) && Translate.CreatePod(e.pod, setup.parseSize).Ok?
    then [Translate.CreatePod(e.pod, setup.parseSize).value]
    else []
  }

  /** Reference definition of what the loop must schedule: the translations
      of the eligible, translatable events, in arrival order.  It does not
      look at anything the scheduler does. */
  function EligiblePods(events: seq<WatchEvent>, setup: Setup): seq<Pod> {
    if events == [] then [] else Translated(events[0], setup) + EligiblePods(events[1..], setup)
  }

  lemma PodOfHandleEvent(e: WatchEvent, setup: Setup, history: seq<Pod>)
    ensures PodOf(HandleEvent(e, setup, history)) == Translated(e, setup)
  {
  }

  lemma {:induction false} EligiblePodsSnoc(events: seq<WatchEvent>, e: WatchEvent, setup: Setup)
    ensures EligiblePods(events + [e], setup) == EligiblePods(events, setup) + Translated(e, setup)
  {
    if events != [] {
      assert (events + [e])[1..] == events[1..] + [e];
      EligiblePodsSnoc(events[1..], e, setup);
    } else {
      assert EligiblePods([e], setup) == Translated(e, setup) + EligiblePods([], setup);
    }
  }

  /** Handling one more event extends the run by that event's outcome, and
      the scheduler then sees every pod scheduled before it. */
  lemma {:induction false} RunSnoc(events: seq<WatchEvent>, e: WatchEvent, setup: Setup, history: seq<Pod>)
    ensures Run(events + [e], setup, history)
            == Run(events, setup, history) + [HandleEvent(e, setup, history + EligiblePods(events, setup))]
  {
    if events == [] {
      assert [] + [e] == [e] && EligiblePods([], setup) == [] && history + [] == history;
      assert Run([e], setup, history) == [HandleEvent(e, setup, history)] + Run([], setup, history + PodOf(HandleEvent(e, setup, history)));
    } else {
      var o := HandleEvent(events[0], setup, history);
      assert (events + [e])[1..] == events[1..] + [e];
      RunSnoc(events[1..], e, setup, history + PodOf(o));
      PodOfHandleEvent(events[0], setup, history);
      assert history + PodOf(o) + EligiblePods(events[1..], setup) == history + EligiblePods(events, setup);
    }
  }

  lemma {:induction false} DispatchedAppend(a: seq<EventOutcome>, b: seq<EventOutcome>)
    ensures Dispatched(a + b) == Dispatched(a) + Dispatched(b)
  {
    if a != [] {
      assert (a + b)[1..] == a[1..] + b;
      DispatchedAppend(a[1..], b);
    } else {
      assert a + b == b;
    }
  }

  /** The pods the loop hands to the scheduler are exactly the reference
      pods: each eligible, translatable event once, in arrival order, and
      nothing else. */
  lemma {:induction false} RunDispatchesEligiblePods(events: seq<WatchEvent>, setup: Setup, history: seq<Pod>)
    ensures Dispatched(Run(events, setup, history)) == EligiblePods(events, setup)
  {
    if events != [] {
      var o := HandleEvent(events[0], setup, history);
      RunDispatchesEligiblePods(events[1..], setup, history + PodOf(o));
      DispatchedAppend([o], Run(events[1..], setup, history + PodOf(o)));
      PodOfHandleEvent(events[0], setup, history);
      assert Dispatched([o]) == PodOf(o) + Dispatched([]);
    }
  }

  /** The outcome of the k-th event is that event handled on its own, with
      the scheduler having seen the pods of the events before it. */
  lemma {:induction false} RunAt(events: seq<WatchEvent>, setup: Setup, history: seq<Pod>, k: nat)
    requires k < |events|
    ensures Run(events, setup, history)[k] == HandleEvent(events[k], setup, history + EligiblePods(events[..k], setup))
  {
    if k > 0 {
      var o := HandleEvent(events[0], setup, history);
      RunAt(events[1..], setup, history + PodOf(o), k - 1);
      PodOfHandleEvent(events[0], setup, history);
      var rest := Run(events[1..], setup, history + PodOf(o));
      assert Run(events, setup, history) == [o] + rest;
      assert Run(events, setup, history)[k] == rest[k - 1];
      assert events[1..][k - 1] == events[k];
      assert events[..k][1..] == events[1..][..k - 1];
      assert EligiblePods(events[..k], setup) == PodOf(o) + EligiblePods(events[1..][..k - 1], setup);
      assert history + PodOf(o) + EligiblePods(events[1..][..k - 1], setup)
          == history + EligiblePods(events[..k], setup);
    } else {
      assert events[..0] == [] && EligiblePods([], setup) == [] && history + [] == history;
    }
  }

  /** Every event gets exactly one outcome, decided by that event alone: it
      is ignored exactly when it is not eligible, it fails exactly when it is
      eligible and does not translate, and it is scheduled exactly when it is
      eligible and translates, as its translation, with the scheduler having
      seen the pods scheduled before.  What happened to earlier events,
      failures included, plays no part. */
  lemma {:induction false} OutcomeOfEvent(events: seq<WatchEvent>, setup: Setup, k: nat)
    requires k < |events|
    ensures var o := Run(events, setup, [])[k];
            var e := events[k];
            var pod := Translate.CreatePod(e.pod, setup.parseSize);
            && (o.Ignored? <==> !Eligible(e, setup.schedulerName))
            && (o.TranslationFailed? <==> Eligible(e, setup.schedulerName) && pod.Err?)
            && (o.TranslationFailed? ==> o.error == pod.error)
            && (o.Scheduled? <==> Eligible(e, setup.schedulerName) && pod.Ok?)
            && (o.Scheduled? ==> o.pod == pod.value
                                 && o.result == setup.schedule(EligiblePods(events[..k], setup), pod.value))
  {
    RunAt(events, setup, [], k);
    assert [] + EligiblePods(events[..k], setup) == EligiblePods(events[..k], setup);
  }

  /** Only a pending pod, from an "ADDED" event, naming the configured
      scheduler (if one is configured) is ever handed to the scheduler. */
  lemma {:induction false} ScheduledOnlyIfEligible(events: seq<WatchEvent>, setup: Setup, k: nat)
    requires k < |events| && Run(events, setup, [])[k].Scheduled?
    ensures events[k].pod.status.phase == Some("Pending")
    ensures events[k].eventType == "ADDED"
    ensures setup.schedulerName.Some? ==> events[k].pod.spec.schedulerName == setup.schedulerName
  {
    OutcomeOfEvent(events, setup, k);
  }

  /** An event about a running pod is never scheduled. */
  lemma {:induction false} RunningPodIgnored(events: seq<WatchEvent>, setup: Setup, k: nat)
    requires k < |events| && events[k].pod.status.phase == Some("Running")
    ensures Run(events, setup, [])[k] == Ignored
  {
    OutcomeOfEvent(events, setup, k);
  }

  /** A failure while handling one event, in the translation or in the
      scheduler, does not stop a later eligible, translatable event from
      being scheduled. */
  lemma {:induction false} FailureDoesNotStopLaterEvents(events: seq<WatchEvent>, setup: Setup, k: nat, j: nat)
    requires k < j < |events|
    requires Run(events, setup, [])[k].TranslationFailed? || (Run(events, setup, [])[k].Scheduled? && Run(events, setup, [])[k].result.Err?)
    requires Eligible(events[j], setup.schedulerName) && Translate.CreatePod(events[j].pod, setup.parseSize).Ok?
    ensures Run(events, setup, [])[j].Scheduled?
  {
    OutcomeOfEvent(events, setup, j);
  }

  /** With the scheduler name option set to "None", the name of the
      scheduler a pod asks for is not looked at. */
  lemma NoneDisablesNameFilter(e: WatchEvent, arg: Option<string>)
    requires arg == Some("None")
    ensures Eligible(e, ArgumentValue(arg)) <==> e.pod.status.phase == Some("Pending") && e.eventType == "ADDED"
  {
  }

  /** The loop of main.py as intended: handle every event in arrival order,
      log what one event raises and go on with the next (`RunAsWritten`
      below is the code as written, which can end early).  Returns the pods handed to
      the scheduler and the outcome of every event. */
  method WatchLoop(events: seq<WatchEvent>, setup: Setup) returns (dispatched: seq<Pod>, outcomes: seq<EventOutcome>)
    ensures outcomes == Run(events, setup, [])
    ensures dispatched == EligiblePods(events, setup)
    ensures dispatched == Dispatched(outcomes)
  {
    dispatched, outcomes := [], [];
    for i := 0 to |events|
      invariant outcomes == Run(events[..i], setup, [])
      invariant dispatched == EligiblePods(events[..i], setup)
    {
      var event := events[i];
      var outcome: EventOutcome;
      if Eligible(event, setup.schedulerName) {
        match Translate.CreatePod(event.pod, setup.parseSize)
        case Err(err) =>
          outcome := TranslationFailed(err);
        case Ok(pod) =>
          var result := setup.schedule(dispatched, pod);
          outcome := Scheduled(pod, result);
          dispatched := dispatched + [pod];
      } else {
        outcome := Ignored;
      }
      outcomes := outcomes + [outcome];
      RunSnoc(events[..i], event, setup, []);
      EligiblePodsSnoc(events[..i], event, setup);
      assert events[..i + 1] == events[..i] + [event];
      assert [] + EligiblePods(events[..i], setup) == EligiblePods(events[..i], setup);
    }
    assert events[..|events|] == events;
    RunDispatchesEligiblePods(events, setup, []);
  }

  // ---------------------------------------------------------------------
  // The loop as written: the handler of `ApiException` itself parses the
  // exception's body as JSON and reads its "message".  When that raises,
  // nothing catches it inside the loop, and the scheduler stops.

  /** `json.loads(e.body)['message']` is evaluated by the handler;
      `decodeMessage` is that expression on a string body (None when it
      raises).  A body of None makes `json.loads` raise. */
  predicate HandlerRaises(o: EventOutcome, decodeMessage: string -> Option<string>) {
    var caught :=
      match o
      case TranslationFailed(err) => Some(err)
      case Scheduled(_, Err(err)) => Some(err)
      case _ => None;
    && caught.Some?
    && caught.value.ApiException?
    && (caught.value.body.None? || decodeMessage(caught.value.body.value).None?)
  }

  /** The loop as written: like `Run`, except that it ends after an event
      whose `ApiException` handler raises. */
  function RunAsWritten(events: seq<WatchEvent>, setup: Setup, decodeMessage: string -> Option<string>, history: seq<Pod>)
    : (r: seq<EventOutcome>)
    ensures |r| <= |events|
  {
    if events == [] then []
    else
      var o := HandleEvent(events[0], setup, history);
      if HandlerRaises(o, decodeMessage) then [o]
      else [o] + RunAsWritten(events[1..], setup, decodeMessage, history + PodOf(o))
  }

  /** The loop as written agrees with the intended loop up to the first event
      whose handler raises and stops right after it: no handler raises
      before its last outcome, and it ends early only on one that does.
      When no handler raises, it handles every event. */
  lemma {:induction false} AsWrittenStopsAtHandlerFailure(
    events: seq<WatchEvent>, setup: Setup, decodeMessage: string -> Option<string>, history: seq<Pod>)
    ensures var w := RunAsWritten(events, setup, decodeMessage, history);
            var r := Run(events, setup, history);
            && w == r[..|w|]
            && (forall k | 0 <= k < |w| - 1 :: !HandlerRaises(w[k], decodeMessage))
            && (|w| < |events| ==> |w| > 0 && HandlerRaises(w[|w| - 1], decodeMessage))
            && ((forall k | 0 <= k < |r| :: !HandlerRaises(r[k], decodeMessage)) ==> w == r)
  {
    if events != [] {
      var o := HandleEvent(events[0], setup, history);
      var r := Run(events, setup, history);
      assert r[0] == o;
      if !HandlerRaises(o, decodeMessage) {
        AsWrittenStopsAtHandlerFailure(events[1..], setup, decodeMessage, history + PodOf(o));
        var rest := Run(events[1..], setup, history + PodOf(o));
        var w' := RunAsWritten(events[1..], setup, decodeMessage, history + PodOf(o));
        var w := RunAsWritten(events, setup, decodeMessage, history);
        assert r == [o] + rest;
        assert w == [o] + w';
        assert forall k | 1 <= k < |w| :: w[k] == w'[k - 1];
        if forall k | 0 <= k < |r| :: !HandlerRaises(r[k], decodeMessage) {
          assert forall k | 0 <= k < |rest| :: rest[k] == r[k + 1];
        }
      }
    }
  }

  /** A concrete stream on which the loop as written stops: two pending pods
      for this scheduler, the first of whose scheduling raises an
      `ApiException` without a body.  The intended loop schedules the second
      pod; the loop as written never reaches it. */
  lemma {:induction false} ApiHandlerCrashExample(decodeMessage: string -> Option<string>)
    ensures var pod := (name: string) => V1Pod(V1ObjectMeta(name, Some("default"), None),
                                              V1PodSpec([], Some("skippy-scheduler")),
                                              V1PodStatus(Some("Pending")));
            var events := [WatchEvent("ADDED", pod("p1")), WatchEvent("ADDED", pod("p2"))];
            var setup := Setup(Some("skippy-scheduler"),
                               (q: string) => Ok(0),
                               (seen: seq<Pod>, p: Pod) => if seen == [] then Err(ApiException(None)) else Ok("node-1"));
            && |RunAsWritten(events, setup, decodeMessage, [])| == 1
            && Run(events, setup, [])[1].Scheduled?
            && Run(events, setup, [])[1].pod.name == "p2"
  {
    var pod := (name: string) => V1Pod(V1ObjectMeta(name, Some("default"), None),
                                      V1PodSpec([], Some("skippy-scheduler")),
                                      V1PodStatus(Some("Pending")));
    var events := [WatchEvent("ADDED", pod("p1")), WatchEvent("ADDED", pod("p2"))];
    var setup := Setup(Some("skippy-scheduler"),
                       (q: string) => Ok(0),
                       (seen: seq<Pod>, p: Pod) => if seen == [] then Err(ApiException(None)) else Ok("node-1"));
    var o := HandleEvent(events[0], setup, []);
    assert Translate.CreatePod(events[0].pod, setup.parseSize).Ok?;
    assert HandlerRaises(o, decodeMessage);
    OutcomeOfEvent(events, setup, 1);
  }
}
