/**
 The run-to-completion executor. Any thread may notify it of an event; it posts at most one task
 at a time to the io_service, which any number of threads may be running.
 */
module EventMachine {

  /**
   `posted` and `running` are the machine's tasks waiting in the io_service and being run;
   `accepted` lists the events in the order of their notification and `handled` in the order in
   which their handlers ended, normally or by an exception. `stalled`: an exception left a handler.
   */
  datatype Machine<E> = Machine(
    queue: seq<E>, processing: bool, deferred: seq<E>,
    posted: seq<E>, running: seq<E>, accepted: seq<E>, handled: seq<E>, stalled: bool)

  function Idle<E>(): Machine<E> {
    Machine([], false, [], [], [], [], [], false)
  }

  function Notify<E>(m: Machine<E>, e: E): Machine<E> {
    if m.processing
    then m.(queue := m.queue + [e], accepted := m.accepted + [e])
    else m.(processing := true, posted := m.posted + [e], accepted := m.accepted + [e])
  }

  function Defer<E>(m: Machine<E>, e: E): Machine<E> {
    m.(deferred := m.deferred + [e])
  }

  function Recall<E>(m: Machine<E>): Machine<E> {
    if m.deferred == [] then m else Notify(m.(deferred := m.deferred[1..]), m.deferred[0])
  }

  /** A thread of the io_service takes a task. */
  function Begin<E>(m: Machine<E>): Machine<E>
    requires m.posted != []
  {
    m.(posted := m.posted[1..], running := m.running + [m.posted[0]])
  }

  /** The task at `k` ends: its handler has returned, and `proceed` looks for the next event. */
  function Proceed<E>(m: Machine<E>, k: nat): Machine<E>
    requires k < |m.running|
  {
    var ended := m.(running := m.running[..k] + m.running[k + 1..], handled := m.handled + [m.running[k]]);
    if ended.queue == [] then ended.(processing := false)
    else ended.(queue := ended.queue[1..], posted := ended.posted + [ended.queue[0]])
  }

  /** The task at `k` ends by an exception, which skips `proceed`. */
  function Abort<E>(m: Machine<E>, k: nat): Machine<E>
    requires k < |m.running|
  {
    m.(running := m.running[..k] + m.running[k + 1..], handled := m.handled + [m.running[k]], stalled := true)
  }

  /** What any thread may do next; a step that is not possible does nothing. */
  datatype Step<E> = DoNotify(e: E) | DoDefer(e: E) | DoRecall | DoBegin | DoProceed(k: nat) | DoAbort(k: nat)

  function Apply<E>(m: Machine<E>, s: Step<E>): Machine<E> {
    match s
    case DoNotify(e) => Notify(m, e)
    case DoDefer(e) => Defer(m, e)
    case DoRecall => Recall(m)
    case DoBegin => if m.posted == [] then m else Begin(m)
    case DoProceed(k) => if k < |m.running| then Proceed(m, k) else m
    case DoAbort(k) => if k < |m.running| then Abort(m, k) else m
  }

  function Run<E>(m: Machine<E>, steps: seq<Step<E>>): Machine<E> {
    if steps == [] then m else Apply(Run(m, steps[..|steps| - 1]), steps[|steps| - 1])
  }

  /**
   Every accepted event is handled, in flight or queued, in the order of notification; at most one
   task of the machine is posted or running; and it is idle only when there is nothing to do.
   */
  ghost predicate Orderly<E>(m: Machine<E>) {
    && m.accepted == m.handled + m.running + m.posted + m.queue
    && |m.posted| + |m.running| == (if m.processing && !m.stalled then 1 else 0)
    && (!m.processing ==> m.queue == [])
    && (m.stalled ==> m.processing)
  }

  lemma NotifyKeepsOrder<E>(m: Machine<E>, e: E)
    requires Orderly(m)
    ensures Orderly(Notify(m, e))
  {
    var front := m.handled + m.running + m.posted;
    if m.processing {
      assert front + (m.queue + [e]) == front + m.queue + [e];
    } else {
      assert front + m.queue == front && m.posted == [] && m.running == [];
      assert m.handled + m.running + [e] + [] == m.accepted + [e];
    }
  }

  lemma BeginKeepsOrder<E>(m: Machine<E>)
    requires Orderly(m) && m.posted != []
    ensures Orderly(Begin(m))
  {
    assert m.posted == [m.posted[0]] && m.running == [];
    assert m.handled + [] + m.posted == m.handled + m.posted + [];
  }

  /** The one running task ends: what it leaves in flight. */
  lemma OnlyOneRuns<E>(m: Machine<E>, k: nat)
    requires Orderly(m) && k < |m.running|
    ensures k == 0 && m.running == [m.running[0]] && m.posted == [] && m.processing && !m.stalled
    ensures m.running[..k] + m.running[k + 1..] == []
    ensures m.accepted == m.handled + [m.running[0]] + m.queue
  {
    assert m.handled + m.running + [] == m.handled + [m.running[0]];
  }

  lemma EndKeepsOrder<E>(m: Machine<E>, k: nat)
    requires Orderly(m) && k < |m.running|
    ensures Orderly(Proceed(m, k)) && Orderly(Abort(m, k))
  {
    OnlyOneRuns(m, k);
    var done := m.handled + [m.running[0]];
    assert done + [] == done;
    if m.queue != [] {
      assert m.queue == [m.queue[0]] + m.queue[1..];
      assert done + m.queue == done + [m.queue[0]] + m.queue[1..];
    }
  }

  lemma StepKeepsOrder<E>(m: Machine<E>, s: Step<E>)
    requires Orderly(m)
    ensures Orderly(Apply(m, s))
  {
    match s
    case DoNotify(e) => NotifyKeepsOrder(m, e);
    case DoDefer(e) =>
    case DoRecall => if m.deferred != [] { NotifyKeepsOrder(m.(deferred := m.deferred[1..]), m.deferred[0]); }
    case DoBegin => if m.posted != [] { BeginKeepsOrder(m); }
    case DoProceed(k) => if k < |m.running| { EndKeepsOrder(m, k); }
    case DoAbort(k) => if k < |m.running| { EndKeepsOrder(m, k); }
  }

  /** Under every interleaving of notifiers, io_service threads and handlers. */
  lemma {:induction false} RunsAreOrderly<E>(steps: seq<Step<E>>)
    ensures Orderly(Run(Idle(), steps))
  {
    if steps != [] {
      RunsAreOrderly(steps[..|steps| - 1]);
      StepKeepsOrder(Run(Idle(), steps[..|steps| - 1]), steps[|steps| - 1]);
    }
  }

  /** After an exception no handler ever begins again, whatever is notified: events only pile up. */
  lemma {:induction false} StalledForGood<E>(m: Machine<E>, steps: seq<Step<E>>)
    requires Orderly(m) && m.stalled
    ensures var n := Run(m, steps);
      Orderly(n) && n.stalled && n.running == [] && n.posted == [] && n.handled == m.handled && m.queue <= n.queue
  {
    if steps != [] {
      StalledForGood(m, steps[..|steps| - 1]);
      StepKeepsOrder(Run(m, steps[..|steps| - 1]), steps[|steps| - 1]);
    }
  }

  // ---------------------------------------------------------------- what was deferred

  /** Everything that was ever deferred, in order. */
  function Deferrals<E>(steps: seq<Step<E>>): seq<E> {
    if steps == [] then []
    else
      var last := steps[|steps| - 1];
      Deferrals(steps[..|steps| - 1]) + if last.DoDefer? then [last.e] else []
  }

  /** How many recalls found something deferred: the n-th of them takes back the n-th event deferred. */
  function Recalls<E>(steps: seq<Step<E>>): (n: nat)
    ensures n <= |Deferrals(steps)|
  {
    if steps == [] then 0
    else
      var before := steps[..|steps| - 1];
      Recalls(before) + if steps[|steps| - 1].DoRecall? && Recalls(before) < |Deferrals(before)| then 1 else 0
  }

  /** What the machine was to handle: events notified, and deferred ones at the time of their recall. */
  function Notices<E>(steps: seq<Step<E>>): seq<E> {
    if steps == [] then []
    else
      var before := steps[..|steps| - 1];
      var last := steps[|steps| - 1];
      Notices(before) +
      if last.DoNotify? then [last.e]
      else if last.DoRecall? && Recalls(before) < |Deferrals(before)| then [Deferrals(before)[Recalls(before)]]
      else []
  }

  /**
   Under every interleaving: the events accepted are those notified and, first deferred first, those recalled,
   once each; what was deferred and not recalled is kept, in order.
   */
  lemma {:induction false} DeferredComeBack<E>(steps: seq<Step<E>>)
    ensures var m := Run(Idle(), steps);
      m.accepted == Notices(steps) && m.deferred == Deferrals(steps)[Recalls(steps)..]
  {
    if steps != [] {
      var before := steps[..|steps| - 1];
      DeferredComeBack(before);
      var d, n := Deferrals(before), Recalls(before);
      match steps[|steps| - 1]
      case DoDefer(e) => assert (d + [e])[n..] == d[n..] + [e];
      case DoRecall => if n < |d| { assert d[n..][0] == d[n] && d[n..][1..] == d[n + 1..]; }
      case _ =>
    }
  }

  // ---------------------------------------------------------------- progress

  /** The handlers run one after another until nothing is left, nobody notifying meanwhile. */
  function Drain<E>(m: Machine<E>): (n: Machine<E>)
    requires Orderly(m) && !m.stalled
    decreases |m.running| + |m.posted| + |m.queue|, |m.posted|
  {
    StepKeepsOrder(m, DoBegin);
    StepKeepsOrder(m, DoProceed(0));
    if m.running != [] then Drain(Proceed(m, 0))
    else if m.posted != [] then Drain(Begin(m))
    else m
  }

  /** As long as handlers return, every accepted event is handled in its turn and the machine comes to rest. */
  lemma {:induction false} DrainHandlesAll<E>(m: Machine<E>)
    requires Orderly(m) && !m.stalled
    ensures var n := Drain(m);
      n.handled == m.accepted && n.queue == [] && n.posted == [] && n.running == [] && !n.processing
    decreases |m.running| + |m.posted| + |m.queue|, |m.posted|
  {
    StepKeepsOrder(m, DoBegin);
    StepKeepsOrder(m, DoProceed(0));
    if m.running != [] {
      DrainHandlesAll(Proceed(m, 0));
    } else if m.posted != [] {
      DrainHandlesAll(Begin(m));
    }
  }
}
