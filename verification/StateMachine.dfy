/** The run-to-completion executor as an object: each method is one critical section of the machine's mutex. */
module StateMachine {
  import opened EventMachine

  /** The tasks one state machine has posted to the io_service, first in, first out. */
  class IoService<E> {
    var tasks: seq<E>

    constructor ()
      ensures tasks == []
    {
      tasks := [];
    }

    method Post(e: E)
      modifies this
      ensures tasks == old(tasks) + [e]
    {
      tasks := tasks + [e];
    }

    method Take() returns (e: E)
      requires tasks != []
      modifies this
      ensures [e] + tasks == old(tasks)
    {
      e := tasks[0];
      tasks := tasks[1..];
    }
  }

  class StateMachine<E> {
    const ioService: IoService<E>
    var queue: seq<E>
    var processing: bool
    var deferred: seq<E>
    ghost var running: seq<E>
    ghost var accepted: seq<E>
    ghost var handled: seq<E>
    ghost var stalled: bool

    ghost function View(): Machine<E>
      reads this, ioService
    {
      Machine(queue, processing, deferred, ioService.tasks, running, accepted, handled, stalled)
    }

    constructor ()
      ensures View() == Idle() && Orderly(View()) && fresh(ioService)
    {
      ioService := new IoService<E>();
      queue, processing, deferred := [], false, [];
      running, accepted, handled, stalled := [], [], [], false;
    }

    /** Queued behind a task that is posted or running, posted otherwise. */
    method NotifyEvent(event: E)
      requires Orderly(View())
      modifies this, ioService
      ensures View() == Notify(old(View()), event) && Orderly(View())
      ensures accepted == old(accepted) + [event]
    {
      NotifyKeepsOrder(View(), event);
      accepted := accepted + [event];
      if processing {
        queue := queue + [event];
      } else {
        processing := true;
        ioService.Post(event);
      }
    }

    method Defer(event: E)
      requires Orderly(View())
      modifies this
      ensures View() == EventMachine.Defer(old(View()), event) && Orderly(View())
    {
      deferred := deferred + [event];
    }

    /** Notifies the event deferred longest, if any. */
    method Recall()
      requires Orderly(View())
      modifies this, ioService
      ensures View() == EventMachine.Recall(old(View())) && Orderly(View())
    {
      if deferred != [] {
        var event := deferred[0];
        deferred := deferred[1..];
        NotifyEvent(event);
      }
    }

    /** An io_service thread takes a task: it is the only one, and no other is running. */
    method BeginTask() returns (event: E)
      requires Orderly(View()) && ioService.tasks != []
      modifies this, ioService
      ensures View() == Begin(old(View())) && Orderly(View())
      ensures running == [event] && ioService.tasks == []
    {
      BeginKeepsOrder(View());
      event := ioService.Take();
      running := running + [event];
    }

    /** The handler returned: the next queued event is posted, or the machine comes to rest. */
    method Proceed()
      requires Orderly(View()) && running != []
      modifies this, ioService
      ensures View() == EventMachine.Proceed(old(View()), 0) && Orderly(View())
      ensures handled == old(handled) + old(running)
      ensures processing <==> old(queue) != []
    {
      EndKeepsOrder(View(), 0);
      OnlyOneRuns(View(), 0);
      handled, running := handled + [running[0]], running[..0] + running[1..];
      if queue != [] {
        var task := queue[0];
        queue := queue[1..];
        ioService.Post(task);
      } else {
        processing := false;
      }
    }

    /** An exception left the handler: `proceed` is skipped, and no task of the machine is left anywhere. */
    ghost method Abort()
      requires Orderly(View()) && running != []
      modifies this
      ensures View() == EventMachine.Abort(old(View()), 0) && Orderly(View())
      ensures running == [] && ioService.tasks == [] && processing
    {
      EndKeepsOrder(View(), 0);
      OnlyOneRuns(View(), 0);
      handled, running := handled + [running[0]], running[..0] + running[1..];
      stalled := true;
    }
  }
}
