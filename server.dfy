/** The default methods of the `SockiopathServer` interface: the staged shutdown of the
    server's ExecutorService, `stop`, the shutdown of the Netty event loop groups, and
    `byteBufferToString`. The pool's answers (did `awaitTermination` see the pool finish,
    time out, or get interrupted; which tasks did `shutdownNow` return) are inputs. */
module Server {
  import opened JavaLang
  import opened Netty
  import Nio

  const DEFAULT_SHUTDOWN_TIMEOUT_MILLIS: int := 500
  const DEFAULT_SHUTDOWN_NOW_TIMEOUT_MILLIS: int := 500

  /** A `Runnable` the pool had not started, as `shutdownNow()` returns it. */
  datatype Task = Task(id: nat)
  datatype EventLoopGroup = EventLoopGroup(id: nat)

  /** How one `awaitTermination` call ended: true, false, or InterruptedException. */
  datatype WaitResult = Terminated | TimedOut | Interrupted

  datatype ServerEvent =
    | Logged(level: Level, line: string)
    | PoolShutdown
    | PoolShutdownNow
    | AwaitTermination(timeoutMillis: int)
    | InterruptRestored
    | CloseFutureCancelled(mayInterruptIfRunning: bool)
    | ShutdownGracefully(group: EventLoopGroup)

  /** What a shutdown does and returns. */
  datatype Shutdown = Shutdown(events: seq<ServerEvent>, cancelled: seq<Task>)

  const SHUTTING_DOWN_SERVER: string := "shutting down server..."
  const DONE_SHUTTING_DOWN_POOL: string := "done shutting down ExecutorService."

  /** The catch branch: log, cancel again, restore the interrupt flag. */
  function InterruptedSteps(): seq<ServerEvent> {
    [Logged(Error, "Interruption required during shutdown!"), PoolShutdownNow, InterruptRestored]
  }

  /** `shutdownAndAwaitTermination` for the given wait results; `firstNow` and `secondNow`
      are what the first and second `shutdownNow()` calls return. */
  function ShutdownPlan(shutdownTimeoutMillis: int, shutdownNowTimeoutMillis: int, first: WaitResult,
                        second: WaitResult, firstNow: seq<Task>, secondNow: seq<Task>): Shutdown
  {
    var start := [Logged(Info, SHUTTING_DOWN_SERVER), Logged(Info, "shutting down ExecutorService pool..."),
                  PoolShutdown, AwaitTermination(shutdownTimeoutMillis)];
    var done := [Logged(Info, DONE_SHUTTING_DOWN_POOL)];
    match first
    case Terminated => Shutdown(start + [Logged(Info, "Graceful shutdown.")] + done, [])
    case Interrupted => Shutdown(start + InterruptedSteps() + done, firstNow)
    case TimedOut =>
      var hasty := start + [PoolShutdownNow, AwaitTermination(shutdownNowTimeoutMillis)];
      match second
      case Terminated => Shutdown(hasty + [Logged(Warn, "Hasty shutdown.")] + done, firstNow)
      case TimedOut => Shutdown(hasty + [Logged(Error, "Pool did not terminate.")] + done, firstNow)
      case Interrupted => Shutdown(hasty + InterruptedSteps() + done, firstNow + secondNow)
  }

  /** Whether some wait of the shutdown was interrupted. */
  predicate WasInterrupted(first: WaitResult, second: WaitResult) {
    first.Interrupted? || (first.TimedOut? && second.Interrupted?)
  }

  /** The shutdown disables new submissions before any wait, and every path starts with the
      same two lines and ends with "done shutting down ExecutorService.". */
  lemma ShutdownBeforeAnyWait(t1: int, t2: int, first: WaitResult, second: WaitResult,
                              firstNow: seq<Task>, secondNow: seq<Task>)
    ensures var es := ShutdownPlan(t1, t2, first, second, firstNow, secondNow).events;
            && |es| >= 6 && es[2] == PoolShutdown && es[3] == AwaitTermination(t1)
            && (forall i :: 0 <= i < |es| && es[i].AwaitTermination? ==> i > 2)
            && es[0] == Logged(Info, SHUTTING_DOWN_SERVER)
            && es[|es| - 1] == Logged(Info, DONE_SHUTTING_DOWN_POOL)
  {
  }

  /** The log line that reports the outcome, and what is returned: nothing after a graceful
      shutdown, the first `shutdownNow()` tasks after a hasty or failed one, both lists
      when the second wait is interrupted. */
  lemma ShutdownOutcome(t1: int, t2: int, first: WaitResult, second: WaitResult,
                        firstNow: seq<Task>, secondNow: seq<Task>)
    ensures var plan := ShutdownPlan(t1, t2, first, second, firstNow, secondNow);
            && (first.Terminated? ==> plan.cancelled == [] && Logged(Info, "Graceful shutdown.") in plan.events)
            && (first.TimedOut? && second.Terminated? ==>
                  plan.cancelled == firstNow && Logged(Warn, "Hasty shutdown.") in plan.events)
            && (first.TimedOut? && second.TimedOut? ==>
                  plan.cancelled == firstNow && Logged(Error, "Pool did not terminate.") in plan.events)
            && (WasInterrupted(first, second) ==>
                  && Logged(Error, "Interruption required during shutdown!") in plan.events
                  && InterruptRestored in plan.events
                  && plan.cancelled == firstNow + (if first.TimedOut? then secondNow else []))
            && (!WasInterrupted(first, second) ==> InterruptRestored !in plan.events)
  {
    var plan := ShutdownPlan(t1, t2, first, second, firstNow, secondNow);
    if WasInterrupted(first, second) {
      assert InterruptedSteps()[0] in plan.events && InterruptRestored in plan.events;
    }
  }

  /** The events of shutting down groups, indexed from 0 as `ListIterator.nextIndex()`. */
  function GroupShutdowns(groups: seq<EventLoopGroup>): seq<ServerEvent> {
    if groups == [] then []
    else GroupShutdowns(groups[..|groups| - 1])
         + [Logged(Info, "shutting down event loop group: " + NatToString(|groups| - 1) + "..."),
            ShutdownGracefully(groups[|groups| - 1])]
  }

  /** The groups, in the order their `shutdownGracefully` was called. */
  function GracefulOf(es: seq<ServerEvent>): seq<EventLoopGroup> {
    if es == [] then []
    else GracefulOf(es[..|es| - 1]) + (if es[|es| - 1].ShutdownGracefully? then [es[|es| - 1].group] else [])
  }

  lemma {:induction false} GracefulOfAppend(a: seq<ServerEvent>, b: seq<ServerEvent>)
    ensures GracefulOf(a + b) == GracefulOf(a) + GracefulOf(b)
    decreases |b|
  {
    if b == [] {
      assert a + b == a;
    } else {
      assert (a + b)[..|a + b| - 1] == a + b[..|b| - 1];
      GracefulOfAppend(a, b[..|b| - 1]);
    }
  }

  /** Every group is shut down exactly once, in list order. */
  lemma {:induction false} EachGroupShutDownInOrder(groups: seq<EventLoopGroup>)
    ensures GracefulOf(GroupShutdowns(groups)) == groups
  {
    if groups != [] {
      var init := groups[..|groups| - 1];
      var step := [Logged(Info, "shutting down event loop group: " + NatToString(|groups| - 1) + "..."),
                   ShutdownGracefully(groups[|groups| - 1])];
      EachGroupShutDownInOrder(init);
      GracefulOfAppend(GroupShutdowns(init), step);
      assert step[..1] == [step[0]] && step[..1][..0] == [];
      assert GracefulOf(step[..1]) == [];
      assert GracefulOf(step) == [groups[|groups| - 1]];
      assert init + [groups[|groups| - 1]] == groups;
    }
  }

  class SockiopathServer {
    /** `shutdownTimeoutMillis()` and `shutdownNowTimeoutMillis()`. */
    const shutdownTimeoutMillis: int
    const shutdownNowTimeoutMillis: int
    /** The current thread's interrupt status. */
    var interrupted: bool
    var events: seq<ServerEvent>

    /** A server that keeps the interface's default timeouts. */
    constructor()
      ensures shutdownTimeoutMillis == DEFAULT_SHUTDOWN_TIMEOUT_MILLIS
      ensures shutdownNowTimeoutMillis == DEFAULT_SHUTDOWN_NOW_TIMEOUT_MILLIS
      ensures !interrupted && events == []
    {
      shutdownTimeoutMillis := DEFAULT_SHUTDOWN_TIMEOUT_MILLIS;
      shutdownNowTimeoutMillis := DEFAULT_SHUTDOWN_NOW_TIMEOUT_MILLIS;
      interrupted := false;
      events := [];
    }

    /** `shutdownAndAwaitTermination`: the cancelled tasks are collected step by step. */
    method ShutdownAndAwaitTermination(first: WaitResult, second: WaitResult, firstNow: seq<Task>, secondNow: seq<Task>)
      returns (cancelledTasks: seq<Task>)
      modifies this`events, this`interrupted
      ensures var plan := ShutdownPlan(shutdownTimeoutMillis, shutdownNowTimeoutMillis, first, second, firstNow, secondNow);
              events == old(events) + plan.events && cancelledTasks == plan.cancelled
      ensures interrupted == (old(interrupted) || WasInterrupted(first, second))
    {
      var nowCalls := 0;
      cancelledTasks := [];
      var steps := [Logged(Info, SHUTTING_DOWN_SERVER), Logged(Info, "shutting down ExecutorService pool..."),
                    PoolShutdown, AwaitTermination(shutdownTimeoutMillis)];
      var caught := first.Interrupted?;
      if !caught {
        if first.TimedOut? {
          steps := steps + [PoolShutdownNow];
          cancelledTasks := cancelledTasks + firstNow;
          nowCalls := 1;
          steps := steps + [AwaitTermination(shutdownNowTimeoutMillis)];
          caught := second.Interrupted?;
          if !caught {
            if second.TimedOut? {
              steps := steps + [Logged(Error, "Pool did not terminate.")];
            } else {
              steps := steps + [Logged(Warn, "Hasty shutdown.")];
            }
          }
        } else {
          steps := steps + [Logged(Info, "Graceful shutdown.")];
        }
      }
      if caught {
        steps := steps + InterruptedSteps();
        cancelledTasks := cancelledTasks + (if nowCalls == 0 then firstNow else secondNow);
        interrupted := true;
      }
      steps := steps + [Logged(Info, DONE_SHUTTING_DOWN_POOL)];
      events := events + steps;
    }

    /** `stop`: cancels the close future (without interrupting), then shuts the pool down. */
    method Stop(first: WaitResult, second: WaitResult, firstNow: seq<Task>, secondNow: seq<Task>)
      modifies this`events, this`interrupted
      ensures var plan := ShutdownPlan(shutdownTimeoutMillis, shutdownNowTimeoutMillis, first, second, firstNow, secondNow);
              events == old(events) + [CloseFutureCancelled(false)] + plan.events
      ensures interrupted == (old(interrupted) || WasInterrupted(first, second))
    {
      events := events + [CloseFutureCancelled(false)];
      var _ := ShutdownAndAwaitTermination(first, second, firstNow, secondNow);
    }

    /** `shutdownEventLoops`: one log line and one `shutdownGracefully` per group, in list
        order, between the opening and closing lines. */
    method ShutdownEventLoops(groups: seq<EventLoopGroup>)
      modifies this`events
      ensures events == old(events) + [Logged(Info, SHUTTING_DOWN_SERVER)] + GroupShutdowns(groups)
                        + [Logged(Info, "done shutting down event loop groups.")]
    {
      events := events + [Logged(Info, SHUTTING_DOWN_SERVER)];
      ghost var before := events;
      var index := 0;
      while index < |groups|
        invariant index <= |groups|
        invariant events == before + GroupShutdowns(groups[..index])
        decreases |groups| - index
      {
        var group := groups[index];
        events := events + [Logged(Info, "shutting down event loop group: " + NatToString(index) + "...")];
        events := events + [ShutdownGracefully(group)];
        assert groups[..index + 1][..index] == groups[..index];
        index := index + 1;
      }
      assert groups[..index] == groups;
      events := events + [Logged(Info, "done shutting down event loop groups.")];
    }
  }

  /** The interface's static `byteBufferToString`: rewinds to 0 and renders every byte up to
      the capacity through the signed `(char)` cast, leaving the cursor at the capacity. */
  method ByteBufferToString(content: Nio.ByteBuffer) returns (s: string)
    modifies content`position
    ensures |s| == content.data.Length
    ensures forall i :: 0 <= i < |s| ==> s[i] == CharOf(content.data[i])
    ensures content.position == content.data.Length
  {
    var capacity := content.Capacity();
    content.SetPosition(0);
    var builder: string := [];
    while content.position < capacity
      invariant content.position <= capacity
      invariant builder == Render(content.data[..content.position])
      decreases capacity - content.position
    {
      var singleByte := content.Get();
      var character := CharOf(singleByte);
      assert content.data[..content.position] == content.data[..content.position - 1] + [singleByte];
      RenderAppend(content.data[..content.position - 1], [singleByte]);
      builder := builder + [character];
    }
    assert content.data[..content.position] == content.data[..];
    s := builder;
  }
}
