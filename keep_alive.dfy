/**
 * The service's idle-shutdown keep-alive controller.
 *
 * Every keep-alive call starts the discovery client if it is not running,
 * cancels the pending shutdown and schedules a new one IDLE_WINDOW seconds
 * ahead on the service's single-threaded timer executor. When a shutdown
 * task comes due, it stops the client if it is running, asks the service to
 * stop itself and forgets the pending task.
 *
 * Time is an integer clock in seconds. The client is reduced to its running
 * flag and to counters of its starts and stops; the executor is reduced to
 * its queue of scheduled tasks, each with a deadline and the flags that
 * cancellation and completion set.
 */
module KeepAlive {
  import opened Wrappers
  import LocationSource
  import WifiSource

  /** The delay `doKeepAlive` passes to `scheduleStop`, in seconds. */
  const IDLE_WINDOW: int := 30

  /** A task on the timer executor. */
  datatype Task = Task(deadline: int, cancelled: bool, done: bool)

  /** A task that may still run: neither cancelled nor completed. */
  predicate Live(t: Task)
  {
    !t.cancelled && !t.done
  }

  /** A task the executor runs at time `now`. */
  predicate Due(t: Task, now: int)
  {
    Live(t) && t.deadline <= now
  }

  /** The part of the service that the keep-alive logic reads and writes. */
  datatype ServiceState = ServiceState(
    clientRunning: bool,
    clientStarts: nat,
    clientStops: nat,
    timers: seq<Task>,              // the executor's queue, in scheduling order
    timersShutDown: bool,           // `shutdownNow` has been called on the executor
    shutdownFuture: Option<nat>,    // `mShutdownFuture`, as a position in `timers`
    stopSelfRequests: nat)

  /**
   * The invariant the service keeps: the pending shutdown, when there is
   * one, is a live task, and no other task is live. So at most one shutdown
   * is ever pending.
   */
  predicate Valid(s: ServiceState)
  {
    && (s.shutdownFuture.Some? ==> s.shutdownFuture.value < |s.timers| && Live(s.timers[s.shutdownFuture.value]))
    && (forall j :: 0 <= j < |s.timers| && Live(s.timers[j]) ==> s.shutdownFuture == Some(j))
  }

  /** The deadline of the pending shutdown. */
  function Deadline(s: ServiceState): int
    requires Valid(s) && s.shutdownFuture.Some?
  {
    s.timers[s.shutdownFuture.value].deadline
  }

  /** The state before `onCreate`'s first keep-alive: client stopped, nothing scheduled. */
  function Initial(): (s: ServiceState)
    ensures Valid(s) && !s.clientRunning && s.shutdownFuture.None?
  {
    ServiceState(false, 0, 0, [], false, None, 0)
  }

  /**
   * `scheduleStop(delay)` at time `now`: cancels the pending shutdown if
   * there is one, then schedules a new one `delay` ahead. The boolean is
   * true exactly when a shutdown was pending.
   */
  function Scheduled(s: ServiceState, now: int, delay: int): (r: (ServiceState, bool))
    requires Valid(s) && !s.timersShutDown
    ensures Valid(r.0) && r.0.shutdownFuture.Some? && Deadline(r.0) == now + delay
    ensures r.1 <==> s.shutdownFuture.Some?
    ensures |r.0.timers| == |s.timers| + 1
    ensures s.shutdownFuture.Some? ==> r.0.timers[s.shutdownFuture.value].cancelled
    ensures r.0.(timers := s.timers, shutdownFuture := s.shutdownFuture) == s
  {
    var timers := if s.shutdownFuture.Some?
                  then s.timers[s.shutdownFuture.value := s.timers[s.shutdownFuture.value].(cancelled := true)]
                  else s.timers;
    (s.(timers := timers + [Task(now + delay, false, false)], shutdownFuture := Some(|timers|)),
     s.shutdownFuture.Some?)
  }

  /**
   * `doKeepAlive` at time `now`: the client is running afterwards, started
   * only if it was not, and exactly one shutdown is pending, IDLE_WINDOW
   * seconds ahead.
   */
  function KeptAlive(s: ServiceState, now: int): (r: ServiceState)
    requires Valid(s) && !s.timersShutDown
    ensures Valid(r) && !r.timersShutDown
    ensures r.clientRunning && r.shutdownFuture.Some? && Deadline(r) == now + IDLE_WINDOW
    ensures r.clientStarts == s.clientStarts + (if s.clientRunning then 0 else 1)
    ensures r.clientStops == s.clientStops && r.stopSelfRequests == s.stopSelfRequests
  {
    var started := if !s.clientRunning then s.(clientRunning := true, clientStarts := s.clientStarts + 1) else s;
    Scheduled(started, now, IDLE_WINDOW).0
  }

  /**
   * The shutdown task at position `i` runs: it stops the client if running,
   * asks the service to stop and forgets the pending task, and the executor
   * marks the task done. Run as the pending shutdown, it keeps the invariant.
   */
  function Terminated(s: ServiceState, i: nat): (r: ServiceState)
    requires i < |s.timers|
    ensures Valid(s) && s.shutdownFuture == Some(i) ==> Valid(r) && forall j :: 0 <= j < |r.timers| ==> !Live(r.timers[j])
    ensures !r.clientRunning && r.shutdownFuture.None?
    ensures r.clientStops == s.clientStops + (if s.clientRunning then 1 else 0)
    ensures r.stopSelfRequests == s.stopSelfRequests + 1
    ensures r.clientStarts == s.clientStarts && r.timersShutDown == s.timersShutDown
  {
    var stopped := if s.clientRunning then s.(clientRunning := false, clientStops := s.clientStops + 1) else s;
    stopped.(stopSelfRequests := s.stopSelfRequests + 1, shutdownFuture := None,
             timers := s.timers[i := s.timers[i].(done := true)])
  }

  /**
   * The position of the first task in `timers[i..]` that is due at `now`, if
   * any. Java's scheduled executor orders tasks by deadline, not by position;
   * the two choices agree here because `Valid` allows at most one live task.
   */
  function FirstDue(timers: seq<Task>, now: int, i: nat): (r: Option<nat>)
    requires i <= |timers|
    ensures r.Some? ==> i <= r.value < |timers| && Due(timers[r.value], now)
    ensures r.Some? ==> forall j :: i <= j < r.value ==> !Due(timers[j], now)
    ensures r.None? ==> forall j :: i <= j < |timers| ==> !Due(timers[j], now)
    decreases |timers| - i
  {
    if i == |timers| then None
    else if Due(timers[i], now) then Some(i)
    else FirstDue(timers, now, i + 1)
  }

  /**
   * Under the invariant, the task the executor picks is the pending shutdown,
   * which is also the live task with the earliest deadline, as Java's
   * deadline-ordered queue would pick.
   */
  lemma FirstDueIsEarliest(s: ServiceState, now: int)
    requires Valid(s)
    ensures var r := FirstDue(s.timers, now, 0);
      r.Some? ==> r == s.shutdownFuture
                  && forall j :: 0 <= j < |s.timers| && Live(s.timers[j]) ==> s.timers[r.value].deadline <= s.timers[j].deadline
  {
  }

  /**
   * The executor at time `now`: runs the first due task, marking it done,
   * unless `shutdownNow` has been called. The shutdown fires exactly when
   * one is pending and its deadline has been reached; otherwise nothing
   * changes.
   */
  function Ticked(s: ServiceState, now: int): (r: ServiceState)
    requires Valid(s)
    ensures Valid(r) && r.timersShutDown == s.timersShutDown && r.clientStarts == s.clientStarts
    ensures !s.timersShutDown && s.shutdownFuture.Some? && Deadline(s) <= now ==>
              && !r.clientRunning && r.shutdownFuture.None?
              && r.clientStops == s.clientStops + (if s.clientRunning then 1 else 0)
              && r.stopSelfRequests == s.stopSelfRequests + 1
    ensures !(!s.timersShutDown && s.shutdownFuture.Some? && Deadline(s) <= now) ==> r == s
  {
    if s.timersShutDown then s
    else
      match FirstDue(s.timers, now, 0)
      case None => s
      case Some(i) =>
        Terminated(s, i)
  }

  /** `onDestroy`: the executor is shut down and the client stopped if it runs. */
  function Destroyed(s: ServiceState): (r: ServiceState)
    ensures r.timersShutDown && !r.clientRunning
    ensures r.clientStops == s.clientStops + (if s.clientRunning then 1 else 0)
    ensures r.stopSelfRequests == s.stopSelfRequests && r.shutdownFuture == s.shutdownFuture
  {
    var stopped := if s.clientRunning then s.(clientRunning := false, clientStops := s.clientStops + 1) else s;
    stopped.(timersShutDown := true)
  }

  /** Once destroyed, the service's timers never fire again. */
  lemma DestroyedStaysQuiet(s: ServiceState, now: int)
    requires Valid(s)
    ensures Valid(Destroyed(s)) && Ticked(Destroyed(s), now) == Destroyed(s)
  {
  }

  /** What can happen to the controller: a keep-alive call, or the executor running what is due. */
  datatype Event = KeepAliveCall(at: int) | TimerTick(at: int)

  function Step(s: ServiceState, e: Event): (r: ServiceState)
    requires Valid(s) && !s.timersShutDown
    ensures Valid(r) && !r.timersShutDown
  {
    match e
    case KeepAliveCall(t) => KeptAlive(s, t)
    case TimerTick(t) => Ticked(s, t)
  }

  /** The state after a sequence of events, in order. */
  function Run(s: ServiceState, events: seq<Event>): (r: ServiceState)
    requires Valid(s) && !s.timersShutDown
    ensures Valid(r) && !r.timersShutDown
    decreases |events|
  {
    if events == [] then s else Run(Step(s, events[0]), events[1..])
  }

  /** The deadline pending after `events`, starting from `d`: each keep-alive moves it to its time plus IDLE_WINDOW. */
  function LastDeadline(d: int, events: seq<Event>): int
    decreases |events|
  {
    if events == [] then d
    else LastDeadline(if events[0].KeepAliveCall? then events[0].at + IDLE_WINDOW else d, events[1..])
  }

  /** Every executor run in `events` happens before the deadline pending at that moment. */
  predicate Punctual(d: int, events: seq<Event>)
    decreases |events|
  {
    events == [] ||
    match events[0]
    case KeepAliveCall(t) => Punctual(t + IDLE_WINDOW, events[1..])
    case TimerTick(t) => t < d && Punctual(d, events[1..])
  }

  /**
   * Debouncing: as long as every executor run comes before the deadline the
   * last keep-alive set, the client is never stopped nor started again, no
   * self-stop is requested, and the pending deadline is the last keep-alive's
   * time plus IDLE_WINDOW.
   */
  lemma {:induction false} Debounce(s: ServiceState, events: seq<Event>)
    requires Valid(s) && !s.timersShutDown && s.clientRunning && s.shutdownFuture.Some?
    requires Punctual(Deadline(s), events)
    ensures var r := Run(s, events);
      && r.clientRunning && r.shutdownFuture.Some?
      && Deadline(r) == LastDeadline(Deadline(s), events)
      && r.clientStarts == s.clientStarts && r.clientStops == s.clientStops
      && r.stopSelfRequests == s.stopSelfRequests
    decreases |events|
  {
    if events != [] {
      Debounce(Step(s, events[0]), events[1..]);
    }
  }

  /** Whether some executor run in `events` comes at or after `d`. */
  predicate ReachesDeadline(d: int, events: seq<Event>)
  {
    exists j :: 0 <= j < |events| && events[j].at >= d
  }

  /**
   * A single shutdown: left to the executor alone, the pending shutdown fires
   * exactly once if some run reaches its deadline and never otherwise, so
   * the client is stopped at most once and self-stop requested at most once.
   */
  lemma {:induction false} ShutdownFiresOnce(s: ServiceState, events: seq<Event>)
    requires Valid(s) && !s.timersShutDown
    requires forall j :: 0 <= j < |events| ==> events[j].TimerTick?
    ensures var fires := s.shutdownFuture.Some? && ReachesDeadline(Deadline(s), events);
      var r := Run(s, events);
      && r.stopSelfRequests == s.stopSelfRequests + (if fires then 1 else 0)
      && r.clientStops == s.clientStops + (if fires && s.clientRunning then 1 else 0)
      && r.clientRunning == (s.clientRunning && !fires)
      && r.clientStarts == s.clientStarts
    decreases |events|
  {
    if events != [] {
      var s1 := Step(s, events[0]);
      ShutdownFiresOnce(s1, events[1..]);
      if s.shutdownFuture.Some? {
        if events[0].at >= Deadline(s) {
          assert ReachesDeadline(Deadline(s), events);
        } else {
          assert s1 == s;
          if ReachesDeadline(Deadline(s), events) {
            var j :| 0 <= j < |events| && events[j].at >= Deadline(s);
            assert events[1..][j - 1] == events[j];
          }
          if ReachesDeadline(Deadline(s), events[1..]) {
            var j :| 0 <= j < |events[1..]| && events[1..][j].at >= Deadline(s);
            assert events[j + 1] == events[1..][j];
          }
        }
      }
    }
  }

  /**
   * The service as created: its first keep-alive at `created`, another at
   * `created + 20` (the period at which a bound activity pings), and then
   * silence. The client is stopped exactly once, at `created + 50`, and not
   * a moment before.
   */
  lemma IdleShutdownScenario(created: int)
    ensures var s := Run(KeptAlive(Initial(), created),
                         [KeepAliveCall(created + 20), TimerTick(created + 49)]);
      s.clientRunning && s.clientStops == 0 && s.stopSelfRequests == 0
    ensures var s := Run(KeptAlive(Initial(), created),
                         [KeepAliveCall(created + 20), TimerTick(created + 49), TimerTick(created + 50)]);
      !s.clientRunning && s.clientStops == 1 && s.stopSelfRequests == 1
    ensures var s := Run(KeptAlive(Initial(), created),
                         [KeepAliveCall(created + 20), TimerTick(created + 49),
                          TimerTick(created + 50), TimerTick(created + 60)]);
      !s.clientRunning && s.clientStarts == 1 && s.clientStops == 1 && s.stopSelfRequests == 1
  {
    var s0 := KeptAlive(Initial(), created);
    var pings := [KeepAliveCall(created + 20), TimerTick(created + 49)];
    Debounce(s0, pings);
    var s1 := Run(s0, pings);
    var ticks := [TimerTick(created + 50), TimerTick(created + 60)];
    ShutdownFiresOnce(s1, ticks);
    assert LastDeadline(created + IDLE_WINDOW, pings) == LastDeadline(created + 50, pings[1..]) == created + 50;
    assert ticks[0].at >= Deadline(s1);
    RunConcatenates(s0, pings, ticks);
    ShutdownFiresOnce(s1, ticks[..1]);
    RunConcatenates(s0, pings, ticks[..1]);
    assert pings + ticks[..1] == [KeepAliveCall(created + 20), TimerTick(created + 49), TimerTick(created + 50)];
    assert pings + ticks == [KeepAliveCall(created + 20), TimerTick(created + 49),
                             TimerTick(created + 50), TimerTick(created + 60)];
  }

  /** Running two sequences of events one after the other is running their concatenation. */
  lemma {:induction false} RunConcatenates(s: ServiceState, first: seq<Event>, second: seq<Event>)
    requires Valid(s) && !s.timersShutDown
    ensures Run(s, first + second) == Run(Run(s, first), second)
    decreases |first|
  {
    if first != [] {
      assert (first + second)[0] == first[0];
      assert (first + second)[1..] == first[1..] + second;
      assert Run(s, first + second) == Run(Step(s, first[0]), first[1..] + second);
      RunConcatenates(Step(s, first[0]), first[1..], second);
    } else {
      assert first + second == second;
    }
  }

  class HoccerService {
    var clientRunning: bool
    var clientStarts: nat
    var clientStops: nat
    var timers: seq<Task>
    var timersShutDown: bool
    var shutdownFuture: Option<nat>
    var stopSelfRequests: nat

    var wifiProvider: WifiSource.WifiProvider
    var gpsLocProvider: LocationSource.LocationProvider
    var netLocProvider: LocationSource.LocationProvider
    /** The tags of the providers registered with the client, in registration order. */
    var registeredTags: seq<string>

    function State(): ServiceState
      reads this
    {
      ServiceState(clientRunning, clientStarts, clientStops, timers, timersShutDown, shutdownFuture, stopSelfRequests)
    }

    /**
     * `onCreate` at time `now`: creates the three providers, registers them
     * in the order wifi, gps, network, and performs one keep-alive, so the
     * client runs and a shutdown is pending IDLE_WINDOW ahead.
     */
    constructor OnCreate(now: int)
      ensures State() == KeptAlive(Initial(), now)
      ensures clientRunning && clientStarts == 1 && shutdownFuture.Some? && Deadline(State()) == now + IDLE_WINDOW
      ensures registeredTags == [WifiSource.TAG, LocationSource.TAG_GPS, LocationSource.TAG_NETWORK]
      ensures fresh(wifiProvider) && fresh(gpsLocProvider) && fresh(netLocProvider)
      ensures gpsLocProvider.tag == LocationSource.TAG_GPS && netLocProvider.tag == LocationSource.TAG_NETWORK
    {
      clientRunning := false;
      clientStarts := 0;
      clientStops := 0;
      timers := [];
      timersShutDown := false;
      shutdownFuture := None;
      stopSelfRequests := 0;
      wifiProvider := new WifiSource.WifiProvider();
      var gps := LocationSource.LocationProvider.GetGpsProvider();
      var net := LocationSource.LocationProvider.GetNetworkProvider();
      gpsLocProvider := gps;
      netLocProvider := net;
      registeredTags := [];
      new;
      registeredTags := registeredTags + [WifiSource.TAG];
      registeredTags := registeredTags + [gpsLocProvider.tag];
      registeredTags := registeredTags + [netLocProvider.tag];
      DoKeepAlive(now);
    }

    /** `onDestroy`: shuts the executor down and stops the client only if it runs. */
    method OnDestroy()
      modifies this`timersShutDown, this`clientRunning, this`clientStops
      ensures State() == Destroyed(old(State()))
    {
      timersShutDown := true;
      if clientRunning {
        clientRunning := false;
        clientStops := clientStops + 1;
      }
    }

    /** `scheduleStop(delay)` at time `now`. */
    method ScheduleStop(now: int, delay: int) returns (wasRunning: bool)
      requires Valid(State()) && !timersShutDown
      modifies this`timers, this`shutdownFuture
      ensures (State(), wasRunning) == Scheduled(old(State()), now, delay)
    {
      wasRunning := false;
      if shutdownFuture.Some? {
        var i := shutdownFuture.value;
        timers := timers[i := timers[i].(cancelled := true)];
        wasRunning := true;
      }
      timers := timers + [Task(now + delay, false, false)];
      shutdownFuture := Some(|timers| - 1);
    }

    /** `doKeepAlive` at time `now`. */
    method DoKeepAlive(now: int)
      requires Valid(State()) && !timersShutDown
      modifies this`clientRunning, this`clientStarts, this`timers, this`shutdownFuture
      ensures State() == KeptAlive(old(State()), now)
    {
      if !clientRunning {
        clientRunning := true;
        clientStarts := clientStarts + 1;
      }
      var _ := ScheduleStop(now, IDLE_WINDOW);
    }

    /**
     * The task `scheduleStop` hands to the executor, run as the task at
     * position `i` of the queue, which the executor marks done.
     */
    method Terminate(i: nat)
      requires i < |timers|
      modifies this`clientRunning, this`clientStops, this`stopSelfRequests, this`shutdownFuture, this`timers
      ensures State() == Terminated(old(State()), i)
    {
      if clientRunning {
        clientRunning := false;
        clientStops := clientStops + 1;
      }
      stopSelfRequests := stopSelfRequests + 1;
      shutdownFuture := None;
      timers := timers[i := timers[i].(done := true)];
    }

    /** The executor at time `now`: runs the first due task, unless it has been shut down. */
    method RunTimers(now: int)
      requires Valid(State())
      modifies this`clientRunning, this`clientStops, this`stopSelfRequests, this`shutdownFuture, this`timers
      ensures State() == Ticked(old(State()), now)
    {
      if !timersShutDown {
        var due := FirstDue(timers, now, 0);
        if due.Some? {
          var i := due.value;
          Terminate(i);
        }
      }
    }
  }
}
