/**
 * QueueService itself: one method for each stretch of code between two awaits,
 * each proved to do to the fields what its event does in QueueMachine, and so
 * to keep everything that QueueSafety proves.
 */
module QueueServices {
  import opened Numbers
  import opened Options
  import opened Backoff
  import opened QueueMachine
  import opened QueueSafety

  class QueueService {
    const config: Config

    // the service's own fields
    var connection: Option<nat>
    var channel: Option<nat>
    var reconnectTimer: Option<nat>
    var reconnectAttempt: nat
    var isShuttingDown: bool

    // the event loop and the broker around it
    var started: bool
    var shutdown: Shutdown
    var tasks: seq<Task>
    var pendingTimers: set<nat>
    var listenedTo: set<nat>
    var deadChannels: set<nat>
    var nextConnection: nat
    var nextTimer: nat
    var channelOwners: seq<nat>
    var closedConnections: seq<nat>
    var closedChannels: seq<nat>
    var channelClosedByShutdown: Option<nat>
    var closedByShutdown: Option<nat>
    var delays: seq<int>

    function Snapshot(): State
      reads this
    {
      State(connection, channel, reconnectTimer, reconnectAttempt, isShuttingDown, started, shutdown, tasks,
            pendingTimers, listenedTo, deadChannels, nextConnection, nextTimer, channelOwners,
            closedConnections, closedChannels, channelClosedByShutdown, closedByShutdown, delays)
    }

    /** Nobody is stranded, one timer at most, every resource handed over once, losses noticed, delays in order. */
    ghost predicate Valid()
      reads this
    {
      ValidConfig(config) && Safe(config, Snapshot())
    }

    constructor (config: Config)
      requires ValidConfig(config)
      ensures Valid() && this.config == config && Snapshot() == INITIAL
    {
      this.config := config;
      connection, channel, reconnectTimer := None, None, None;
      reconnectAttempt, isShuttingDown := 0, false;
      started, shutdown, tasks := false, NotRequested, [];
      pendingTimers, listenedTo, deadChannels := {}, {}, {};
      nextConnection, nextTimer := 0, 0;
      channelOwners, closedConnections, closedChannels, delays := [], [], [], [];
      channelClosedByShutdown, closedByShutdown := None, None;
      new;
      SafeRun(config, INITIAL, []);
    }

    method OnModuleInit()
      requires Valid() && Enabled(Snapshot(), ModuleInit)
      modifies this
      ensures Valid() && Snapshot() == Apply(config, old(Snapshot()), ModuleInit)
    {
      SafeStep(config, Snapshot(), ModuleInit);
      started := true;
      ConnectWithSetup();
    }

    method ConnectWithSetup()
      modifies this
      ensures Snapshot() == StartAttempt(config, old(Snapshot()))
    {
      if config.urlAccepted {
        tasks := tasks + [Connecting];
      } else {
        tasks := tasks + [Threw];
      }
    }

    method ReconnectTimerFired(timer: nat)
      requires Valid() && Enabled(Snapshot(), TimerFires(timer))
      modifies this
      ensures Valid() && Snapshot() == Apply(config, old(Snapshot()), TimerFires(timer))
    {
      SafeStep(config, Snapshot(), TimerFires(timer));
      pendingTimers := pendingTimers - {timer};
      reconnectTimer := None;
      ConnectWithSetup();
    }

    method ConnectSettled(task: nat, ok: bool)
      requires Valid() && Enabled(Snapshot(), ConnectSettles(task, ok))
      modifies this
      ensures Valid() && Snapshot() == Apply(config, old(Snapshot()), ConnectSettles(task, ok))
    {
      SafeStep(config, Snapshot(), ConnectSettles(task, ok));
      if !ok {
        tasks := tasks[task := Threw];
        return;
      }
      connection := Some(nextConnection);
      nextConnection := nextConnection + 1;
      tasks := tasks[task := CreatingChannel(connection.value)];
    }

    method CreateChannelSettled(task: nat, ok: bool)
      requires Valid() && Enabled(Snapshot(), ChannelSettles(task, ok))
      modifies this
      ensures Valid() && Snapshot() == Apply(config, old(Snapshot()), ChannelSettles(task, ok))
    {
      SafeStep(config, Snapshot(), ChannelSettles(task, ok));
      if !ok {
        tasks := tasks[task := Threw];
        return;
      }
      channel := Some(|channelOwners|);
      channelOwners := channelOwners + [tasks[task].connection];
      if connection.None? {
        tasks := tasks[task := Threw];
        return;
      }
      listenedTo := listenedTo + {connection.value};
      tasks := tasks[task := ConnectReturned];
    }

    method SetupTopology(task: nat)
      requires Valid() && Enabled(Snapshot(), SetupStarts(task))
      modifies this
      ensures Valid() && Snapshot() == Apply(config, old(Snapshot()), SetupStarts(task))
    {
      SafeStep(config, Snapshot(), SetupStarts(task));
      if channel.None? {
        tasks := tasks[task := Threw];
      } else {
        tasks := tasks[task := Topology(0)];
      }
    }

    method DeclarationSettled(task: nat, ok: bool)
      requires Valid() && Enabled(Snapshot(), TopologySettles(task, ok))
      modifies this
      ensures Valid() && Snapshot() == Apply(config, old(Snapshot()), TopologySettles(task, ok))
    {
      SafeStep(config, Snapshot(), TopologySettles(task, ok));
      var call := tasks[task].call;
      if !ok {
        tasks := tasks[task := Threw];
      } else if call >= 3 {
        tasks := tasks[task := SetupReturned];
      } else if channel.None? {
        tasks := tasks[task := Threw];
      } else {
        tasks := tasks[task := Topology(call + 1)];
      }
    }

    method SetupTopologyReturned(task: nat)
      requires Valid() && Enabled(Snapshot(), SetupEnds(task))
      modifies this
      ensures Valid() && Snapshot() == Apply(config, old(Snapshot()), SetupEnds(task))
    {
      SafeStep(config, Snapshot(), SetupEnds(task));
      reconnectAttempt := 0;
      delays := [];
      tasks := tasks[task := Finished];
    }

    method CleanupConnectionState() returns (oldChannel: Option<nat>, oldConnection: Option<nat>)
      modifies this
      ensures oldChannel == old(channel) && oldConnection == old(connection)
      ensures Snapshot() == old(Snapshot()).(channel := None, connection := None)
    {
      oldChannel, oldConnection := channel, connection;
      channel := None;
      connection := None;
    }

    /** safeCloseResources() up to its first await: both references now belong to a closer. */
    method SafeCloseResources(oldChannel: Option<nat>, oldConnection: Option<nat>)
      modifies this
      ensures Snapshot() == old(Snapshot()).(closedChannels := old(closedChannels) + Listed(oldChannel),
                                             closedConnections := old(closedConnections) + Listed(oldConnection))
    {
      if oldChannel.Some? {
        closedChannels := closedChannels + [oldChannel.value];
      }
      if oldConnection.Some? {
        closedConnections := closedConnections + [oldConnection.value];
      }
    }

    /** The catch block of connectWithSetup(), into safeCloseCurrentConnection(). */
    method ConnectWithSetupFailed(task: nat)
      requires Valid() && Enabled(Snapshot(), CatchRuns(task))
      modifies this
      ensures Valid() && Snapshot() == Apply(config, old(Snapshot()), CatchRuns(task))
      ensures old(connection).Some? ==>
              old(connection).value in closedConnections && old(connection).value !in old(closedConnections)
    {
      SafeStep(config, Snapshot(), CatchRuns(task));
      var oldChannel, oldConnection := CleanupConnectionState();
      SafeCloseResources(oldChannel, oldConnection);
      tasks := tasks[task := ClosingChannel];
    }

    method HandleConnectionLost(lost: nat)
      requires Valid() && Enabled(Snapshot(), ConnectionEvent(lost))
      modifies this
      ensures Valid() && Snapshot() == Apply(config, old(Snapshot()), ConnectionEvent(lost))
      ensures !isShuttingDown && old(connection).Some? ==>
              old(connection).value in closedConnections && old(connection).value !in old(closedConnections)
    {
      SafeStep(config, Snapshot(), ConnectionEvent(lost));
      if isShuttingDown {
        return;
      }
      var oldChannel, oldConnection := CleanupConnectionState();
      SafeCloseResources(oldChannel, oldConnection);
      tasks := tasks + [ClosingChannel];
    }

    /** Nothing when shutting down or with a timer pending, else one timer; Valid() says what its delay is. */
    method ScheduleReconnect(draw: real)
      requires ValidDraw(draw)
      modifies this`reconnectTimer, this`reconnectAttempt, this`delays, this`pendingTimers, this`nextTimer
      ensures Snapshot() == QueueMachine.ScheduleReconnect(config, old(Snapshot()), draw)
      ensures old(isShuttingDown) || old(reconnectTimer).Some? ==>
              reconnectTimer == old(reconnectTimer) && pendingTimers == old(pendingTimers) && delays == old(delays)
      ensures !old(isShuttingDown) && old(reconnectTimer).None? ==>
              && reconnectTimer.Some? && reconnectTimer.value in pendingTimers
              && delays == old(delays) + [Delay(config, old(reconnectAttempt), draw)]
    {
      if isShuttingDown || reconnectTimer.Some? {
        return;
      }
      var baseDelayMs := BaseDelay(config, reconnectAttempt);
      var jitterMs := Jitter(baseDelayMs, draw);
      var delayMs := Min(config.maxDelayMs, baseDelayMs + jitterMs);
      reconnectAttempt := reconnectAttempt + 1;
      delays := delays + [delayMs];
      reconnectTimer := Some(nextTimer);
      pendingTimers := pendingTimers + {nextTimer};
      nextTimer := nextTimer + 1;
    }

    /** The last stage of a closer and of a failed attempt. */
    method CloserFinished(task: nat, draw: real)
      requires Valid() && Enabled(Snapshot(), RescheduleRuns(task, draw))
      modifies this
      ensures Valid() && Snapshot() == Apply(config, old(Snapshot()), RescheduleRuns(task, draw))
      ensures !isShuttingDown ==> exists timer :: pendingTimers == {timer}
      ensures !isShuttingDown && old(reconnectTimer).None? ==>
              |delays| == |old(delays)| + 1 && Fits(config, |old(delays)|, delays[|delays| - 1])
    {
      SafeStep(config, Snapshot(), RescheduleRuns(task, draw));
      tasks := tasks[task := Finished];
      ScheduleReconnect(draw);
    }

    /**
     * A message goes exactly to the stored channel, if that is open and its
     * buffer has room, and that channel was handed to no closer.
     */
    method PublishCvUploaded(bufferFull: bool) returns (written: Option<nat>)
      requires Valid()
      ensures written.Some? <==> CanPublish(Snapshot()) && !bufferFull
      ensures written.Some? ==> written == channel && written.value !in closedChannels
    {
      if channel.None? || channel.value in deadChannels || bufferFull {
        return None;
      }
      return channel;
    }

    method OnModuleDestroy()
      requires Valid() && Enabled(Snapshot(), ModuleDestroy)
      modifies this
      ensures Valid() && Snapshot() == Apply(config, old(Snapshot()), ModuleDestroy)
      ensures isShuttingDown && pendingTimers == {}
    {
      SafeStep(config, Snapshot(), ModuleDestroy);
      isShuttingDown := true;
      if reconnectTimer.Some? {
        pendingTimers := pendingTimers - {reconnectTimer.value};
        reconnectTimer := None;
      }
      channelClosedByShutdown := channel;
      shutdown := AwaitingChannelClose;
    }

    method DestroyChannelClosed(ok: bool)
      requires Valid() && Enabled(Snapshot(), DestroyChannelSettles(ok))
      modifies this
      ensures Valid() && Snapshot() == Apply(config, old(Snapshot()), DestroyChannelSettles(ok))
    {
      SafeStep(config, Snapshot(), DestroyChannelSettles(ok));
      if ok {
        closedByShutdown := connection;
        shutdown := AwaitingConnectionClose;
      } else {
        shutdown := ShutDown;
      }
    }

    method DestroyConnectionClosed(ok: bool)
      requires Valid() && Enabled(Snapshot(), DestroyConnectionSettles(ok))
      modifies this
      ensures Valid() && Snapshot() == Apply(config, old(Snapshot()), DestroyConnectionSettles(ok))
    {
      SafeStep(config, Snapshot(), DestroyConnectionSettles(ok));
      shutdown := ShutDown;
      if ok {
        var _, _ := CleanupConnectionState();
      }
    }
  }
}
