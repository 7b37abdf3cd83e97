/**
 * The RabbitMQ connection manager as a labelled transition system
 * (api-gateway/src/queue/queue.service.ts:66-323).
 *
 * Code between two awaits is one event; any other event may come between two
 * of them.  Every call that outlives its first await is a task, never removed
 * from the list, so that the list is also the history of what was started.
 * Connections, channels and timers are numbered in the order the broker and
 * the event loop hand them out.
 */
module QueueMachine {
  import opened Options
  import opened Backoff

  /**
   * Where a call of connectWithSetup, or a closer started by a lost
   * connection, is waiting.  Both end in the same three closing stages.
   */
  datatype Task =
    | Connecting                                   // amqplib is connecting
    | CreatingChannel(connection: nat)             // createChannel() is pending on this connection
    | ConnectReturned                              // connect() has returned, setupTopology() not yet entered
    | Topology(call: nat)                          // one of the four declarations is pending
    | SetupReturned                                // setupTopology() has returned, the counter is not yet reset
    | Threw                                        // an exception is on its way to the catch block
    | ClosingChannel                               // channel?.close() is pending
    | ClosingConnection                            // connection?.close() is pending
    | Closed                                       // scheduleReconnect() is next
    | Finished

  datatype Shutdown = NotRequested | AwaitingChannelClose | AwaitingConnectionClose | ShutDown

  datatype State = State(
    connection: Option<nat>,
    channel: Option<nat>,
    reconnectTimer: Option<nat>,
    reconnectAttempt: nat,
    isShuttingDown: bool,
    // the event loop and the broker
    started: bool,
    shutdown: Shutdown,
    tasks: seq<Task>,
    pendingTimers: set<nat>,
    listenedTo: set<nat>,
    deadChannels: set<nat>,
    nextConnection: nat,
    nextTimer: nat,
    // history: the connection each channel was created on, what was handed to a closer, what the shutdown itself
    // set out to close, and the delays since a reset
    channelOwners: seq<nat>,
    closedConnections: seq<nat>,
    closedChannels: seq<nat>,
    channelClosedByShutdown: Option<nat>,
    closedByShutdown: Option<nat>,
    delays: seq<int>)

  const INITIAL :=
    State(None, None, None, 0, false, false, NotRequested, [], {}, {}, {}, 0, 0, [], [], [], None, None, [])

  datatype Event =
    | ModuleInit
    | TimerFires(timer: nat)
    | ConnectSettles(task: nat, ok: bool)
    | ChannelSettles(task: nat, ok: bool)
    | SetupStarts(task: nat)
    | TopologySettles(task: nat, ok: bool)
    | SetupEnds(task: nat)
    | CatchRuns(task: nat)
    | ChannelCloseSettles(task: nat)
    | ConnectionCloseSettles(task: nat)
    | RescheduleRuns(task: nat, draw: real)
    | ConnectionEvent(connection: nat)
    | ChannelDies(channel: nat)
    | ModuleDestroy
    | DestroyChannelSettles(ok: bool)
    | DestroyConnectionSettles(ok: bool)

  predicate At(s: State, i: nat) {
    i < |s.tasks|
  }

  /** What publishCvUploaded() needs: a stored channel, and one that the broker has not closed. */
  predicate CanPublish(s: State) {
    s.channel.Some? && s.channel.value !in s.deadChannels
  }

  predicate Enabled(s: State, e: Event) {
    match e
    case ModuleInit => !s.started
    case TimerFires(t) => t in s.pendingTimers
    case ConnectSettles(i, _) => At(s, i) && s.tasks[i].Connecting?
    case ChannelSettles(i, _) => At(s, i) && s.tasks[i].CreatingChannel?
    case SetupStarts(i) => At(s, i) && s.tasks[i].ConnectReturned?
    case TopologySettles(i, _) => At(s, i) && s.tasks[i].Topology?
    case SetupEnds(i) => At(s, i) && s.tasks[i].SetupReturned?
    case CatchRuns(i) => At(s, i) && s.tasks[i].Threw?
    case ChannelCloseSettles(i) => At(s, i) && s.tasks[i].ClosingChannel?
    case ConnectionCloseSettles(i) => At(s, i) && s.tasks[i].ClosingConnection?
    case RescheduleRuns(i, draw) => At(s, i) && s.tasks[i].Closed? && ValidDraw(draw)
    case ConnectionEvent(c) => c in s.listenedTo
    case ChannelDies(c) => c < |s.channelOwners| && c !in s.deadChannels
    case ModuleDestroy => s.started && s.shutdown.NotRequested?
    case DestroyChannelSettles(_) => s.shutdown.AwaitingChannelClose?
    case DestroyConnectionSettles(_) => s.shutdown.AwaitingConnectionClose?
  }

  function Move(s: State, i: nat, t: Task): State
    requires At(s, i)
  {
    s.(tasks := s.tasks[i := t])
  }

  function Listed(x: Option<nat>): seq<nat> {
    if x.None? then [] else [x.value]
  }

  /** connectWithSetup() up to its first await; a rejected URL throws inside connect(). */
  function StartAttempt(cfg: Config, s: State): State {
    s.(tasks := s.tasks + [if cfg.urlAccepted then Connecting else Threw])
  }

  function OnTimer(cfg: Config, s: State, timer: nat): State {
    StartAttempt(cfg, s.(reconnectTimer := None, pendingTimers := s.pendingTimers - {timer}))
  }

  function OnConnect(s: State, i: nat, ok: bool): State
    requires At(s, i)
  {
    if ok then
      Move(s, i, CreatingChannel(s.nextConnection)).(
        connection := Some(s.nextConnection), nextConnection := s.nextConnection + 1)
    else
      Move(s, i, Threw)
  }

  /**
   * The channel belongs to the attempt's own connection, the listeners go to
   * whatever connection is stored now.  When none is, `this.connection.on`
   * throws, after the channel has been stored.
   */
  function OnChannel(s: State, i: nat, ok: bool): State
    requires At(s, i) && s.tasks[i].CreatingChannel?
  {
    if !ok then
      Move(s, i, Threw)
    else
      var stored := s.(channel := Some(|s.channelOwners|), channelOwners := s.channelOwners + [s.tasks[i].connection]);
      if s.connection.None? then
        Move(stored, i, Threw)
      else
        Move(stored, i, ConnectReturned).(listenedTo := s.listenedTo + {s.connection.value})
  }

  /** setupTopology() issues declaration number `call` on whatever channel is stored now. */
  function Declare(s: State, i: nat, call: nat): State
    requires At(s, i)
  {
    Move(s, i, if s.channel.None? then Threw else Topology(call))
  }

  function OnTopology(s: State, i: nat, ok: bool): State
    requires At(s, i) && s.tasks[i].Topology?
  {
    if !ok then Move(s, i, Threw)
    else if s.tasks[i].call >= 3 then Move(s, i, SetupReturned)
    else Declare(s, i, s.tasks[i].call + 1)
  }

  function OnSetupEnd(s: State, i: nat): State
    requires At(s, i)
  {
    Move(s, i, Finished).(reconnectAttempt := 0, delays := [])
  }

  /** cleanupConnectionState() followed by handing what it returned to safeCloseResources(). */
  function HandOver(s: State): State {
    s.(connection := None, channel := None,
       closedConnections := s.closedConnections + Listed(s.connection),
       closedChannels := s.closedChannels + Listed(s.channel))
  }

  function OnCatch(s: State, i: nat): State
    requires At(s, i)
  {
    Move(HandOver(s), i, ClosingChannel)
  }

  function OnConnectionEvent(s: State): State {
    if s.isShuttingDown then s
    else HandOver(s).(tasks := s.tasks + [ClosingChannel])
  }

  /** The service listens to its connections alone, so none of its code runs when the broker closes a channel. */
  function OnChannelDeath(s: State, channel: nat): State {
    s.(deadChannels := s.deadChannels + {channel})
  }

  function ScheduleReconnect(cfg: Config, s: State, draw: real): State {
    if s.isShuttingDown || s.reconnectTimer.Some? then s
    else
      s.(reconnectTimer := Some(s.nextTimer),
         pendingTimers := s.pendingTimers + {s.nextTimer},
         nextTimer := s.nextTimer + 1,
         reconnectAttempt := s.reconnectAttempt + 1,
         delays := s.delays + [Delay(cfg, s.reconnectAttempt, draw)])
  }

  function OnReschedule(cfg: Config, s: State, i: nat, draw: real): State
    requires At(s, i)
  {
    ScheduleReconnect(cfg, Move(s, i, Finished), draw)
  }

  function OnDestroy(s: State): State {
    s.(isShuttingDown := true, shutdown := AwaitingChannelClose, channelClosedByShutdown := s.channel,
       reconnectTimer := None,
       pendingTimers := if s.reconnectTimer.Some? then s.pendingTimers - {s.reconnectTimer.value} else s.pendingTimers)
  }

  /** After a clean close of the channel, whatever connection is stored by then is closed. */
  function OnDestroyChannel(s: State, ok: bool): State {
    if ok then s.(shutdown := AwaitingConnectionClose, closedByShutdown := s.connection) else s.(shutdown := ShutDown)
  }

  /** Only a clean shutdown reaches cleanupConnectionState(), whose result it drops. */
  function OnDestroyConnection(s: State, ok: bool): State {
    if ok then s.(shutdown := ShutDown, connection := None, channel := None) else s.(shutdown := ShutDown)
  }

  function Apply(cfg: Config, s: State, e: Event): State
    requires Enabled(s, e)
  {
    match e
    case ModuleInit => StartAttempt(cfg, s.(started := true))
    case TimerFires(t) => OnTimer(cfg, s, t)
    case ConnectSettles(i, ok) => OnConnect(s, i, ok)
    case ChannelSettles(i, ok) => OnChannel(s, i, ok)
    case SetupStarts(i) => Declare(s, i, 0)
    case TopologySettles(i, ok) => OnTopology(s, i, ok)
    case SetupEnds(i) => OnSetupEnd(s, i)
    case CatchRuns(i) => OnCatch(s, i)
    case ChannelCloseSettles(i) => Move(s, i, ClosingConnection)
    case ConnectionCloseSettles(i) => Move(s, i, Closed)
    case RescheduleRuns(i, draw) => OnReschedule(cfg, s, i, draw)
    case ConnectionEvent(_) => OnConnectionEvent(s)
    case ChannelDies(c) => OnChannelDeath(s, c)
    case ModuleDestroy => OnDestroy(s)
    case DestroyChannelSettles(ok) => OnDestroyChannel(s, ok)
    case DestroyConnectionSettles(ok) => OnDestroyConnection(s, ok)
  }

  /** The events can happen one after the other, starting in s. */
  predicate CanRun(cfg: Config, s: State, es: seq<Event>)
    decreases es
  {
    es == [] || (Enabled(s, es[0]) && CanRun(cfg, Apply(cfg, s, es[0]), es[1..]))
  }

  function Run(cfg: Config, s: State, es: seq<Event>): State
    requires CanRun(cfg, s, es)
    decreases es
  {
    if es == [] then s else Run(cfg, Apply(cfg, s, es[0]), es[1..])
  }

  // ---- Microtasks come first ----

  /** Where only a microtask is left to run: the event loop comes to it before anything else settles or fires. */
  predicate Prompt(t: Task) {
    t.ConnectReturned? || t.SetupReturned? || t.Threw? || t.Closed?
  }

  ghost predicate InOrder(s: State, e: Event) {
    || e.SetupStarts? || e.SetupEnds? || e.CatchRuns? || e.RescheduleRuns?
    || forall i :: 0 <= i < |s.tasks| ==> !Prompt(s.tasks[i])
  }

  ghost predicate RunsInOrder(cfg: Config, s: State, es: seq<Event>)
    requires CanRun(cfg, s, es)
    decreases es
  {
    es == [] || (InOrder(s, es[0]) && RunsInOrder(cfg, Apply(cfg, s, es[0]), es[1..]))
  }

  /** Nobody but task i, if anyone, is left with a microtask. */
  ghost predicate OthersWait(s: State, i: nat) {
    forall j :: 0 <= j < |s.tasks| && j != i ==> !Prompt(s.tasks[j])
  }

  lemma {:induction false} RunsCompose(cfg: Config, s: State, es: seq<Event>, fs: seq<Event>)
    requires CanRun(cfg, s, es) && CanRun(cfg, Run(cfg, s, es), fs)
    ensures CanRun(cfg, s, es + fs) && Run(cfg, s, es + fs) == Run(cfg, Run(cfg, s, es), fs)
    ensures RunsInOrder(cfg, s, es) && RunsInOrder(cfg, Run(cfg, s, es), fs) ==> RunsInOrder(cfg, s, es + fs)
    decreases es
  {
    if es == [] {
      assert es + fs == fs;
    } else {
      assert (es + fs)[1..] == es[1..] + fs;
      RunsCompose(cfg, Apply(cfg, s, es[0]), es[1..], fs);
    }
  }

  // ---- The events that move one task ----

  predicate MovesTask(e: Event) {
    !(e.ModuleInit? || e.TimerFires? || e.ConnectionEvent? || e.ChannelDies? || e.ModuleDestroy?
      || e.DestroyChannelSettles? || e.DestroyConnectionSettles?)
  }

  lemma OtherTasksStay(cfg: Config, s: State, e: Event)
    requires Enabled(s, e) && MovesTask(e)
    ensures At(s, e.task) && |Apply(cfg, s, e).tasks| == |s.tasks|
    ensures Apply(cfg, s, e).tasks == s.tasks[e.task := Apply(cfg, s, e).tasks[e.task]]
  {
  }

  lemma OtherEventsAddTasks(cfg: Config, s: State, e: Event)
    requires Enabled(s, e) && !MovesTask(e)
    ensures s.tasks <= Apply(cfg, s, e).tasks
  {
  }
}
