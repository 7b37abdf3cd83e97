/** What every interleaving of the connection manager keeps. */
module QueueSafety {
  import opened Options
  import opened Backoff
  import opened QueueMachine

  // ---- Never stranded ----

  predicate Connected(s: State) {
    s.connection.Some? && s.channel.Some?
  }

  /**
   * The waiting places from which a task still leads to a connection or to a
   * reconnect timer.  An attempt that is declaring its topology is not one of
   * them: a connection lost behind its back does not make it fail.
   */
  predicate Rescues(t: Task) {
    t.Connecting? || t.CreatingChannel? || t.Threw? || t.ClosingChannel? || t.ClosingConnection? || t.Closed?
  }

  ghost predicate RescueInFlight(s: State) {
    exists i :: 0 <= i < |s.tasks| && Rescues(s.tasks[i])
  }

  ghost predicate NotStranded(s: State) {
    s.started && !s.isShuttingDown ==> Connected(s) || s.reconnectTimer.Some? || RescueInFlight(s)
  }

  /** A rescuer goes on as one until it has led back, has set a timer, or shutdown has come. */
  lemma RescuerMovesOn(cfg: Config, s: State, e: Event)
    requires Enabled(s, e) && MovesTask(e) && Rescues(s.tasks[e.task])
    ensures var s' := Apply(cfg, s, e);
            |s'.tasks| == |s.tasks| &&
            (Rescues(s'.tasks[e.task]) || Connected(s') || s'.reconnectTimer.Some? || s'.isShuttingDown)
  {
  }

  /** Every other event adds a rescuer, changes no field of the service, or belongs to a shutdown. */
  lemma OtherEventsRescue(cfg: Config, s: State, e: Event)
    requires TimersOk(s) && Enabled(s, e) && !MovesTask(e)
    ensures var s' := Apply(cfg, s, e);
            s'.isShuttingDown || s' == s.(deadChannels := s'.deadChannels) || RescueInFlight(s')
  {
    var s' := Apply(cfg, s, e);
    if |s'.tasks| > |s.tasks| {
      assert Rescues(s'.tasks[|s.tasks|]);
    }
  }

  /** Declaring the topology takes nothing away. */
  lemma DeclaringKeepsWhatIsStored(cfg: Config, s: State, e: Event)
    requires Enabled(s, e) && MovesTask(e) && !Rescues(s.tasks[e.task])
    ensures var s' := Apply(cfg, s, e);
            && s'.connection == s.connection && s'.channel == s.channel && s'.reconnectTimer == s.reconnectTimer
            && s'.isShuttingDown == s.isShuttingDown && s'.started == s.started
  {
  }

  lemma NotStrandedStep(cfg: Config, s: State, e: Event)
    requires NotStranded(s) && TimersOk(s) && Enabled(s, e)
    ensures NotStranded(Apply(cfg, s, e))
  {
    var s' := Apply(cfg, s, e);
    if !MovesTask(e) {
      OtherEventsRescue(cfg, s, e);
    } else if Rescues(s.tasks[e.task]) {
      RescuerMovesOn(cfg, s, e);
    } else {
      OtherTasksStay(cfg, s, e);
      DeclaringKeepsWhatIsStored(cfg, s, e);
      assert forall i :: 0 <= i < |s.tasks| && Rescues(s.tasks[i]) ==> Rescues(s'.tasks[i]);
    }
  }

  // ---- Timers and shutdown ----

  ghost predicate TimersOk(s: State) {
    && s.pendingTimers == (if s.reconnectTimer.Some? then {s.reconnectTimer.value} else {})
    && (s.reconnectTimer.Some? ==> s.reconnectTimer.value < s.nextTimer)
    && (s.isShuttingDown ==> s.reconnectTimer.None?)
    && (s.isShuttingDown <==> !s.shutdown.NotRequested?)
    && (s.isShuttingDown ==> s.started)
  }

  lemma TimersOkStep(cfg: Config, s: State, e: Event)
    requires TimersOk(s) && Enabled(s, e)
    ensures TimersOk(Apply(cfg, s, e))
  {
  }

  // ---- Ownership ----

  ghost predicate NoDuplicates(xs: seq<nat>) {
    forall i, j :: 0 <= i < j < |xs| ==> xs[i] != xs[j]
  }

  /** Ids were handed out before `next`, each was closed at most once, and the one in use was not. */
  ghost predicate Owned(current: Option<nat>, closed: seq<nat>, next: nat) {
    && NoDuplicates(closed)
    && (forall x :: x in closed ==> x < next)
    && (current.Some? ==> current.value < next && current.value !in closed)
  }

  ghost predicate OwnershipOk(s: State) {
    && Owned(s.connection, s.closedConnections, s.nextConnection)
    && Owned(s.channel, s.closedChannels, |s.channelOwners|)
  }

  lemma HandOverKeeps(current: Option<nat>, closed: seq<nat>, next: nat)
    requires Owned(current, closed, next)
    ensures Owned(None, closed + Listed(current), next)
  {
  }

  /** A new connection or channel takes the place of the one stored so far, which is then never closed. */
  lemma ReplacedKeeps(current: Option<nat>, closed: seq<nat>, next: nat)
    requires Owned(current, closed, next)
    ensures Owned(Some(next), closed, next + 1)
  {
  }

  predicate TouchesResources(e: Event) {
    e.CatchRuns? || e.ConnectionEvent? || e.ConnectSettles? || e.ChannelSettles? || e.DestroyConnectionSettles?
  }

  lemma OtherEventsKeepResources(cfg: Config, s: State, e: Event)
    requires Enabled(s, e) && !TouchesResources(e)
    ensures var s' := Apply(cfg, s, e);
            && s'.connection == s.connection && s'.channel == s.channel
            && s'.closedConnections == s.closedConnections && s'.closedChannels == s.closedChannels
            && s'.nextConnection == s.nextConnection && s'.channelOwners == s.channelOwners
  {
  }

  lemma OwnershipOkStep(cfg: Config, s: State, e: Event)
    requires OwnershipOk(s) && Enabled(s, e)
    ensures OwnershipOk(Apply(cfg, s, e))
  {
    match e {
      case CatchRuns(_) =>
        HandOverKeeps(s.connection, s.closedConnections, s.nextConnection);
        HandOverKeeps(s.channel, s.closedChannels, |s.channelOwners|);
      case ConnectionEvent(_) =>
        HandOverKeeps(s.connection, s.closedConnections, s.nextConnection);
        HandOverKeeps(s.channel, s.closedChannels, |s.channelOwners|);
      case ConnectSettles(_, _) =>
        ReplacedKeeps(s.connection, s.closedConnections, s.nextConnection);
      case ChannelSettles(_, _) =>
        ReplacedKeeps(s.channel, s.closedChannels, |s.channelOwners|);
      case DestroyConnectionSettles(_) =>
      case _ =>
        OtherEventsKeepResources(cfg, s, e);
    }
  }

  // ---- A lost connection is noticed ----

  /** An attempt that has stored a connection and not yet listened to it, or failed. */
  predicate MayListen(t: Task) {
    t.CreatingChannel? || t.Threw?
  }

  /** The stored connection is listened to, or somebody is about to listen to it or to give it up. */
  ghost predicate Listening(s: State) {
    s.connection.Some? ==>
      s.connection.value in s.listenedTo || exists i :: 0 <= i < |s.tasks| && MayListen(s.tasks[i])
  }

  lemma ListenerMovesOn(cfg: Config, s: State, e: Event)
    requires Enabled(s, e) && MovesTask(e) && MayListen(s.tasks[e.task])
    ensures Listening(Apply(cfg, s, e))
  {
    var s' := Apply(cfg, s, e);
    if e.ChannelSettles? && (!e.ok || s.connection.None?) {
      assert MayListen(s'.tasks[e.task]);
    }
  }

  lemma OthersKeepListening(cfg: Config, s: State, e: Event)
    requires Enabled(s, e) && !(MovesTask(e) && MayListen(s.tasks[e.task])) && !e.ConnectSettles?
    ensures var s' := Apply(cfg, s, e);
            (s'.connection.None? || s'.connection == s.connection) && s'.listenedTo == s.listenedTo
  {
  }

  lemma ListeningStep(cfg: Config, s: State, e: Event)
    requires Listening(s) && Enabled(s, e)
    ensures Listening(Apply(cfg, s, e))
  {
    var s' := Apply(cfg, s, e);
    if e.ConnectSettles? {
      assert MayListen(s'.tasks[e.task]);
    } else if MovesTask(e) && MayListen(s.tasks[e.task]) {
      ListenerMovesOn(cfg, s, e);
    } else {
      OthersKeepListening(cfg, s, e);
      if MovesTask(e) {
        OtherTasksStay(cfg, s, e);
      } else {
        OtherEventsAddTasks(cfg, s, e);
      }
      assert forall i :: 0 <= i < |s.tasks| && MayListen(s.tasks[i]) ==> s'.tasks[i] == s.tasks[i];
    }
  }

  // ---- Who owns a channel ----

  /** Connections that channels were created on, or are being created on, are ones the broker has handed out. */
  ghost predicate OwnersKnown(s: State) {
    && (forall k :: 0 <= k < |s.channelOwners| ==> s.channelOwners[k] < s.nextConnection)
    && (forall i :: 0 <= i < |s.tasks| && s.tasks[i].CreatingChannel? ==> s.tasks[i].connection < s.nextConnection)
  }

  lemma NoNewCreator(cfg: Config, s: State, e: Event)
    requires Enabled(s, e) && !e.ConnectSettles?
    ensures var s' := Apply(cfg, s, e);
            forall i :: 0 <= i < |s'.tasks| && s'.tasks[i].CreatingChannel? ==>
              i < |s.tasks| && s'.tasks[i] == s.tasks[i]
  {
    if MovesTask(e) {
      OtherTasksStay(cfg, s, e);
    }
  }

  lemma OwnersKnownStep(cfg: Config, s: State, e: Event)
    requires OwnersKnown(s) && Enabled(s, e)
    ensures OwnersKnown(Apply(cfg, s, e))
  {
    if !TouchesResources(e) {
      OtherEventsKeepResources(cfg, s, e);
    }
    if !e.ConnectSettles? {
      NoNewCreator(cfg, s, e);
    }
  }

  // ---- Backoff ----

  ghost predicate BackoffOk(cfg: Config, s: State) {
    |s.delays| == s.reconnectAttempt && DelaysOf(cfg, s.delays)
  }

  lemma BackoffOkStep(cfg: Config, s: State, e: Event)
    requires ValidConfig(cfg) && BackoffOk(cfg, s) && Enabled(s, e)
    ensures BackoffOk(cfg, Apply(cfg, s, e))
  {
    if e.RescheduleRuns? {
      DelayIsBracketed(cfg, s.reconnectAttempt, e.draw);
    }
  }

  // ---- Every run ----

  ghost predicate Safe(cfg: Config, s: State) {
    && NotStranded(s) && TimersOk(s) && OwnershipOk(s) && BackoffOk(cfg, s)
    && Listening(s) && OwnersKnown(s)
  }

  lemma SafeStep(cfg: Config, s: State, e: Event)
    requires ValidConfig(cfg) && Safe(cfg, s) && Enabled(s, e)
    ensures Safe(cfg, Apply(cfg, s, e))
  {
    NotStrandedStep(cfg, s, e);
    TimersOkStep(cfg, s, e);
    OwnershipOkStep(cfg, s, e);
    BackoffOkStep(cfg, s, e);
    ListeningStep(cfg, s, e);
    OwnersKnownStep(cfg, s, e);
  }

  lemma {:induction false} SafeRun(cfg: Config, s: State, es: seq<Event>)
    requires ValidConfig(cfg) && Safe(cfg, s) && CanRun(cfg, s, es)
    ensures Safe(cfg, Run(cfg, s, es))
    decreases es
  {
    if es != [] {
      SafeStep(cfg, s, es[0]);
      SafeRun(cfg, Apply(cfg, s, es[0]), es[1..]);
    }
  }

  /** Every state that any interleaving reaches. */
  lemma ReachableIsSafe(cfg: Config, es: seq<Event>)
    requires ValidConfig(cfg) && CanRun(cfg, INITIAL, es)
    ensures Safe(cfg, Run(cfg, INITIAL, es))
  {
    SafeRun(cfg, INITIAL, es);
  }

  /** Nothing is under way any more, and no timer pending. */
  ghost predicate Quiet(s: State) {
    && s.started && !s.isShuttingDown && s.pendingTimers == {}
    && forall i :: 0 <= i < |s.tasks| ==> s.tasks[i].Finished?
  }

  /** A service that has gone quiet is connected. */
  lemma QuietMeansConnected(cfg: Config, es: seq<Event>)
    requires ValidConfig(cfg) && CanRun(cfg, INITIAL, es) && Quiet(Run(cfg, INITIAL, es))
    ensures Connected(Run(cfg, INITIAL, es))
  {
    ReachableIsSafe(cfg, es);
  }

  /**
   * And it notices when the stored connection is lost: both references go to a
   * closer, which ends by scheduling a reconnect.
   */
  lemma LossIsNoticed(cfg: Config, es: seq<Event>)
    requires ValidConfig(cfg) && CanRun(cfg, INITIAL, es) && Quiet(Run(cfg, INITIAL, es))
    ensures var s := Run(cfg, INITIAL, es);
            && s.connection.Some? && s.channel.Some? && Enabled(s, ConnectionEvent(s.connection.value))
            && var s' := Apply(cfg, s, ConnectionEvent(s.connection.value));
               && s'.connection.None? && s'.channel.None? && s'.tasks == s.tasks + [ClosingChannel]
               && s'.closedConnections == s.closedConnections + [s.connection.value]
               && s'.closedChannels == s.closedChannels + [s.channel.value]
  {
    ReachableIsSafe(cfg, es);
  }

  /** An attempt that fails gives both references up at once, to its own closing stages. */
  lemma FailureCleansUp(cfg: Config, s: State, i: nat)
    requires Enabled(s, CatchRuns(i))
    ensures var s' := Apply(cfg, s, CatchRuns(i));
            && s'.connection.None? && s'.channel.None? && s'.tasks == s.tasks[i := ClosingChannel]
            && (s.connection.Some? ==> s'.closedConnections == s.closedConnections + [s.connection.value])
            && (s.connection.None? ==> s'.closedConnections == s.closedConnections)
            && (s.channel.Some? ==> s'.closedChannels == s.closedChannels + [s.channel.value])
            && (s.channel.None? ==> s'.closedChannels == s.closedChannels)
            && s'.reconnectTimer == s.reconnectTimer && s'.reconnectAttempt == s.reconnectAttempt
  {
  }

  /**
   * In every reachable state the delays scheduled since the last reset back
   * off: each is the initial delay doubled once per failure, and at most a
   * fifth more, cut off at the cap; and they add up while the cap is out of
   * reach.
   */
  lemma ReachableBacksOff(cfg: Config, es: seq<Event>, i: nat, j: nat)
    requires ValidConfig(cfg) && CanRun(cfg, INITIAL, es)
    requires i <= j < Run(cfg, INITIAL, es).reconnectAttempt
    ensures var delays := Run(cfg, INITIAL, es).delays;
            && |delays| == Run(cfg, INITIAL, es).reconnectAttempt && delays[i] <= delays[j] <= cfg.maxDelayMs
            && 5 * delays[i] <= 6 * (cfg.initialDelayMs * Pow2(i))
            && (cfg.initialDelayMs * Pow2(i) <= cfg.maxDelayMs ==> cfg.initialDelayMs * Pow2(i) <= delays[i])
            && (cfg.maxDelayMs <= cfg.initialDelayMs * Pow2(i) ==> delays[j] == cfg.maxDelayMs)
            && (cfg.initialDelayMs * Pow2(|delays| - 1) <= cfg.maxDelayMs ==>
                  cfg.initialDelayMs * Pow2(|delays|) - cfg.initialDelayMs <= Sum(delays))
  {
    ReachableIsSafe(cfg, es);
    var delays := Run(cfg, INITIAL, es).delays;
    DelaysBackOff(cfg, delays, i, j);
    if cfg.initialDelayMs * Pow2(|delays| - 1) <= cfg.maxDelayMs {
      UncappedDelaysAddUp(cfg, delays);
    }
  }

  /** A setup that completes starts the backoff again: the next delay is one of a first attempt. */
  lemma SetupRestartsBackoff(cfg: Config, s: State, i: nat, j: nat, draw: real)
    requires ValidConfig(cfg) && Enabled(s, SetupEnds(i))
    requires Enabled(Apply(cfg, s, SetupEnds(i)), RescheduleRuns(j, draw))
    requires !s.isShuttingDown && s.reconnectTimer.None?
    ensures var delays := Apply(cfg, Apply(cfg, s, SetupEnds(i)), RescheduleRuns(j, draw)).delays;
            && |delays| == 1 && 5 * delays[0] <= 6 * cfg.initialDelayMs
            && (if cfg.initialDelayMs <= cfg.maxDelayMs then cfg.initialDelayMs <= delays[0] <= cfg.maxDelayMs
                else delays[0] == cfg.maxDelayMs)
  {
    DelayIsBracketed(cfg, 0, draw);
  }
}
