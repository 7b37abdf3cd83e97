/** The connection manager can always come back, and it goes quiet once told to shut down. */
module QueueProgress {
  import opened Options
  import opened Backoff
  import opened QueueMachine
  import opened QueueSafety

  // ---- Recovery ----

  /** How many of the four declarations succeed. */
  function Declarations(es: seq<Event>): nat {
    if es == [] then 0 else (if es[0].TopologySettles? && es[0].ok then 1 else 0) + Declarations(es[1..])
  }

  lemma Prepend(cfg: Config, s: State, e: Event, es: seq<Event>)
    requires Enabled(s, e) && CanRun(cfg, Apply(cfg, s, e), es)
    ensures CanRun(cfg, s, [e] + es)
    ensures Run(cfg, s, [e] + es) == Run(cfg, Apply(cfg, s, e), es)
    ensures Declarations([e] + es) == (if e.TopologySettles? && e.ok then 1 else 0) + Declarations(es)
    ensures InOrder(s, e) && RunsInOrder(cfg, Apply(cfg, s, e), es) ==> RunsInOrder(cfg, s, [e] + es)
  {
    assert ([e] + es)[1..] == es;
  }

  /** es leads, without a shutdown, to a connection with its topology declared and the backoff reset. */
  ghost predicate Reconnects(cfg: Config, s: State, es: seq<Event>) {
    && CanRun(cfg, s, es)
    && Connected(Run(cfg, s, es)) && Run(cfg, s, es).reconnectAttempt == 0
    && Declarations(es) == 4
    && forall e :: e in es ==> !e.ModuleDestroy?
  }

  /** The declarations still to be made after `call`, and the reset. */
  lemma {:induction false} FromTopology(cfg: Config, s: State, i: nat) returns (es: seq<Event>)
    requires At(s, i) && s.tasks[i].Topology? && s.tasks[i].call <= 3 && Connected(s)
    ensures CanRun(cfg, s, es) && |es| == 5 - s.tasks[i].call && Declarations(es) == 4 - s.tasks[i].call
    ensures Run(cfg, s, es) == s.(tasks := s.tasks[i := Finished], reconnectAttempt := 0, delays := [])
    ensures forall e :: e in es ==> !e.ModuleDestroy?
    ensures OthersWait(s, i) ==> RunsInOrder(cfg, s, es)
    decreases 3 - s.tasks[i].call
  {
    var e := TopologySettles(i, true);
    var s1 := Apply(cfg, s, e);
    var rest;
    if s.tasks[i].call < 3 {
      rest := FromTopology(cfg, s1, i);
    } else {
      Prepend(cfg, s1, SetupEnds(i), []);
      rest := [SetupEnds(i)] + [];
    }
    Prepend(cfg, s, e, rest);
    es := [e] + rest;
  }

  lemma FinishSetup(cfg: Config, s: State, i: nat) returns (es: seq<Event>)
    requires At(s, i) && s.tasks[i].ConnectReturned? && Connected(s)
    ensures CanRun(cfg, s, es) && (OthersWait(s, i) ==> RunsInOrder(cfg, s, es))
    ensures Run(cfg, s, es) == s.(tasks := s.tasks[i := Finished], reconnectAttempt := 0, delays := [])
  {
    var s1 := Apply(cfg, s, SetupStarts(i));
    var rest := FromTopology(cfg, s1, i);
    Prepend(cfg, s, SetupStarts(i), rest);
    es := [SetupStarts(i)] + rest;
    assert s1.tasks[i := Finished] == s.tasks[i := Finished];
  }

  /** The first attempt completes its setup. */
  lemma FirstSetup(cfg: Config) returns (es: seq<Event>)
    requires cfg.urlAccepted
    ensures CanRun(cfg, INITIAL, es) && RunsInOrder(cfg, INITIAL, es)
    ensures Run(cfg, INITIAL, es)
         == INITIAL.(started := true, tasks := [Finished], connection := Some(0), channel := Some(0),
                     listenedTo := {0}, nextConnection := 1, channelOwners := [0])
  {
    es := [ModuleInit, ConnectSettles(0, true), ChannelSettles(0, true)];
    var setup := FinishSetup(cfg, Run(cfg, INITIAL, es), 0);
    RunsCompose(cfg, INITIAL, es, setup);
    es := es + setup;
  }

  lemma FromChannel(cfg: Config, s: State, i: nat) returns (es: seq<Event>)
    requires At(s, i) && s.tasks[i].CreatingChannel? && s.connection.Some?
    ensures Reconnects(cfg, s, es) && |es| == 7
  {
    var s1 := Apply(cfg, s, ChannelSettles(i, true));
    var rest := FromTopology(cfg, Apply(cfg, s1, SetupStarts(i)), i);
    Prepend(cfg, s1, SetupStarts(i), rest);
    Prepend(cfg, s, ChannelSettles(i, true), [SetupStarts(i)] + rest);
    es := [ChannelSettles(i, true)] + ([SetupStarts(i)] + rest);
  }

  lemma FromConnecting(cfg: Config, s: State, i: nat) returns (es: seq<Event>)
    requires At(s, i) && s.tasks[i].Connecting?
    ensures Reconnects(cfg, s, es) && |es| == 8
  {
    var rest := FromChannel(cfg, Apply(cfg, s, ConnectSettles(i, true)), i);
    Prepend(cfg, s, ConnectSettles(i, true), rest);
    es := [ConnectSettles(i, true)] + rest;
  }

  lemma FromTimer(cfg: Config, s: State) returns (es: seq<Event>)
    requires cfg.urlAccepted && TimersOk(s) && s.reconnectTimer.Some?
    ensures Reconnects(cfg, s, es) && |es| == 9
  {
    var fires := TimerFires(s.reconnectTimer.value);
    var rest := FromConnecting(cfg, Apply(cfg, s, fires), |s.tasks|);
    Prepend(cfg, s, fires, rest);
    es := [fires] + rest;
  }

  /** What a waiting task has to go through before it is over. */
  function Rank(t: Task): nat {
    match t
    case Connecting => 12
    case CreatingChannel(_) => 11
    case ConnectReturned => 10
    case Topology(call) => if call <= 3 then 9 - call else 6
    case SetupReturned => 5
    case Threw => 4
    case ClosingChannel => 3
    case ClosingConnection => 2
    case Closed => 1
    case Finished => 0
  }

  lemma {:induction false} FromRescuer(cfg: Config, s: State, i: nat) returns (es: seq<Event>)
    requires cfg.urlAccepted && TimersOk(s) && s.started && !s.isShuttingDown
    requires At(s, i) && Rescues(s.tasks[i])
    ensures Reconnects(cfg, s, es) && |es| <= 14
    ensures !s.tasks[i].CreatingChannel? && !s.tasks[i].Connecting? ==> |es| <= 9 + Rank(s.tasks[i])
    decreases Rank(s.tasks[i])
  {
    if s.tasks[i].Connecting? {
      es := FromConnecting(cfg, s, i);
    } else if s.tasks[i].CreatingChannel? && s.connection.Some? {
      es := FromChannel(cfg, s, i);
    } else {
      var e := match s.tasks[i]
        case CreatingChannel(_) => ChannelSettles(i, false)
        case Threw => CatchRuns(i)
        case ClosingChannel => ChannelCloseSettles(i)
        case ClosingConnection => ConnectionCloseSettles(i)
        case _ => RescheduleRuns(i, 0.0);
      TimersOkStep(cfg, s, e);
      var rest;
      if e.RescheduleRuns? {
        rest := FromTimer(cfg, Apply(cfg, s, e));
      } else {
        rest := FromRescuer(cfg, Apply(cfg, s, e), i);
      }
      Prepend(cfg, s, e, rest);
      es := [e] + rest;
    }
  }

  /** From every state that is reached before a shutdown and is not connected, at most fourteen events lead back. */
  lemma CanAlwaysReconnect(cfg: Config, before: seq<Event>) returns (es: seq<Event>)
    requires ValidConfig(cfg) && cfg.urlAccepted && CanRun(cfg, INITIAL, before)
    requires var s := Run(cfg, INITIAL, before); s.started && !s.isShuttingDown && !Connected(s)
    ensures Reconnects(cfg, Run(cfg, INITIAL, before), es) && |es| <= 14
  {
    var s := Run(cfg, INITIAL, before);
    ReachableIsSafe(cfg, before);
    if s.reconnectTimer.Some? {
      es := FromTimer(cfg, s);
    } else {
      var i :| 0 <= i < |s.tasks| && Rescues(s.tasks[i]);
      es := FromRescuer(cfg, s, i);
    }
  }

  // ---- Runs without new failures ----

  /** Nothing fails, nothing is lost and nobody shuts the service down. */
  predicate Smooth(e: Event) {
    match e
    case ConnectSettles(_, ok) => ok
    case ChannelSettles(_, ok) => ok
    case TopologySettles(_, ok) => ok
    case _ => !e.ConnectionEvent? && !e.ChannelDies? && !e.ModuleDestroy?
  }

  ghost predicate AllSmooth(es: seq<Event>) {
    forall e :: e in es ==> Smooth(e)
  }

  // ---- Shutdown ----

  function Work(tasks: seq<Task>): nat {
    if tasks == [] then 0 else Work(tasks[..|tasks| - 1]) + Rank(tasks[|tasks| - 1])
  }

  function WorkLeft(s: State): nat {
    Work(s.tasks) +
    (if s.shutdown.AwaitingChannelClose? then 2 else if s.shutdown.AwaitingConnectionClose? then 1 else 0)
  }

  function Effective(es: seq<Event>): nat {
    if es == [] then 0 else (if es[0].ConnectionEvent? || es[0].ChannelDies? then 0 else 1) + Effective(es[1..])
  }

  lemma {:induction false} WorkAfterMove(tasks: seq<Task>, i: nat, t: Task)
    requires i < |tasks|
    ensures Work(tasks[i := t]) == Work(tasks) - Rank(tasks[i]) + Rank(t)
  {
    var n := |tasks| - 1;
    if i == n {
      assert tasks[i := t][..n] == tasks[..n];
    } else {
      assert tasks[i := t][..n] == tasks[..n][i := t];
      WorkAfterMove(tasks[..n], i, t);
    }
  }

  lemma {:induction false} WorkIsBounded(tasks: seq<Task>)
    ensures Work(tasks) <= 12 * |tasks|
  {
    if tasks != [] {
      WorkIsBounded(tasks[..|tasks| - 1]);
    }
  }

  /** Whatever a task does next, it is nearer its end. */
  lemma TaskMovesOn(cfg: Config, s: State, e: Event)
    requires Enabled(s, e) && MovesTask(e)
    ensures Rank(Apply(cfg, s, e).tasks[e.task]) < Rank(s.tasks[e.task])
  {
    match e {
      case TopologySettles(_, _) =>
      case CatchRuns(_) =>
      case RescheduleRuns(_, _) =>
      case _ =>
    }
  }

  /** After shutdown a lost connection or channel changes no field and any other event uses up some of the work. */
  lemma ShutdownStep(cfg: Config, s: State, e: Event)
    requires TimersOk(s) && s.isShuttingDown && Enabled(s, e)
    ensures var s' := Apply(cfg, s, e);
            s'.isShuttingDown && |s'.tasks| == |s.tasks| &&
            if e.ConnectionEvent? then s' == s
            else if e.ChannelDies? then s' == s.(deadChannels := s'.deadChannels)
            else WorkLeft(s') < WorkLeft(s)
  {
    var s' := Apply(cfg, s, e);
    if MovesTask(e) {
      OtherTasksStay(cfg, s, e);
      TaskMovesOn(cfg, s, e);
      WorkAfterMove(s.tasks, e.task, s'.tasks[e.task]);
    }
  }

  /**
   * Once shutdown has begun no timer is pending and nothing new is ever
   * started, and only boundedly many events still do anything.
   */
  lemma {:induction false} ShutdownGoesQuiet(cfg: Config, s: State, es: seq<Event>)
    requires TimersOk(s) && s.isShuttingDown && CanRun(cfg, s, es)
    ensures var s' := Run(cfg, s, es);
            s'.isShuttingDown && s'.pendingTimers == {} && |s'.tasks| == |s.tasks| &&
            Effective(es) + WorkLeft(s') <= WorkLeft(s) <= 12 * |s.tasks| + 2
    decreases es
  {
    WorkIsBounded(s.tasks);
    if es != [] {
      TimersOkStep(cfg, s, es[0]);
      ShutdownStep(cfg, s, es[0]);
      ShutdownGoesQuiet(cfg, Apply(cfg, s, es[0]), es[1..]);
    }
  }

  // ---- A URL that is refused ----

  ghost predicate NeverConnecting(s: State) {
    && s.connection.None? && s.channel.None? && s.nextConnection == 0 && s.channelOwners == [] && s.listenedTo == {}
    && forall i :: 0 <= i < |s.tasks| ==>
         var t := s.tasks[i];
         t.Threw? || t.ClosingChannel? || t.ClosingConnection? || t.Closed? || t.Finished?
  }

  lemma NeverConnectingStep(cfg: Config, s: State, e: Event)
    requires !cfg.urlAccepted && NeverConnecting(s) && Enabled(s, e)
    ensures NeverConnecting(Apply(cfg, s, e))
  {
  }

  lemma {:induction false} NeverConnectingRun(cfg: Config, s: State, es: seq<Event>)
    requires !cfg.urlAccepted && NeverConnecting(s) && CanRun(cfg, s, es)
    ensures NeverConnecting(Run(cfg, s, es))
    decreases es
  {
    if es != [] {
      NeverConnectingStep(cfg, s, es[0]);
      NeverConnectingRun(cfg, Apply(cfg, s, es[0]), es[1..]);
    }
  }

  /**
   * With a missing URL, or an unencrypted one in production, the broker is
   * never asked for a connection; retries go on.
   */
  lemma RefusedUrlNeverConnects(cfg: Config, es: seq<Event>)
    requires ValidConfig(cfg) && !cfg.urlAccepted && CanRun(cfg, INITIAL, es)
    ensures var s := Run(cfg, INITIAL, es);
            && s.nextConnection == 0 && s.connection.None? && s.channel.None?
            && (s.started && !s.isShuttingDown ==> s.pendingTimers != {} || RescueInFlight(s))
  {
    NeverConnectingRun(cfg, INITIAL, es);
    ReachableIsSafe(cfg, es);
  }

  // ---- What a finished shutdown does not promise ----

  ghost predicate MayStillConnect(s: State) {
    exists i :: 0 <= i < |s.tasks| && (s.tasks[i].Connecting? || s.tasks[i].CreatingChannel?)
  }

  ghost predicate Disconnected(s: State) {
    s.connection.None? && s.channel.None?
  }

  lemma {:induction false} StaysDisconnected(cfg: Config, s: State, es: seq<Event>)
    requires TimersOk(s) && s.isShuttingDown && s.shutdown.ShutDown? && Disconnected(s) && !MayStillConnect(s)
    requires CanRun(cfg, s, es)
    ensures Disconnected(Run(cfg, s, es))
    decreases es
  {
    if es != [] {
      TimersOkStep(cfg, s, es[0]);
      var s' := Apply(cfg, s, es[0]);
      assert forall i :: 0 <= i < |s'.tasks| ==>
               s'.tasks[i] == s.tasks[i] || !(s'.tasks[i].Connecting? || s'.tasks[i].CreatingChannel?);
      StaysDisconnected(cfg, s', es[1..]);
    }
  }

  /**
   * A finished shutdown that left both fields null keeps them null in every
   * continuation exactly when no attempt was still connecting or creating its
   * channel: such an attempt stores what it gets without looking at the flag.
   */
  lemma DisconnectedForGoodIff(cfg: Config, s: State)
    requires TimersOk(s) && s.isShuttingDown && s.shutdown.ShutDown? && Disconnected(s)
    ensures (forall es :: CanRun(cfg, s, es) ==> Disconnected(Run(cfg, s, es))) <==> !MayStillConnect(s)
  {
    if MayStillConnect(s) {
      var i :| 0 <= i < |s.tasks| && (s.tasks[i].Connecting? || s.tasks[i].CreatingChannel?);
      var e := if s.tasks[i].Connecting? then ConnectSettles(i, true) else ChannelSettles(i, true);
      Prepend(cfg, s, e, []);
      assert !Disconnected(Run(cfg, s, [e] + []));
    } else {
      forall es | CanRun(cfg, s, es)
        ensures Disconnected(Run(cfg, s, es))
      {
        StaysDisconnected(cfg, s, es);
      }
    }
  }

  /**
   * Such a shutdown exists: it finishes while the first attempt is still
   * connecting, which then stores a connection.
   */
  lemma ShutdownOvertakesAttempt(cfg: Config) returns (es: seq<Event>)
    requires cfg.urlAccepted
    ensures CanRun(cfg, INITIAL, es) && RunsInOrder(cfg, INITIAL, es)
    ensures var s := Run(cfg, INITIAL, es);
            && s.isShuttingDown && s.shutdown.ShutDown? && Disconnected(s) && MayStillConnect(s)
            && s.tasks == [Connecting] && s.closedConnections == [] && s.closedByShutdown.None?
            && Enabled(s, ConnectSettles(0, true)) && Apply(cfg, s, ConnectSettles(0, true)).connection.Some?
  {
    var s1 := Apply(cfg, INITIAL, ModuleInit);
    var s2 := Apply(cfg, s1, ModuleDestroy);
    var s3 := Apply(cfg, s2, DestroyChannelSettles(true));
    Prepend(cfg, s3, DestroyConnectionSettles(true), []);
    es := [DestroyConnectionSettles(true)] + [];
    Prepend(cfg, s2, DestroyChannelSettles(true), es);
    es := [DestroyChannelSettles(true)] + es;
    Prepend(cfg, s1, ModuleDestroy, es);
    es := [ModuleDestroy] + es;
    Prepend(cfg, INITIAL, ModuleInit, es);
    es := [ModuleInit] + es;
    assert Run(cfg, INITIAL, es).tasks[0].Connecting?;
  }
}
