/** When the stored channel belongs to the stored connection, and what happens when it does not. */
module QueueChannels {
  import opened Options
  import opened Backoff
  import opened QueueMachine
  import opened QueueSafety
  import opened QueueProgress
  import opened QueueLeaks

  /** The stored channel was created on the stored connection. */
  predicate Paired(s: State) {
    Connected(s) ==> s.channel.value < |s.channelOwners| && s.channelOwners[s.channel.value] == s.connection.value
  }

  /** Neither half of a stored pair is overwritten without the other. */
  predicate KeepsPair(s: State, e: Event)
    requires Enabled(s, e)
  {
    match e
    case ConnectSettles(_, ok) => ok ==> s.channel.None?
    case ChannelSettles(i, ok) => ok && s.connection.Some? ==> s.connection.value == s.tasks[i].connection
    case _ => true
  }

  /** What gives both references up leaves a pair of nulls. */
  predicate GivesUp(s: State, e: Event) {
    e.CatchRuns? || (e.ConnectionEvent? && !s.isShuttingDown) || (e.DestroyConnectionSettles? && e.ok)
  }

  /**
   * After an event channel and connection belong together exactly when it
   * overwrote neither half alone and they did before, or it stored a channel
   * or gave both up.
   */
  lemma PairedAfterIff(cfg: Config, s: State, e: Event)
    requires OwnershipOk(s) && OwnersKnown(s) && Enabled(s, e)
    ensures Paired(Apply(cfg, s, e)) <==>
            KeepsPair(s, e) && (Paired(s) || GivesUp(s, e) || (e.ChannelSettles? && e.ok))
  {
    if !TouchesResources(e) {
      OtherEventsKeepResources(cfg, s, e);
    }
  }

  ghost predicate PairedThroughout(cfg: Config, s: State, es: seq<Event>)
    requires CanRun(cfg, s, es)
    decreases es
  {
    Paired(s) && (es == [] || PairedThroughout(cfg, Apply(cfg, s, es[0]), es[1..]))
  }

  ghost predicate NothingOverwritten(cfg: Config, s: State, es: seq<Event>)
    requires CanRun(cfg, s, es)
    decreases es
  {
    es == [] || (KeepsPair(s, es[0]) && NothingOverwritten(cfg, Apply(cfg, s, es[0]), es[1..]))
  }

  lemma {:induction false} PairedFromHereIff(cfg: Config, s: State, es: seq<Event>)
    requires ValidConfig(cfg) && Safe(cfg, s) && Paired(s) && CanRun(cfg, s, es)
    ensures PairedThroughout(cfg, s, es) <==> NothingOverwritten(cfg, s, es)
    decreases es
  {
    if es != [] {
      PairedAfterIff(cfg, s, es[0]);
      if KeepsPair(s, es[0]) {
        SafeStep(cfg, s, es[0]);
        PairedFromHereIff(cfg, Apply(cfg, s, es[0]), es[1..]);
      }
    }
  }

  /**
   * A run keeps channel and connection together at every point exactly when no
   * connect() of it completes over a stored channel and no createChannel()
   * beside the connection of another attempt.
   */
  lemma PairedThroughoutIff(cfg: Config, es: seq<Event>)
    requires ValidConfig(cfg) && CanRun(cfg, INITIAL, es)
    ensures PairedThroughout(cfg, INITIAL, es) <==> NothingOverwritten(cfg, INITIAL, es)
  {
    SafeRun(cfg, INITIAL, []);
    PairedFromHereIff(cfg, INITIAL, es);
  }

  /** While they belong together, the loss of the connection under the stored channel is noticed. */
  lemma ChannelLossIsNoticed(cfg: Config, es: seq<Event>)
    requires ValidConfig(cfg) && CanRun(cfg, INITIAL, es)
    requires Quiet(Run(cfg, INITIAL, es)) && Paired(Run(cfg, INITIAL, es))
    ensures var s := Run(cfg, INITIAL, es);
            && s.channel.Some? && s.channel.value < |s.channelOwners|
            && Enabled(s, ConnectionEvent(s.channelOwners[s.channel.value]))
  {
    LossIsNoticed(cfg, es);
  }

  // ---- A run that leaves them apart ----

  /** A closer ends and sets the timer. */
  lemma CloserEnds(cfg: Config, s: State, i: nat) returns (es: seq<Event>)
    requires At(s, i) && s.tasks[i].ClosingChannel?
    requires !s.isShuttingDown && s.reconnectTimer.None? && s.pendingTimers == {}
    ensures CanRun(cfg, s, es) && (OthersWait(s, i) ==> RunsInOrder(cfg, s, es))
    ensures var s' := Run(cfg, s, es);
            s' == s.(tasks := s.tasks[i := Finished], reconnectAttempt := s.reconnectAttempt + 1, delays := s'.delays,
                     reconnectTimer := Some(s.nextTimer), pendingTimers := {s.nextTimer}, nextTimer := s.nextTimer + 1)
  {
    var s1 := Apply(cfg, s, ChannelCloseSettles(i));
    var s2 := Apply(cfg, s1, ConnectionCloseSettles(i));
    var last := RescheduleRuns(i, 0.0);
    Prepend(cfg, s2, last, []);
    Prepend(cfg, s1, ConnectionCloseSettles(i), [last] + []);
    Prepend(cfg, s, ChannelCloseSettles(i), [ConnectionCloseSettles(i)] + ([last] + []));
    es := [ChannelCloseSettles(i)] + ([ConnectionCloseSettles(i)] + ([last] + []));
    assert s2.tasks[i := Finished] == s.tasks[i := Finished];
  }

  /** Its timer fires, and another attempt is under way. */
  lemma CloserRetries(cfg: Config, s: State, i: nat) returns (es: seq<Event>)
    requires cfg.urlAccepted && At(s, i) && s.tasks[i].ClosingChannel?
    requires !s.isShuttingDown && s.reconnectTimer.None? && s.pendingTimers == {}
    ensures CanRun(cfg, s, es) && (OthersWait(s, i) ==> RunsInOrder(cfg, s, es))
    ensures var s' := Run(cfg, s, es);
            s' == s.(tasks := s.tasks[i := Finished] + [Connecting], reconnectAttempt := s.reconnectAttempt + 1,
                     delays := s'.delays, nextTimer := s'.nextTimer)
  {
    var ends := CloserEnds(cfg, s, i);
    var s1 := Run(cfg, s, ends);
    var fires := TimerFires(s.nextTimer);
    Prepend(cfg, s1, fires, []);
    RunsCompose(cfg, s, ends, [fires] + []);
    es := ends + ([fires] + []);
    assert s1.pendingTimers - {s.nextTimer} == {};
  }

  /**
   * The error and the close event of one lost connection start two closers, and
   * those two attempts at once when the first close() outlasts the first delay.
   * The second closer has nothing to close and is through at once.
   */
  lemma TwoAttempts(cfg: Config) returns (es: seq<Event>)
    requires cfg.urlAccepted
    ensures CanRun(cfg, INITIAL, es) && RunsInOrder(cfg, INITIAL, es)
    ensures var s := Run(cfg, INITIAL, es);
            s == INITIAL.(started := true, tasks := [Finished, Finished, Finished, Connecting, Connecting],
                          listenedTo := {0}, nextConnection := 1, channelOwners := [0],
                          closedConnections := [0], closedChannels := [0],
                          reconnectAttempt := s.reconnectAttempt, delays := s.delays, nextTimer := s.nextTimer)
  {
    es := FirstSetup(cfg);
    var lost := [ConnectionEvent(0), ConnectionEvent(0)];
    RunsCompose(cfg, INITIAL, es, lost);
    es := es + lost;
    var s3 := Run(cfg, INITIAL, es);
    assert s3.tasks == [Finished, ClosingChannel, ClosingChannel];
    var first := CloserRetries(cfg, s3, 2);
    RunsCompose(cfg, INITIAL, es, first);
    es := es + first;
    var s4 := Run(cfg, INITIAL, es);
    var second := CloserRetries(cfg, s4, 1);
    RunsCompose(cfg, INITIAL, es, second);
    es := es + second;
  }

  /** An attempt whose connection the broker has opened gets its channel and completes its setup. */
  lemma ChannelAndSetup(cfg: Config, s: State, i: nat) returns (es: seq<Event>)
    requires At(s, i) && s.tasks[i].CreatingChannel? && s.connection.Some?
    ensures CanRun(cfg, s, es) && (OthersWait(s, i) ==> RunsInOrder(cfg, s, es))
    ensures Run(cfg, s, es)
         == s.(tasks := s.tasks[i := Finished], reconnectAttempt := 0, delays := [],
               channel := Some(|s.channelOwners|), channelOwners := s.channelOwners + [s.tasks[i].connection],
               listenedTo := s.listenedTo + {s.connection.value})
  {
    var s1 := Apply(cfg, s, ChannelSettles(i, true));
    var rest := FinishSetup(cfg, s1, i);
    Prepend(cfg, s, ChannelSettles(i, true), rest);
    es := [ChannelSettles(i, true)] + rest;
    assert s1.tasks[i := Finished] == s.tasks[i := Finished];
  }

  lemma BothConnect(cfg: Config, s: State) returns (es: seq<Event>)
    requires s.tasks == [Finished, Finished, Finished, Connecting, Connecting] && s.nextConnection == 1
    ensures CanRun(cfg, s, es) && RunsInOrder(cfg, s, es)
    ensures Run(cfg, s, es)
         == s.(tasks := [Finished, Finished, Finished, CreatingChannel(1), CreatingChannel(2)],
               connection := Some(2), nextConnection := 3)
  {
    var s1 := Apply(cfg, s, ConnectSettles(3, true));
    Prepend(cfg, s1, ConnectSettles(4, true), []);
    Prepend(cfg, s, ConnectSettles(3, true), [ConnectSettles(4, true)] + []);
    es := [ConnectSettles(3, true)] + ([ConnectSettles(4, true)] + []);
  }

  /**
   * Two attempts at once can leave a quiet service, connected by its own
   * account, whose channel is on a connection that nobody listens to and that
   * nobody will ever close.
   */
  lemma OverlapUnpairs(cfg: Config) returns (es: seq<Event>)
    requires cfg.urlAccepted
    ensures CanRun(cfg, INITIAL, es) && RunsInOrder(cfg, INITIAL, es)
    ensures var s := Run(cfg, INITIAL, es);
            && Quiet(s) && Connected(s) && !Paired(s) && !NothingLeaked(s)
            && s.channel.value < |s.channelOwners|
            && var owner := s.channelOwners[s.channel.value];
               owner !in s.listenedTo && owner !in s.closedConnections && s.connection != Some(owner)
  {
    es := TwoAttempts(cfg);
    var connects := BothConnect(cfg, Run(cfg, INITIAL, es));
    RunsCompose(cfg, INITIAL, es, connects);
    es := es + connects;
    var later := ChannelAndSetup(cfg, Run(cfg, INITIAL, es), 4);
    RunsCompose(cfg, INITIAL, es, later);
    es := es + later;
    var earlier := ChannelAndSetup(cfg, Run(cfg, INITIAL, es), 3);
    RunsCompose(cfg, INITIAL, es, earlier);
    es := es + earlier;
    var s := Run(cfg, INITIAL, es);
    Forgotten(s.connection, s.closedConnections, s.nextConnection, 1);
  }
}
