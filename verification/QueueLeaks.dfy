/** Which connections and channels are ever closed, up to a shutdown and by it. */
module QueueLeaks {
  import opened Options
  import opened Backoff
  import opened QueueMachine
  import opened QueueSafety
  import opened QueueProgress

  // ---- What overwriting leaks ----

  /** Every id handed out so far is in use or was handed to a closer. */
  ghost predicate Accounted(current: Option<nat>, closed: seq<nat>, next: nat) {
    forall id: nat :: id < next ==> current == Some(id) || id in closed
  }

  ghost predicate NothingLeaked(s: State) {
    && Accounted(s.connection, s.closedConnections, s.nextConnection)
    && Accounted(s.channel, s.closedChannels, |s.channelOwners|)
  }

  /** A connection or a channel arrives where one is stored already. */
  predicate Overwrites(s: State, e: Event) {
    (e.ConnectSettles? && e.ok && s.connection.Some?) || (e.ChannelSettles? && e.ok && s.channel.Some?)
  }

  lemma Forgotten(current: Option<nat>, closed: seq<nat>, next: nat, id: nat)
    requires id < next && current != Some(id) && id !in closed
    ensures !Accounted(current, closed, next)
  {
  }

  lemma HandedOverIsAccounted(current: Option<nat>, closed: seq<nat>, next: nat)
    ensures Accounted(None, closed + Listed(current), next) <==> Accounted(current, closed, next)
  {
    forall id: nat | id < next
      ensures id in closed + Listed(current) <==> current == Some(id) || id in closed
    {
    }
  }

  lemma ReplacedIsLeaked(current: Option<nat>, closed: seq<nat>, next: nat)
    requires Owned(current, closed, next)
    ensures Accounted(Some(next), closed, next + 1) <==> current.None? && Accounted(current, closed, next)
  {
    if current.None? && Accounted(Some(next), closed, next + 1) {
      forall id: nat | id < next
        ensures id in closed
      {
        assert id < next + 1;
      }
    }
  }

  lemma LeakStep(cfg: Config, s: State, e: Event)
    requires OwnershipOk(s) && Enabled(s, e) && !e.DestroyConnectionSettles?
    ensures NothingLeaked(Apply(cfg, s, e)) <==> NothingLeaked(s) && !Overwrites(s, e)
  {
    match e {
      case CatchRuns(_) =>
        HandedOverIsAccounted(s.connection, s.closedConnections, s.nextConnection);
        HandedOverIsAccounted(s.channel, s.closedChannels, |s.channelOwners|);
      case ConnectionEvent(_) =>
        HandedOverIsAccounted(s.connection, s.closedConnections, s.nextConnection);
        HandedOverIsAccounted(s.channel, s.closedChannels, |s.channelOwners|);
      case ConnectSettles(_, _) =>
        ReplacedIsLeaked(s.connection, s.closedConnections, s.nextConnection);
      case ChannelSettles(_, _) =>
        ReplacedIsLeaked(s.channel, s.closedChannels, |s.channelOwners|);
      case _ =>
        OtherEventsKeepResources(cfg, s, e);
    }
  }

  ghost predicate NeverOverwrites(cfg: Config, s: State, es: seq<Event>)
    requires CanRun(cfg, s, es)
    decreases es
  {
    es == [] || (!Overwrites(s, es[0]) && NeverOverwrites(cfg, Apply(cfg, s, es[0]), es[1..]))
  }

  lemma {:induction false} LeakRun(cfg: Config, s: State, es: seq<Event>)
    requires OwnershipOk(s) && CanRun(cfg, s, es) && forall e :: e in es ==> !e.DestroyConnectionSettles?
    ensures NothingLeaked(Run(cfg, s, es)) <==> NothingLeaked(s) && NeverOverwrites(cfg, s, es)
    decreases es
  {
    if es != [] {
      assert es[0] in es && forall e :: e in es[1..] ==> e in es;
      OwnershipOkStep(cfg, s, es[0]);
      LeakStep(cfg, s, es[0]);
      LeakRun(cfg, Apply(cfg, s, es[0]), es[1..]);
    }
  }

  /**
   * Until a shutdown closes what is left, every connection and channel the
   * broker ever handed out is in use or was handed to exactly one closer if
   * and only if none arrived over another: the code closes what it stores and
   * forgets what it overwrites.
   */
  lemma NothingLeakedIff(cfg: Config, es: seq<Event>)
    requires CanRun(cfg, INITIAL, es) && forall e :: e in es ==> !e.DestroyConnectionSettles?
    ensures NothingLeaked(Run(cfg, INITIAL, es)) <==> NeverOverwrites(cfg, INITIAL, es)
  {
    LeakRun(cfg, INITIAL, es);
  }

  // ---- What a shutdown leaves open ----

  /** close() was called on the connection, by a closer or by the shutdown itself. */
  predicate WasClosed(s: State, id: nat) {
    id in s.closedConnections || s.closedByShutdown == Some(id)
  }

  /** The stored connection is one that nobody has closed. */
  predicate HoldsOpen(s: State) {
    s.connection.Some? && s.connection != s.closedByShutdown
  }

  /** The event forgets such a connection: another arrives in its place, or a clean shutdown nulls the field. */
  predicate Forgets(s: State, e: Event) {
    HoldsOpen(s) && ((e.ConnectSettles? && e.ok) || (e.DestroyConnectionSettles? && e.ok))
  }

  ghost predicate StoredOrClosed(s: State) {
    forall id: nat :: id < s.nextConnection ==> s.connection == Some(id) || WasClosed(s, id)
  }

  ghost predicate AllClosed(s: State) {
    forall id: nat :: id < s.nextConnection ==> WasClosed(s, id)
  }

  /** The shutdown sets out to close one connection once, and one that was handed out. */
  ghost predicate ShutdownKnown(s: State) {
    && (s.closedByShutdown.Some? ==> s.closedByShutdown.value < s.nextConnection)
    && (s.shutdown.NotRequested? || s.shutdown.AwaitingChannelClose? ==> s.closedByShutdown.None?)
  }

  lemma ShutdownKnownStep(cfg: Config, s: State, e: Event)
    requires ShutdownKnown(s) && OwnershipOk(s) && Enabled(s, e)
    ensures ShutdownKnown(Apply(cfg, s, e))
  {
  }

  /** Other events close what they give up, and close nothing else. */
  lemma OthersForgetNothing(cfg: Config, s: State, e: Event)
    requires Enabled(s, e) && ShutdownKnown(s) && !e.ConnectSettles? && !e.DestroyConnectionSettles?
    ensures var s' := Apply(cfg, s, e);
            && s'.nextConnection == s.nextConnection
            && forall id: nat ::
                 s'.connection == Some(id) || WasClosed(s', id) <==> s.connection == Some(id) || WasClosed(s, id)
  {
    if !TouchesResources(e) {
      OtherEventsKeepResources(cfg, s, e);
    }
  }

  lemma ForgettingStep(cfg: Config, s: State, e: Event)
    requires Enabled(s, e) && ShutdownKnown(s) && OwnershipOk(s)
    ensures StoredOrClosed(Apply(cfg, s, e)) <==> StoredOrClosed(s) && !Forgets(s, e)
  {
    var s' := Apply(cfg, s, e);
    if (e.ConnectSettles? || e.DestroyConnectionSettles?) && e.ok {
      assert forall id: nat :: WasClosed(s', id) <==> WasClosed(s, id);
      if HoldsOpen(s) {
        assert s.connection.value < s'.nextConnection && !WasClosed(s', s.connection.value);
      } else {
        assert forall id: nat :: id < s.nextConnection ==> id < s'.nextConnection && s'.connection != Some(id);
      }
    } else if !e.ConnectSettles? && !e.DestroyConnectionSettles? {
      OthersForgetNothing(cfg, s, e);
    }
  }

  ghost predicate NeverForgets(cfg: Config, s: State, es: seq<Event>)
    requires CanRun(cfg, s, es)
    decreases es
  {
    es == [] || (!Forgets(s, es[0]) && NeverForgets(cfg, Apply(cfg, s, es[0]), es[1..]))
  }

  lemma {:induction false} ForgettingRun(cfg: Config, s: State, es: seq<Event>)
    requires OwnershipOk(s) && ShutdownKnown(s) && CanRun(cfg, s, es)
    ensures StoredOrClosed(Run(cfg, s, es)) <==> StoredOrClosed(s) && NeverForgets(cfg, s, es)
    decreases es
  {
    if es != [] {
      OwnershipOkStep(cfg, s, es[0]);
      ShutdownKnownStep(cfg, s, es[0]);
      ForgettingStep(cfg, s, es[0]);
      ForgettingRun(cfg, Apply(cfg, s, es[0]), es[1..]);
    }
  }

  /**
   * At the end of any run, in particular once a shutdown is over and no task
   * is left, every connection the broker handed out has been closed if and
   * only if none that was still open was ever overwritten or nulled, and none
   * is stored now.
   */
  lemma AllClosedIff(cfg: Config, es: seq<Event>)
    requires CanRun(cfg, INITIAL, es)
    ensures AllClosed(Run(cfg, INITIAL, es)) <==>
            NeverForgets(cfg, INITIAL, es) && !HoldsOpen(Run(cfg, INITIAL, es))
  {
    ForgettingRun(cfg, INITIAL, es);
    OwnershipRun(cfg, INITIAL, es);
    var s := Run(cfg, INITIAL, es);
    if HoldsOpen(s) {
      assert !WasClosed(s, s.connection.value);
    }
  }

  ghost predicate Over(s: State) {
    s.shutdown.ShutDown? && forall i :: 0 <= i < |s.tasks| ==> s.tasks[i].Finished?
  }

  /** With the shutdown over and no task left that is final: nothing is closed, or changed at all, any more. */
  lemma {:induction false} OverIsFinal(cfg: Config, s: State, es: seq<Event>)
    requires TimersOk(s) && Over(s) && CanRun(cfg, s, es)
    ensures Run(cfg, s, es) == s.(deadChannels := Run(cfg, s, es).deadChannels)
    decreases es
  {
    if es != [] {
      assert Apply(cfg, s, es[0]) == s.(deadChannels := Apply(cfg, s, es[0]).deadChannels);
      OverIsFinal(cfg, Apply(cfg, s, es[0]), es[1..]);
    }
  }

  /** A shutdown closes the channel it finds stored, and then the connection that is stored by then. */
  lemma ShutdownCloses(cfg: Config, s: State)
    ensures Enabled(s, ModuleDestroy) && s.channel.Some? ==>
              Apply(cfg, s, ModuleDestroy).channelClosedByShutdown == s.channel
    ensures Enabled(s, DestroyChannelSettles(true)) && s.connection.Some? ==>
              WasClosed(Apply(cfg, s, DestroyChannelSettles(true)), s.connection.value)
  {
  }

  /** A close that fails ends it at once, and whatever is stored stays stored. */
  lemma ShutdownStopsAtFailure(cfg: Config, s: State, e: Event)
    requires Enabled(s, e) && (e == DestroyChannelSettles(false) || e == DestroyConnectionSettles(false))
    ensures var s' := Apply(cfg, s, e);
            && s'.shutdown.ShutDown? && s'.connection == s.connection && s'.channel == s.channel
            && s'.closedByShutdown == s.closedByShutdown && s'.tasks == s.tasks
  {
  }

  /**
   * The ordinary shutdown of a quiet service that has forgotten nothing: both
   * closes work, and every connection and channel there ever was is closed.
   */
  lemma CleanShutdownClosesAll(cfg: Config, before: seq<Event>)
    requires ValidConfig(cfg) && CanRun(cfg, INITIAL, before)
    requires Quiet(Run(cfg, INITIAL, before)) && NothingLeaked(Run(cfg, INITIAL, before))
    ensures var s := Run(cfg, INITIAL, before);
            && Enabled(s, ModuleDestroy)
            && var s1 := Apply(cfg, s, ModuleDestroy);
            && Enabled(s1, DestroyChannelSettles(true))
            && var s2 := Apply(cfg, s1, DestroyChannelSettles(true));
            && Enabled(s2, DestroyConnectionSettles(true))
            && var s3 := Apply(cfg, s2, DestroyConnectionSettles(true));
            && Over(s3) && AllClosed(s3) && s3.connection.None? && s3.channel.None? && s3.pendingTimers == {}
            && forall id: nat :: id < |s3.channelOwners| ==>
                 id in s3.closedChannels || s3.channelClosedByShutdown == Some(id)
  {
    ReachableIsSafe(cfg, before);
    var s := Run(cfg, INITIAL, before);
    var s1 := Apply(cfg, s, ModuleDestroy);
    ShutdownCloses(cfg, s);
    ShutdownCloses(cfg, s1);
    assert forall id: nat :: id < s.nextConnection ==> s.connection == Some(id) || id in s.closedConnections;
  }

  /**
   * A shutdown that overtakes the first attempt: the connection is stored
   * after the cleanup and stays open for good.
   */
  lemma ShutdownLeavesOpen(cfg: Config) returns (es: seq<Event>)
    requires cfg.urlAccepted
    ensures CanRun(cfg, INITIAL, es) && RunsInOrder(cfg, INITIAL, es)
    ensures Over(Run(cfg, INITIAL, es)) && HoldsOpen(Run(cfg, INITIAL, es)) && !AllClosed(Run(cfg, INITIAL, es))
  {
    es := ShutdownOvertakesAttempt(cfg);
    var s := Run(cfg, INITIAL, es);
    var s1 := Apply(cfg, s, ConnectSettles(0, true));
    var s2 := Apply(cfg, s1, ChannelSettles(0, true));
    var rest := FinishSetup(cfg, s2, 0);
    Prepend(cfg, s1, ChannelSettles(0, true), rest);
    rest := [ChannelSettles(0, true)] + rest;
    Prepend(cfg, s, ConnectSettles(0, true), rest);
    rest := [ConnectSettles(0, true)] + rest;
    RunsCompose(cfg, INITIAL, es, rest);
    es := es + rest;
    AllClosedIff(cfg, es);
  }

  lemma {:induction false} OwnershipRun(cfg: Config, s: State, es: seq<Event>)
    requires OwnershipOk(s) && CanRun(cfg, s, es)
    ensures OwnershipOk(Run(cfg, s, es))
    decreases es
  {
    if es != [] {
      OwnershipOkStep(cfg, s, es[0]);
      OwnershipRun(cfg, Apply(cfg, s, es[0]), es[1..]);
    }
  }
}
