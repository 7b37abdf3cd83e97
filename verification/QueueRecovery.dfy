/** What every run without new failures comes to, and what no run notices. */
module QueueRecovery {
  import opened Backoff
  import opened QueueMachine
  import opened QueueSafety
  import opened QueueProgress

  // ---- One task alone always recovers ----

  /** Before a shutdown, task i is the only one unfinished, or a timer is pending and none is. */
  ghost predicate Alone(s: State, i: nat) {
    && s.started && !s.isShuttingDown
    && (forall j :: 0 <= j < |s.tasks| && j != i ==> s.tasks[j].Finished?)
    && (s.reconnectTimer.Some? && At(s, i) ==> s.tasks[i].Finished?)
  }

  /** How many events task i, or the timer, is from a completed setup. */
  function Distance(s: State, i: nat): nat {
    if s.reconnectTimer.Some? then 9
    else if !At(s, i) then 0
    else
      match s.tasks[i]
      case Connecting => 8
      case CreatingChannel(_) => if s.connection.Some? then 7 else 14
      case ConnectReturned => 6
      case Topology(call) => if call <= 3 then 5 - call else 2
      case SetupReturned => 1
      case Threw => 13
      case ClosingChannel => 12
      case ClosingConnection => 11
      case Closed => 10
      case Finished => 0
  }

  lemma SetupIsConnected(s: State, i: nat)
    requires NotStranded(s) && Alone(s, i) && At(s, i) && !s.tasks[i].Finished? && !Rescues(s.tasks[i])
    ensures Connected(s)
  {
  }

  /** A task that moves alone comes one event nearer, with nothing else to disturb it. */
  lemma AloneTaskStep(cfg: Config, s: State, e: Event, i: nat)
    requires NotStranded(s) && TimersOk(s) && Alone(s, i) && Enabled(s, e) && Smooth(e) && MovesTask(e)
    ensures var s' := Apply(cfg, s, e);
            && Alone(s', i) && Distance(s', i) + 1 == Distance(s, i)
            && (Distance(s', i) == 0 ==> s'.reconnectAttempt == 0)
  {
    OtherTasksStay(cfg, s, e);
    if !Rescues(s.tasks[i]) {
      SetupIsConnected(s, i);
    }
  }

  lemma AloneTimerStep(cfg: Config, s: State, e: Event, i: nat)
    requires cfg.urlAccepted && TimersOk(s) && Alone(s, i) && Enabled(s, e) && Smooth(e) && !MovesTask(e)
    ensures e.TimerFires? && Distance(s, i) == 9
    ensures var s' := Apply(cfg, s, e);
            Alone(s', |s.tasks|) && Distance(s', |s.tasks|) == 8
  {
  }

  /** There is always such an event until the setup is complete. */
  lemma AloneCanStep(s: State, i: nat) returns (e: Event)
    requires TimersOk(s) && Alone(s, i) && Distance(s, i) > 0
    ensures Enabled(s, e) && Smooth(e)
  {
    if s.reconnectTimer.Some? {
      e := TimerFires(s.reconnectTimer.value);
    } else {
      e := match s.tasks[i]
        case Connecting => ConnectSettles(i, true)
        case CreatingChannel(_) => ChannelSettles(i, true)
        case ConnectReturned => SetupStarts(i)
        case Topology(_) => TopologySettles(i, true)
        case SetupReturned => SetupEnds(i)
        case Threw => CatchRuns(i)
        case ClosingChannel => ChannelCloseSettles(i)
        case ClosingConnection => ConnectionCloseSettles(i)
        case _ => RescheduleRuns(i, 0.0);
    }
  }

  lemma AloneIsDone(cfg: Config, s: State, i: nat)
    requires Safe(cfg, s) && Alone(s, i) && Distance(s, i) == 0
    ensures Quiet(s) && Connected(s)
  {
    assert forall j :: 0 <= j < |s.tasks| ==> s.tasks[j].Finished?;
  }

  lemma {:induction false} AloneRun(cfg: Config, s: State, es: seq<Event>, i: nat) returns (k: nat)
    requires ValidConfig(cfg) && cfg.urlAccepted && Safe(cfg, s) && Alone(s, i)
    requires CanRun(cfg, s, es) && AllSmooth(es)
    ensures var s' := Run(cfg, s, es);
            && Safe(cfg, s') && Alone(s', k) && |es| + Distance(s', k) == Distance(s, i)
            && (es != [] && Distance(s', k) == 0 ==> s'.reconnectAttempt == 0)
    decreases es
  {
    if es == [] {
      k := i;
    } else {
      assert es[0] in es && forall e :: e in es[1..] ==> e in es;
      var s1 := Apply(cfg, s, es[0]);
      SafeStep(cfg, s, es[0]);
      if MovesTask(es[0]) {
        AloneTaskStep(cfg, s, es[0], i);
        k := AloneRun(cfg, s1, es[1..], i);
      } else {
        AloneTimerStep(cfg, s, es[0], i);
        k := AloneRun(cfg, s1, es[1..], |s.tasks|);
      }
      if es[1..] == [] {
        assert Run(cfg, s1, es[1..]) == s1;
      }
    }
  }

  /**
   * Whatever was reached before, if one task or one timer is all there is, no
   * run without new failures is longer than its distance, at most fourteen
   * events, and every such run either can go on or has reconnected, with its
   * topology declared and the backoff reset.
   */
  lemma AloneAlwaysRecovers(cfg: Config, before: seq<Event>, i: nat, es: seq<Event>)
    requires ValidConfig(cfg) && cfg.urlAccepted && CanRun(cfg, INITIAL, before)
    requires Alone(Run(cfg, INITIAL, before), i)
    requires CanRun(cfg, Run(cfg, INITIAL, before), es) && AllSmooth(es)
    ensures var s := Run(cfg, INITIAL, before);
            && |es| <= Distance(s, i) <= 14
            && var s' := Run(cfg, s, es);
               if |es| < Distance(s, i) then exists e :: Enabled(s', e) && Smooth(e)
               else Quiet(s') && Connected(s') && (es != [] ==> s'.reconnectAttempt == 0)
  {
    var s := Run(cfg, INITIAL, before);
    ReachableIsSafe(cfg, before);
    var k := AloneRun(cfg, s, es, i);
    if Distance(Run(cfg, s, es), k) > 0 {
      var e := AloneCanStep(Run(cfg, s, es), k);
    } else {
      AloneIsDone(cfg, Run(cfg, s, es), k);
    }
  }

  // ---- However many tasks there are, those in order recover ----

  function Total(f: Task -> nat, tasks: seq<Task>): nat {
    if tasks == [] then 0 else Total(f, tasks[..|tasks| - 1]) + f(tasks[|tasks| - 1])
  }

  lemma {:induction false} TotalAfterMove(f: Task -> nat, tasks: seq<Task>, i: nat, t: Task)
    requires i < |tasks|
    ensures Total(f, tasks[i := t]) == Total(f, tasks) - f(tasks[i]) + f(t)
  {
    var n := |tasks| - 1;
    if i == n {
      assert tasks[i := t][..n] == tasks[..n];
    } else {
      assert tasks[i := t][..n] == tasks[..n][i := t];
      TotalAfterMove(f, tasks[..n], i, t);
    }
  }

  lemma TotalAfterStart(f: Task -> nat, tasks: seq<Task>, t: Task)
    ensures Total(f, tasks + [t]) == Total(f, tasks) + f(t)
  {
    assert (tasks + [t])[..|tasks|] == tasks;
  }

  lemma {:induction false} TotalIsBounded(f: Task -> nat, g: Task -> nat, k: nat, tasks: seq<Task>)
    requires forall t :: f(t) <= k * g(t)
    ensures Total(f, tasks) <= k * Total(g, tasks)
  {
    if tasks != [] {
      TotalIsBounded(f, g, k, tasks[..|tasks| - 1]);
    }
  }

  lemma {:induction false} NoneInTotal(f: Task -> nat, tasks: seq<Task>)
    requires forall i :: 0 <= i < |tasks| ==> f(tasks[i]) == 0
    ensures Total(f, tasks) == 0
  {
    if tasks != [] {
      NoneInTotal(f, tasks[..|tasks| - 1]);
    }
  }

  lemma {:induction false} OneInTotal(f: Task -> nat, tasks: seq<Task>, i: nat)
    requires i < |tasks|
    ensures f(tasks[i]) <= Total(f, tasks)
  {
    if i < |tasks| - 1 {
      OneInTotal(f, tasks[..|tasks| - 1], i);
    }
  }

  function Declares(t: Task): nat {
    if t.ConnectReturned? || t.Topology? then 1 else 0
  }

  function HasThrown(t: Task): nat {
    if t.Threw? then 1 else 0
  }

  function Creates(t: Task): nat {
    if t.CreatingChannel? then 1 else 0
  }

  function Unfinished(t: Task): nat {
    if t.Finished? then 0 else 1
  }

  /** The way to a completed setup, by way of a timer for a closer, if the task does not throw again. */
  function StepsLeft(t: Task): nat {
    match t
    case Connecting => 8
    case CreatingChannel(_) => 7
    case ConnectReturned => 6
    case Topology(call) => if call <= 3 then 5 - call else 2
    case SetupReturned => 1
    case Threw => 13
    case ClosingChannel => 12
    case ClosingConnection => 11
    case Closed => 10
    case Finished => 0
  }

  function Units(s: State): nat {
    Total(Unfinished, s.tasks) + (if s.reconnectTimer.Some? then 1 else 0)
  }

  function Steps(s: State): nat {
    Total(StepsLeft, s.tasks) + (if s.reconnectTimer.Some? then 9 else 0)
  }

  /** Both fields are set and no catch block is about to null them. */
  predicate Calm(s: State) {
    Connected(s) && Total(HasThrown, s.tasks) == 0
  }

  /** Attempts that may find their channel gone, and catch blocks that may take a connection away. */
  function Declaring(s: State): nat {
    2 * Total(Declares, s.tasks) + (if s.connection.Some? then Total(HasThrown, s.tasks) else 0)
  }

  /** Attempts that will find their connection gone. */
  function Bereft(s: State): nat {
    if s.connection.None? then Total(Creates, s.tasks) else 0
  }

  /** From s to s' something has got nearer: first calm, then less to throw, then fewer steps. */
  predicate Nearer(s: State, s': State) {
    && Units(s') <= Units(s)
    && if Calm(s) then Calm(s') && Steps(s') < Steps(s)
       else Calm(s') || Declaring(s') < Declaring(s)
            || (Declaring(s') == Declaring(s) && Bereft(s') < Bereft(s))
            || (Declaring(s') == Declaring(s) && Bereft(s') == Bereft(s) && Steps(s') < Steps(s))
  }

  /** The totals after task i has moved on to t. */
  lemma TotalsAfterMove(tasks: seq<Task>, i: nat, t: Task)
    requires i < |tasks|
    ensures Total(Declares, tasks[i := t]) == Total(Declares, tasks) - Declares(tasks[i]) + Declares(t)
    ensures Total(HasThrown, tasks[i := t]) == Total(HasThrown, tasks) - HasThrown(tasks[i]) + HasThrown(t)
    ensures Total(Creates, tasks[i := t]) == Total(Creates, tasks) - Creates(tasks[i]) + Creates(t)
    ensures Total(Unfinished, tasks[i := t]) == Total(Unfinished, tasks) - Unfinished(tasks[i]) + Unfinished(t)
    ensures Total(StepsLeft, tasks[i := t]) == Total(StepsLeft, tasks) - StepsLeft(tasks[i]) + StepsLeft(t)
    ensures HasThrown(tasks[i]) <= Total(HasThrown, tasks)
  {
    TotalAfterMove(Declares, tasks, i, t);
    TotalAfterMove(HasThrown, tasks, i, t);
    TotalAfterMove(Creates, tasks, i, t);
    TotalAfterMove(Unfinished, tasks, i, t);
    TotalAfterMove(StepsLeft, tasks, i, t);
    OneInTotal(HasThrown, tasks, i);
  }

  lemma NobodyHasThrown(s: State, e: Event)
    requires InOrder(s, e) && !(e.SetupStarts? || e.SetupEnds? || e.CatchRuns? || e.RescheduleRuns?)
    ensures Total(HasThrown, s.tasks) == 0
  {
    NoneInTotal(HasThrown, s.tasks);
  }

  lemma ConnectIsNearer(cfg: Config, s: State, i: nat)
    requires Enabled(s, ConnectSettles(i, true)) && Total(HasThrown, s.tasks) == 0
    ensures Nearer(s, Apply(cfg, s, ConnectSettles(i, true)))
  {
    TotalsAfterMove(s.tasks, i, CreatingChannel(s.nextConnection));
  }

  lemma ChannelIsNearer(cfg: Config, s: State, i: nat)
    requires Enabled(s, ChannelSettles(i, true)) && Total(HasThrown, s.tasks) == 0
    ensures Nearer(s, Apply(cfg, s, ChannelSettles(i, true)))
  {
    TotalsAfterMove(s.tasks, i, if s.connection.None? then Threw else ConnectReturned);
  }

  /** An attempt in its setup goes on, or throws because its channel is gone. */
  lemma DeclaringIsNearer(s: State, i: nat, next: Task)
    requires At(s, i) && Declares(s.tasks[i]) == 1 && Creates(next) == 0
    requires if next.Threw? then s.channel.None? else StepsLeft(next) < StepsLeft(s.tasks[i])
    ensures Nearer(s, Move(s, i, next))
  {
    TotalsAfterMove(s.tasks, i, next);
  }

  lemma DeclarationIsNearer(cfg: Config, s: State, i: nat)
    requires Enabled(s, TopologySettles(i, true))
    ensures Nearer(s, Apply(cfg, s, TopologySettles(i, true)))
  {
    var call := s.tasks[i].call;
    DeclaringIsNearer(s, i, if call >= 3 then SetupReturned else if s.channel.None? then Threw else Topology(call + 1));
  }

  lemma SetupStartIsNearer(cfg: Config, s: State, i: nat)
    requires Enabled(s, SetupStarts(i))
    ensures Nearer(s, Apply(cfg, s, SetupStarts(i)))
  {
    DeclaringIsNearer(s, i, if s.channel.None? then Threw else Topology(0));
  }

  lemma SetupEndIsNearer(cfg: Config, s: State, i: nat)
    requires Enabled(s, SetupEnds(i))
    ensures Nearer(s, Apply(cfg, s, SetupEnds(i)))
  {
    TotalsAfterMove(s.tasks, i, Finished);
  }

  lemma CatchIsNearer(cfg: Config, s: State, i: nat)
    requires Enabled(s, CatchRuns(i))
    ensures Nearer(s, Apply(cfg, s, CatchRuns(i)))
  {
    TotalsAfterMove(s.tasks, i, ClosingChannel);
  }

  lemma CloseIsNearer(cfg: Config, s: State, i: nat, e: Event)
    requires Enabled(s, e) && (e == ChannelCloseSettles(i) || e == ConnectionCloseSettles(i))
    ensures Nearer(s, Apply(cfg, s, e))
  {
    TotalsAfterMove(s.tasks, i, if e.ChannelCloseSettles? then ClosingConnection else Closed);
  }

  lemma RescheduleIsNearer(cfg: Config, s: State, i: nat, draw: real)
    requires Enabled(s, RescheduleRuns(i, draw)) && !s.isShuttingDown
    ensures Nearer(s, Apply(cfg, s, RescheduleRuns(i, draw)))
  {
    TotalsAfterMove(s.tasks, i, Finished);
  }

  lemma FiringIsNearer(cfg: Config, s: State, timer: nat)
    requires cfg.urlAccepted && TimersOk(s) && Enabled(s, TimerFires(timer))
    ensures Nearer(s, Apply(cfg, s, TimerFires(timer)))
  {
    TotalAfterStart(Declares, s.tasks, Connecting);
    TotalAfterStart(HasThrown, s.tasks, Connecting);
    TotalAfterStart(Creates, s.tasks, Connecting);
    TotalAfterStart(Unfinished, s.tasks, Connecting);
    TotalAfterStart(StepsLeft, s.tasks, Connecting);
  }

  lemma NearerStep(cfg: Config, s: State, e: Event)
    requires cfg.urlAccepted && TimersOk(s) && s.started && !s.isShuttingDown
    requires Enabled(s, e) && Smooth(e) && InOrder(s, e)
    ensures Nearer(s, Apply(cfg, s, e))
    ensures Apply(cfg, s, e).started && !Apply(cfg, s, e).isShuttingDown
  {
    match e {
      case TimerFires(timer) => FiringIsNearer(cfg, s, timer);
      case ConnectSettles(i, _) =>
        NobodyHasThrown(s, e);
        ConnectIsNearer(cfg, s, i);
      case ChannelSettles(i, _) =>
        NobodyHasThrown(s, e);
        ChannelIsNearer(cfg, s, i);
      case TopologySettles(i, _) => DeclarationIsNearer(cfg, s, i);
      case SetupStarts(i) => SetupStartIsNearer(cfg, s, i);
      case SetupEnds(i) => SetupEndIsNearer(cfg, s, i);
      case CatchRuns(i) => CatchIsNearer(cfg, s, i);
      case ChannelCloseSettles(i) => CloseIsNearer(cfg, s, i, e);
      case ConnectionCloseSettles(i) => CloseIsNearer(cfg, s, i, e);
      case RescheduleRuns(i, draw) => RescheduleIsNearer(cfg, s, i, draw);
      case _ =>
    }
  }

  /** The three counts as one number, in a service of at most u tasks and timers. */
  function Level(s: State, u: nat): nat {
    if Calm(s) then 0 else 1 + Declaring(s) * (u + 1) + Bereft(s)
  }

  function Potential(s: State, u: nat): nat {
    Level(s, u) * (13 * u + 1) + Steps(s)
  }

  lemma StepsAreBounded(s: State)
    ensures Steps(s) <= 13 * Units(s) && Bereft(s) <= Units(s)
  {
    TotalIsBounded(StepsLeft, Unfinished, 13, s.tasks);
    TotalIsBounded(Creates, Unfinished, 1, s.tasks);
  }

  lemma LessFirst(a: nat, b: nat, a': nat, b': nat, k: nat)
    requires a' < a && b' < k
    ensures a' * k + b' < a * k + b
  {
    assert (a' + 1) * k <= a * k;
  }

  lemma PotentialFalls(s: State, s': State, u: nat)
    requires Nearer(s, s') && Units(s) <= u
    ensures Potential(s', u) < Potential(s, u)
  {
    StepsAreBounded(s');
    if !Calm(s) && !Calm(s') && Declaring(s') < Declaring(s) {
      LessFirst(Declaring(s), Bereft(s), Declaring(s'), Bereft(s'), u + 1);
    }
    if Level(s', u) < Level(s, u) {
      LessFirst(Level(s, u), Steps(s), Level(s', u), Steps(s'), 13 * u + 1);
    }
  }

  lemma {:induction false} InOrderRun(cfg: Config, s: State, es: seq<Event>, u: nat)
    requires cfg.urlAccepted && TimersOk(s) && s.started && !s.isShuttingDown && Units(s) <= u
    requires CanRun(cfg, s, es) && AllSmooth(es) && RunsInOrder(cfg, s, es)
    ensures var s' := Run(cfg, s, es);
            TimersOk(s') && s'.started && !s'.isShuttingDown && |es| + Potential(s', u) <= Potential(s, u)
    decreases es
  {
    if es != [] {
      assert es[0] in es && forall e :: e in es[1..] ==> e in es;
      var s1 := Apply(cfg, s, es[0]);
      TimersOkStep(cfg, s, es[0]);
      NearerStep(cfg, s, es[0]);
      PotentialFalls(s, s1, u);
      InOrderRun(cfg, s1, es[1..], u);
    }
  }

  lemma CanStepInOrder(s: State) returns (e: Event)
    requires TimersOk(s) && s.started && !s.isShuttingDown && !Quiet(s)
    ensures Enabled(s, e) && Smooth(e) && InOrder(s, e)
  {
    if i: nat :| i < |s.tasks| && Prompt(s.tasks[i]) {
      e := match s.tasks[i]
        case ConnectReturned => SetupStarts(i)
        case SetupReturned => SetupEnds(i)
        case Threw => CatchRuns(i)
        case _ => RescheduleRuns(i, 0.0);
    } else if s.reconnectTimer.Some? {
      e := TimerFires(s.reconnectTimer.value);
    } else {
      var i: nat :| i < |s.tasks| && !s.tasks[i].Finished?;
      assert !Prompt(s.tasks[i]);
      e := match s.tasks[i]
        case Connecting => ConnectSettles(i, true)
        case CreatingChannel(_) => ChannelSettles(i, true)
        case Topology(_) => TopologySettles(i, true)
        case ClosingChannel => ChannelCloseSettles(i)
        case _ => ConnectionCloseSettles(i);
    }
  }

  /**
   * From every reachable state before a shutdown, with any number of attempts
   * and closers in each other's way, every run without new failures in which
   * microtasks come first is bounded, and either it can go on or the service
   * has gone quiet and is connected.
   */
  lemma EveryOrderRecovers(cfg: Config, before: seq<Event>, es: seq<Event>)
    requires ValidConfig(cfg) && cfg.urlAccepted && CanRun(cfg, INITIAL, before)
    requires Run(cfg, INITIAL, before).started && !Run(cfg, INITIAL, before).isShuttingDown
    requires CanRun(cfg, Run(cfg, INITIAL, before), es) && AllSmooth(es)
    requires RunsInOrder(cfg, Run(cfg, INITIAL, before), es)
    ensures var s := Run(cfg, INITIAL, before);
            && |es| <= Potential(s, Units(s))
            && var s' := Run(cfg, s, es);
               if Quiet(s') then Connected(s') else exists e :: Enabled(s', e) && Smooth(e) && InOrder(s', e)
  {
    var s := Run(cfg, INITIAL, before);
    ReachableIsSafe(cfg, before);
    InOrderRun(cfg, s, es, Units(s));
    var s' := Run(cfg, s, es);
    if Quiet(s') {
      RunsCompose(cfg, INITIAL, before, es);
      QuietMeansConnected(cfg, before + es);
    } else {
      var e := CanStepInOrder(s');
    }
  }

  // ---- A channel that dies alone ----

  /**
   * When the broker closes the stored channel of a quiet service and leaves
   * the connection open, nothing happens until an event of a connection or a
   * shutdown: the service stays connected by its own account and publishes
   * nothing.
   */
  lemma DeadChannelGoesUnnoticed(cfg: Config, before: seq<Event>, es: seq<Event>)
    requires ValidConfig(cfg) && CanRun(cfg, INITIAL, before)
    requires Quiet(Run(cfg, INITIAL, before)) && !CanPublish(Run(cfg, INITIAL, before))
    requires CanRun(cfg, Run(cfg, INITIAL, before), es)
    requires forall e :: e in es ==> !e.ConnectionEvent? && !e.ModuleDestroy?
    ensures var s := Run(cfg, Run(cfg, INITIAL, before), es);
            && s == Run(cfg, INITIAL, before).(deadChannels := s.deadChannels)
            && Connected(s) && !CanPublish(s)
  {
    ReachableIsSafe(cfg, before);
    OnlyChannelsDie(cfg, Run(cfg, INITIAL, before), es);
  }

  lemma {:induction false} OnlyChannelsDie(cfg: Config, s: State, es: seq<Event>)
    requires TimersOk(s) && Quiet(s) && CanRun(cfg, s, es)
    requires forall e :: e in es ==> !e.ConnectionEvent? && !e.ModuleDestroy?
    ensures var s' := Run(cfg, s, es);
            s.deadChannels <= s'.deadChannels && s' == s.(deadChannels := s'.deadChannels)
    decreases es
  {
    if es != [] {
      assert es[0] in es && forall e :: e in es[1..] ==> e in es;
      OnlyChannelsDie(cfg, Apply(cfg, s, es[0]), es[1..]);
    }
  }

  /** Such a state exists: the first setup completes and its channel dies. */
  lemma ChannelCanDieAlone(cfg: Config) returns (es: seq<Event>)
    requires cfg.urlAccepted
    ensures CanRun(cfg, INITIAL, es) && RunsInOrder(cfg, INITIAL, es)
    ensures Quiet(Run(cfg, INITIAL, es)) && Connected(Run(cfg, INITIAL, es)) && !CanPublish(Run(cfg, INITIAL, es))
  {
    es := FirstSetup(cfg);
    var dies := ChannelDies(0);
    Prepend(cfg, Run(cfg, INITIAL, es), dies, []);
    RunsCompose(cfg, INITIAL, es, [dies] + []);
    es := es + ([dies] + []);
  }
}
