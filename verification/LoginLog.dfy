/**
 * The login lockout against a plain log of attempts, for calls that do not
 * overlap (api-gateway/src/auth/auth.service.ts:84-101, 176-250).
 */
module LoginLog {
  import opened Options
  import opened Redis

  const MAX_ATTEMPTS: nat := 5
  const LOCKOUT_SECONDS: nat := 900

  /** When a call read the counter, changed it and, for a failure, ran EXPIRE or would have. */
  datatype Attempt =
    | Failure(checked: int, at: int, armed: int)
    | Success(checked: int, at: int)
  {
    function End(): int {
      if Failure? then armed else at
    }

    predicate Ordered() {
      checked <= at <= End()
    }
  }

  // ---- The reference: windows read off the log ----

  /** The failure that opened the window the log ends in, if it ends in one. */
  function Opener(log: seq<Attempt>): (o: Option<nat>)
    ensures o.Some? ==> o.value < |log| && log[o.value].Failure? && log[|log| - 1].Failure?
    ensures log != [] && log[|log| - 1].Failure? ==> o.Some?
  {
    if log == [] || log[|log| - 1].Success? then None
    else
      var n := |log| - 1;
      var before := Opener(log[..n]);
      if before.Some? && log[n].at < log[before.value].armed + LOCKOUT_SECONDS then before else Some(n)
  }

  /** The failures since the window opened or the last success, while the window lasts. */
  function FailuresInWindow(log: seq<Attempt>, now: int): nat {
    var o := Opener(log);
    if o.Some? && now < log[o.value].armed + LOCKOUT_SECONDS then |log| - o.value else 0
  }

  /** Calls that follow each other. */
  ghost predicate Sequential(log: seq<Attempt>) {
    log == [] ||
    (var n := |log| - 1;
     Sequential(log[..n]) && log[n].Ordered() && (n > 0 ==> log[n - 1].End() <= log[n].checked))
  }

  /** Every attempt on the log was let through by a lockout check that allows m failures. */
  ghost predicate Admitted(log: seq<Attempt>, m: nat) {
    log == [] ||
    (var n := |log| - 1;
     Admitted(log[..n], m) && FailuresInWindow(log[..n], log[n].checked) < m)
  }

  // ---- The code: what an attempt does to the counter ----

  function AfterFailure(slot: Slot<nat>, at: int, armed: int): Slot<nat> {
    var counted := Incr(slot, at);
    if counted.value.value == 1 then Expire(counted, armed, LOCKOUT_SECONDS) else counted
  }

  function AfterAttempt(slot: Slot<nat>, a: Attempt): Slot<nat> {
    if a.Failure? then AfterFailure(slot, a.at, a.armed) else None
  }

  function Counter(log: seq<Attempt>): Slot<nat> {
    if log == [] then None else AfterAttempt(Counter(log[..|log| - 1]), log[|log| - 1])
  }

  function Attempts(slot: Slot<nat>, now: int): nat {
    if Get(slot, now).Some? then Get(slot, now).value else 0
  }

  /** The counter in Redis is the number of failures in the window, at any later time. */
  lemma {:induction false} CounterIsLog(log: seq<Attempt>, now: int)
    requires Sequential(log) && (log != [] ==> log[|log| - 1].End() <= now)
    ensures Attempts(Counter(log), now) == FailuresInWindow(log, now)
    ensures Counter(log).Some? <==> Opener(log).Some?
    ensures Counter(log).Some? ==>
            Counter(log).value.expiresAt == Some(log[Opener(log).value].armed + LOCKOUT_SECONDS)
    ensures Counter(log).Some? ==> Counter(log).value.value == |log| - Opener(log).value
  {
    if log != [] {
      var n := |log| - 1;
      var before := log[..n];
      CounterIsLog(before, log[n].at);
    }
  }

  /** The key of one email is what the code makes of its log. */
  ghost predicate Agrees(log: seq<Attempt>, slot: Slot<nat>, m: nat) {
    Sequential(log) && Admitted(log, m) && slot == Counter(log)
  }

  lemma AgreesAfter(log: seq<Attempt>, slot: Slot<nat>, a: Attempt, m: nat)
    requires Agrees(log, slot, m) && a.Ordered() && (log != [] ==> log[|log| - 1].End() <= a.checked)
    requires FailuresInWindow(log, a.checked) < m
    ensures Agrees(log + [a], AfterAttempt(slot, a), m)
  {
  }

  // ---- How many failures fit into 900 seconds ----

  /** A window holds at most m admitted failures. */
  lemma WindowIsBounded(log: seq<Attempt>, m: nat)
    requires Sequential(log) && Admitted(log, m) && Opener(log).Some?
    ensures |log| - Opener(log).value <= m
  {
  }

  /** The opener of a window opened it when it happened, after the window before had run out. */
  lemma {:induction false} OpenerOpened(log: seq<Attempt>)
    requires Sequential(log) && Opener(log).Some?
    ensures var o := Opener(log).value;
            Opener(log[..o]).Some? ==> log[o].at >= log[Opener(log[..o]).value].armed + LOCKOUT_SECONDS
  {
    var n := |log| - 1;
    var o := Opener(log).value;
    if o < n {
      assert Opener(log[..n]) == Some(o);
      OpenerOpened(log[..n]);
      assert log[..n][..o] == log[..o];
    }
  }

  lemma {:induction false} PrefixKeeps(log: seq<Attempt>, n: nat, m: nat)
    requires Sequential(log) && Admitted(log, m) && n <= |log|
    ensures Sequential(log[..n]) && Admitted(log[..n], m)
  {
    if n < |log| {
      PrefixKeeps(log[..|log| - 1], n, m);
      assert log[..|log| - 1][..n] == log[..n];
    } else {
      assert log[..n] == log;
    }
  }

  lemma {:induction false} TimesGrow(log: seq<Attempt>, i: nat, j: nat)
    requires Sequential(log) && i <= j < |log|
    ensures log[i].at <= log[i].End() && log[i].at <= log[j].at
    ensures i < j ==> log[i].End() <= log[j].checked
  {
    var n := |log| - 1;
    if j < n {
      TimesGrow(log[..n], i, j);
    } else if i < n {
      TimesGrow(log[..n], i, n - 1);
    }
  }

  /** Where the window before the current one began, if a failure came before the current one opened. */
  lemma WindowBefore(log: seq<Attempt>, m: nat) returns (p: nat)
    requires Sequential(log) && Admitted(log, m) && Opener(log).Some?
    requires Opener(log).value > 0 && log[Opener(log).value - 1].Failure?
    ensures p < Opener(log).value <= p + m
    ensures log[p].Failure? && log[Opener(log).value].at >= log[p].at + LOCKOUT_SECONDS
  {
    var o := Opener(log).value;
    PrefixKeeps(log, o, m);
    WindowIsBounded(log[..o], m);
    OpenerOpened(log);
    p := Opener(log[..o]).value;
    TimesGrow(log, p, o);
  }

  /**
   * With no success in between, any half-open interval of 900 seconds holds
   * at most 2 * m - 1 counted failures, although one window is all the code looks at.
   */
  lemma SlidingWindowBound(log: seq<Attempt>, i: nat, j: nat, m: nat)
    requires Sequential(log) && Admitted(log, m) && i < j <= |log|
    requires forall k :: i <= k < j ==> log[k].Failure?
    requires log[j - 1].at < log[i].at + LOCKOUT_SECONDS
    ensures j - i <= 2 * m - 1
  {
    var upTo := log[..j];
    PrefixKeeps(log, j, m);
    WindowIsBounded(upTo, m);
    var o := Opener(upTo).value;
    if i < o {
      assert upTo[o - 1] == log[o - 1];
      var p := WindowBefore(upTo, m);
      TimesGrow(log, o, j - 1);
      if i <= p {
        TimesGrow(log, i, p);
        assert false;
      }
    }
  }

  /** With the limit of five and the window of a quarter of an hour, nine. */
  lemma AtMostNine(log: seq<Attempt>, i: nat, j: nat)
    requires Sequential(log) && Admitted(log, MAX_ATTEMPTS) && i < j <= |log|
    requires forall k :: i <= k < j ==> log[k].Failure?
    requires log[j - 1].at < log[i].at + 15 * 60
    ensures j - i <= 9
  {
    SlidingWindowBound(log, i, j, MAX_ATTEMPTS);
  }

  // ---- The bound is attained ----

  /** n failures at one instant. */
  function Burst(at: int, n: nat): (burst: seq<Attempt>)
    ensures |burst| == n && forall k :: 0 <= k < n ==> burst[k] == Failure(at, at, at)
  {
    if n == 0 then [] else Burst(at, n - 1) + [Failure(at, at, at)]
  }

  ghost predicate Possible(log: seq<Attempt>, until: int, m: nat) {
    Sequential(log) && Admitted(log, m) && (log != [] ==> log[|log| - 1].End() <= until)
  }

  lemma OneMoreFailure(log: seq<Attempt>, at: int, m: nat)
    requires Possible(log, at, m) && FailuresInWindow(log, at) < m
    ensures Possible(log + [Failure(at, at, at)], at, m)
    ensures FailuresInWindow(log + [Failure(at, at, at)], at) == FailuresInWindow(log, at) + 1
  {
  }

  lemma {:induction false} BurstIsPossible(log: seq<Attempt>, at: int, n: nat, m: nat)
    requires Possible(log, at, m) && FailuresInWindow(log, at) + n <= m
    ensures Possible(log + Burst(at, n), at, m)
    ensures FailuresInWindow(log + Burst(at, n), at) == FailuresInWindow(log, at) + n
  {
    if n == 0 {
      assert log + Burst(at, n) == log;
    } else {
      BurstIsPossible(log, at, n - 1, m);
      var before := log + Burst(at, n - 1);
      OneMoreFailure(before, at, m);
      assert log + Burst(at, n) == before + [Failure(at, at, at)];
    }
  }

  /** The first window's opener stays the first attempt until that window runs out. */
  lemma {:induction false} FirstWindow(log: seq<Attempt>)
    requires Sequential(log) && log != [] && (forall k :: 0 <= k < |log| ==> log[k].Failure?)
    requires log[|log| - 1].at < log[0].armed + LOCKOUT_SECONDS
    ensures Opener(log) == Some(0)
  {
    var n := |log| - 1;
    if n > 0 {
      TimesGrow(log, n - 1, n);
      FirstWindow(log[..n]);
    }
  }

  /** One failure, m - 1 just before its window runs out and m right after: 2 * m - 1 within two seconds. */
  lemma SlidingWindowBoundIsAttained(m: nat) returns (log: seq<Attempt>, i: nat)
    requires m >= 1
    ensures Sequential(log) && Admitted(log, m) && i + (2 * m - 1) == |log|
    ensures forall k :: 0 <= k < |log| ==> log[k].Failure?
    ensures log[|log| - 1].at <= log[i].at + 1
  {
    var last := LOCKOUT_SECONDS - 1;
    BurstIsPossible([], 0, 1, m);
    var first := [] + Burst(0, 1);
    BurstIsPossible(first, last, m - 1, m);
    var window := first + Burst(last, m - 1);
    FirstWindow(window);
    BurstIsPossible(window, LOCKOUT_SECONDS, m, m);
    log := window + Burst(LOCKOUT_SECONDS, m);
    i := 1;
  }
}
