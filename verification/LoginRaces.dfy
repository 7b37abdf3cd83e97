/**
 * Logins for one email that overlap, as a labelled transition system over one
 * Redis key (api-gateway/src/auth/auth.service.ts:84-105, 176-250).  Every
 * Redis command is one event; time passes in between.
 */
module LoginRaces {
  import opened Options
  import opened Numbers
  import opened Redis
  import L = LoginLog

  datatype Call =
    | Arrived                      // the counter has not been read
    | Passed                       // let through, the password check and then INCR or DEL are still to come
    | Counted(incarnation: nat)    // its INCR created the key, its EXPIRE is still to come
    | Crashed(incarnation: nat)    // died in that place
    | Over

  datatype State = State(
    now: int,
    slot: Slot<nat>,
    incarnation: nat,   // history: which creation of the key this is
    calls: seq<Call>,
    peak: nat)          // history: the most calls that were ever past the check at once

  const INITIAL := State(0, None, 0, [], 0)

  datatype Event =
    | Arrive
    | ReadCounter(call: nat)
    | Increment(call: nat)
    | Arm(call: nat)
    | Clear(call: nat)
    | Crash(call: nat)
    | Tick(seconds: nat)

  predicate Enabled(s: State, e: Event) {
    match e
    case Arrive => true
    case ReadCounter(i) => i < |s.calls| && s.calls[i].Arrived?
    case Increment(i) => i < |s.calls| && s.calls[i].Passed?
    case Arm(i) => i < |s.calls| && s.calls[i].Counted?
    case Clear(i) => i < |s.calls| && s.calls[i].Passed?
    case Crash(i) => i < |s.calls| && !s.calls[i].Crashed? && !s.calls[i].Over?
    case Tick(_) => true
  }

  function PassedCount(calls: seq<Call>): nat {
    if calls == [] then 0 else PassedCount(calls[..|calls| - 1]) + (if calls[|calls| - 1].Passed? then 1 else 0)
  }

  function Move(s: State, i: nat, c: Call): State
    requires i < |s.calls|
  {
    s.(calls := s.calls[i := c])
  }

  function OnRead(s: State, i: nat): State
    requires i < |s.calls|
  {
    if L.Attempts(s.slot, s.now) >= L.MAX_ATTEMPTS then Move(s, i, Over)
    else
      var passed := Move(s, i, Passed);
      passed.(peak := Max(s.peak, PassedCount(passed.calls)))
  }

  function OnIncrement(s: State, i: nat): State
    requires i < |s.calls|
  {
    var counted := s.(slot := Incr(s.slot, s.now));
    if counted.slot.value.value == 1 then
      Move(counted, i, Counted(s.incarnation + 1)).(incarnation := s.incarnation + 1)
    else
      Move(counted, i, Over)
  }

  function Apply(s: State, e: Event): State
    requires Enabled(s, e)
  {
    match e
    case Arrive => s.(calls := s.calls + [Arrived])
    case ReadCounter(i) => OnRead(s, i)
    case Increment(i) => OnIncrement(s, i)
    case Arm(i) => Move(s, i, Over).(slot := Expire(s.slot, s.now, L.LOCKOUT_SECONDS))
    case Clear(i) => Move(s, i, Over).(slot := None)
    case Crash(i) => Move(s, i, if s.calls[i].Counted? then Crashed(s.calls[i].incarnation) else Over)
    case Tick(seconds) => s.(now := s.now + seconds)
  }

  predicate CanRun(s: State, es: seq<Event>)
    decreases es
  {
    es == [] || (Enabled(s, es[0]) && CanRun(Apply(s, es[0]), es[1..]))
  }

  function Run(s: State, es: seq<Event>): State
    requires CanRun(s, es)
    decreases es
  {
    if es == [] then s else Run(Apply(s, es[0]), es[1..])
  }

  lemma {:induction false} RunsCompose(s: State, es: seq<Event>, fs: seq<Event>)
    requires CanRun(s, es) && CanRun(Run(s, es), fs)
    ensures CanRun(s, es + fs) && Run(s, es + fs) == Run(Run(s, es), fs)
    decreases es
  {
    if es == [] {
      assert es + fs == fs;
    } else {
      assert (es + fs)[1..] == es[1..] + fs;
      RunsCompose(Apply(s, es[0]), es[1..], fs);
    }
  }

  lemma Prepend(s: State, e: Event, es: seq<Event>)
    requires Enabled(s, e) && CanRun(Apply(s, e), es)
    ensures CanRun(s, [e] + es) && Run(s, [e] + es) == Run(Apply(s, e), es)
  {
  }

  /** A run from the start, one event longer. */
  lemma Then(before: seq<Event>, e: Event) returns (es: seq<Event>)
    requires CanRun(INITIAL, before) && Enabled(Run(INITIAL, before), e)
    ensures CanRun(INITIAL, es) && Run(INITIAL, es) == Apply(Run(INITIAL, before), e)
  {
    Prepend(Run(INITIAL, before), e, []);
    RunsCompose(INITIAL, before, [e] + []);
    es := before + ([e] + []);
  }

  // ---- How far the counter can run over ----

  lemma {:induction false} CountAfterMove(calls: seq<Call>, i: nat, c: Call)
    requires i < |calls|
    ensures PassedCount(calls[i := c])
         == PassedCount(calls) - (if calls[i].Passed? then 1 else 0) + (if c.Passed? then 1 else 0)
  {
    var n := |calls| - 1;
    if i == n {
      assert calls[i := c][..n] == calls[..n];
    } else {
      assert calls[i := c][..n] == calls[..n][i := c];
      CountAfterMove(calls[..n], i, c);
    }
  }

  ghost predicate Bounded(s: State) {
    && PassedCount(s.calls) <= s.peak
    && L.Attempts(s.slot, s.now) + PassedCount(s.calls) <= L.MAX_ATTEMPTS - 1 + s.peak
  }

  lemma BoundedStep(s: State, e: Event)
    requires Bounded(s) && Enabled(s, e)
    ensures Bounded(Apply(s, e))
  {
    var s' := Apply(s, e);
    if e.Arrive? {
      assert s'.calls[..|s.calls|] == s.calls;
    } else if !e.Tick? {
      CountAfterMove(s.calls, e.call, s'.calls[e.call]);
    }
  }

  // ---- No permanent lock ----

  /** The creator of this incarnation of the key, with its EXPIRE still to come or never to come. */
  predicate OwesExpiry(c: Call, incarnation: nat) {
    (c.Counted? || c.Crashed?) && c.incarnation == incarnation
  }

  ghost predicate ExpiryOwed(s: State) {
    && (s.slot.Some? && s.slot.value.expiresAt.None? ==>
          exists i :: 0 <= i < |s.calls| && OwesExpiry(s.calls[i], s.incarnation))
    && (s.slot.Some? && s.slot.value.expiresAt.Some? ==> s.slot.value.expiresAt.value <= s.now + L.LOCKOUT_SECONDS)
    && (s.slot.Some? ==> s.slot.value.value >= 1)
  }

  lemma ExpiryOwedStep(s: State, e: Event)
    requires ExpiryOwed(s) && Enabled(s, e)
    ensures ExpiryOwed(Apply(s, e))
  {
    var s' := Apply(s, e);
    if s'.slot.Some? && s'.slot.value.expiresAt.None? {
      if e.Increment? && !Live(s.slot, s.now) {
        assert OwesExpiry(s'.calls[e.call], s'.incarnation);
      } else {
        var i :| 0 <= i < |s.calls| && OwesExpiry(s.calls[i], s.incarnation);
        assert OwesExpiry(s'.calls[i], s'.incarnation);
      }
    }
  }

  // ---- Every run ----

  lemma {:induction false} InvRun(s: State, es: seq<Event>)
    requires Bounded(s) && ExpiryOwed(s) && CanRun(s, es)
    ensures Bounded(Run(s, es)) && ExpiryOwed(Run(s, es))
    decreases es
  {
    if es != [] {
      BoundedStep(s, es[0]);
      ExpiryOwedStep(s, es[0]);
      InvRun(Apply(s, es[0]), es[1..]);
    }
  }

  /**
   * However logins overlap, succeed and expire, the counter stays within 4
   * plus the most that were ever past the check at once.
   */
  lemma OverrunIsBounded(es: seq<Event>)
    requires CanRun(INITIAL, es)
    ensures var s := Run(INITIAL, es); L.Attempts(s.slot, s.now) <= L.MAX_ATTEMPTS - 1 + s.peak
  {
    InvRun(INITIAL, es);
  }

  /**
   * A key without a time to live has a creator that is still to run its
   * EXPIRE or crashed before it; any other key is, as things stand, at most
   * 900 seconds from its end.
   */
  lemma NoPermanentLock(es: seq<Event>)
    requires CanRun(INITIAL, es) && Run(INITIAL, es).slot.Some?
    ensures var s := Run(INITIAL, es);
            if s.slot.value.expiresAt.None? then
              exists i :: 0 <= i < |s.calls| && OwesExpiry(s.calls[i], s.incarnation)
            else
              s.slot.value.expiresAt.value <= s.now + L.LOCKOUT_SECONDS
  {
    InvRun(INITIAL, es);
  }

  // ---- When a key outlives its expiry ----

  ghost predicate NobodyCounted(calls: seq<Call>) {
    forall i :: 0 <= i < |calls| ==> !calls[i].Counted?
  }

  /** Key n expires at t, or is gone, and nobody can give it another time to live. */
  ghost predicate Dated(s: State, n: nat, t: int) {
    s.incarnation > n || (
      && s.incarnation == n && NobodyCounted(s.calls)
      && (s.slot.Some? ==> s.slot.value.expiresAt == Some(t) && s.slot.value.value >= 1))
  }

  lemma DatedStep(s: State, e: Event, n: nat, t: int)
    requires Dated(s, n, t) && Enabled(s, e)
    ensures Dated(Apply(s, e), n, t)
  {
  }

  lemma {:induction false} DatedRun(s: State, es: seq<Event>, n: nat, t: int)
    requires Dated(s, n, t) && CanRun(s, es)
    ensures Dated(Run(s, es), n, t)
    decreases es
  {
    if es != [] {
      DatedStep(s, es[0], n, t);
      DatedRun(Apply(s, es[0]), es[1..], n, t);
    }
  }

  /** The EXPIRE of any call that has counted renews the key, up to the last second of it. */
  lemma StaleExpireProlongs(s: State, i: nat) returns (es: seq<Event>)
    requires Enabled(s, Arm(i)) && Live(s.slot, s.now) && s.slot.value.expiresAt.Some?
    ensures CanRun(s, es)
    ensures var s' := Run(s, es);
            s'.incarnation == s.incarnation && s'.now == s.slot.value.expiresAt.value && Live(s'.slot, s'.now)
  {
    var wait := Tick(s.slot.value.expiresAt.value - 1 - s.now);
    var s1 := Apply(s, wait);
    var s2 := Apply(s1, Arm(i));
    Prepend(s2, Tick(1), []);
    Prepend(s1, Arm(i), [Tick(1)] + []);
    Prepend(s, wait, [Arm(i)] + ([Tick(1)] + []));
    es := [wait] + ([Arm(i)] + ([Tick(1)] + []));
  }

  /**
   * A key that is to expire at t is gone by then in every continuation, unless
   * created anew, exactly when no call has its EXPIRE still to come: EXPIRE
   * does not ask whose key it finds.
   */
  lemma GoneInTimeIff(before: seq<Event>, t: int)
    requires CanRun(INITIAL, before)
    requires var s := Run(INITIAL, before);
             Live(s.slot, s.now) && s.slot.value.expiresAt == Some(t)
    ensures var s := Run(INITIAL, before);
            (forall es :: CanRun(s, es) && Run(s, es).incarnation == s.incarnation && t <= Run(s, es).now ==>
                            !Live(Run(s, es).slot, Run(s, es).now))
            <==> NobodyCounted(s.calls)
  {
    var s := Run(INITIAL, before);
    InvRun(INITIAL, before);
    if NobodyCounted(s.calls) {
      forall es | CanRun(s, es)
        ensures Dated(Run(s, es), s.incarnation, t)
      {
        DatedRun(s, es, s.incarnation, t);
      }
    } else {
      var i :| 0 <= i < |s.calls| && s.calls[i].Counted?;
      var es := StaleExpireProlongs(s, i);
      assert CanRun(s, es) && Live(Run(s, es).slot, Run(s, es).now);
    }
  }

  /** A failure whose key a success deletes, and another that creates the key again before the first runs its EXPIRE. */
  lemma StaleExpireExists() returns (es: seq<Event>)
    ensures CanRun(INITIAL, es)
    ensures var s := Run(INITIAL, es);
            && Live(s.slot, s.now) && s.slot.value.expiresAt == Some(s.now + L.LOCKOUT_SECONDS)
            && s.incarnation == 2 && 0 < |s.calls| && s.calls[0] == Counted(1)
  {
    es := [Arrive, Arrive];
    es := Then(es, ReadCounter(0));
    es := Then(es, ReadCounter(1));
    es := Then(es, Increment(0));
    es := Then(es, Clear(1));
    es := Then(es, Arrive);
    es := Then(es, ReadCounter(2));
    es := Then(es, Increment(2));
    es := Then(es, Arm(2));
  }

  // ---- When a lock never ends ----

  /** Five failures on a key without a time to live, and nobody left who could clear or arm it. */
  ghost predicate LockedForGood(s: State) {
    && s.slot.Some? && s.slot.value.expiresAt.None? && s.slot.value.value >= L.MAX_ATTEMPTS
    && forall i :: 0 <= i < |s.calls| ==> !s.calls[i].Passed? && !s.calls[i].Counted?
  }

  lemma LockedForGoodStep(s: State, e: Event)
    requires LockedForGood(s) && Enabled(s, e)
    ensures LockedForGood(Apply(s, e))
  {
  }

  lemma {:induction false} CrashLocksForGood(s: State, es: seq<Event>)
    requires LockedForGood(s) && CanRun(s, es)
    ensures LockedForGood(Run(s, es))
    decreases es
  {
    if es != [] {
      LockedForGoodStep(s, es[0]);
      CrashLocksForGood(Apply(s, es[0]), es[1..]);
    }
  }

  /** The password was right after all, or the EXPIRE does come. */
  lemma LockIsLifted(s: State, i: nat) returns (es: seq<Event>)
    requires s.slot.Some? && s.slot.value.expiresAt.None?
    requires i < |s.calls| && (s.calls[i].Passed? || s.calls[i].Counted?)
    ensures CanRun(s, es) && L.Attempts(Run(s, es).slot, Run(s, es).now) == 0
  {
    if s.calls[i].Passed? {
      Prepend(s, Clear(i), []);
      es := [Clear(i)] + [];
    } else {
      var wait := Tick(L.LOCKOUT_SECONDS);
      Prepend(Apply(s, Arm(i)), wait, []);
      Prepend(s, Arm(i), [wait] + []);
      es := [Arm(i)] + ([wait] + []);
    }
  }

  /**
   * Five failures on a key without a time to live lock the email in every
   * continuation exactly when no call is left that is past its check or has
   * its EXPIRE still to come.
   */
  lemma LockedForGoodIff(s: State)
    requires s.slot.Some? && s.slot.value.expiresAt.None? && s.slot.value.value >= L.MAX_ATTEMPTS
    ensures (forall es :: CanRun(s, es) ==> L.Attempts(Run(s, es).slot, Run(s, es).now) >= L.MAX_ATTEMPTS)
            <==> (forall i :: 0 <= i < |s.calls| ==> !s.calls[i].Passed? && !s.calls[i].Counted?)
  {
    if LockedForGood(s) {
      forall es | CanRun(s, es)
        ensures L.Attempts(Run(s, es).slot, Run(s, es).now) >= L.MAX_ATTEMPTS
      {
        CrashLocksForGood(s, es);
      }
    } else {
      var i :| 0 <= i < |s.calls| && (s.calls[i].Passed? || s.calls[i].Counted?);
      var es := LockIsLifted(s, i);
      assert CanRun(s, es) && L.Attempts(Run(s, es).slot, Run(s, es).now) < L.MAX_ATTEMPTS;
    }
  }

  // ---- Runs of failures ----

  function Passes(n: nat): (calls: seq<Call>)
    ensures |calls| == n && forall i :: 0 <= i < n ==> calls[i] == Passed
  {
    if n == 0 then [] else [Passed] + Passes(n - 1)
  }

  lemma {:induction false} CountAfterPasses(calls: seq<Call>, n: nat)
    ensures PassedCount(calls + Passes(n)) == PassedCount(calls) + n
  {
    var longer := calls + Passes(n);
    if n == 0 {
      assert longer == calls;
    } else {
      assert longer[..|longer| - 1] == calls + Passes(n - 1);
      CountAfterPasses(calls, n - 1);
    }
  }

  /** What n more logins past the check make of a state. */
  function AfterPasses(s: State, n: nat): State {
    s.(calls := s.calls + Passes(n), peak := if n == 0 then s.peak else Max(s.peak, PassedCount(s.calls) + n))
  }

  lemma OnePasses(s: State) returns (es: seq<Event>)
    requires L.Attempts(s.slot, s.now) < L.MAX_ATTEMPTS
    ensures CanRun(s, es) && Run(s, es) == AfterPasses(s, 1)
  {
    var read := ReadCounter(|s.calls|);
    var s1 := Apply(s, Arrive);
    CountAfterPasses(s.calls, 1);
    assert s1.calls[|s.calls| := Passed] == s.calls + Passes(1);
    Prepend(s1, read, []);
    Prepend(s, Arrive, [read] + []);
    es := [Arrive] + ([read] + []);
  }

  lemma OneMorePass(s: State, n: nat)
    ensures AfterPasses(AfterPasses(s, 1), n) == AfterPasses(s, n + 1)
  {
    CountAfterPasses(s.calls, 1);
    assert (s.calls + Passes(1)) + Passes(n) == s.calls + Passes(n + 1);
  }

  lemma {:induction false} ManyPass(s: State, n: nat) returns (es: seq<Event>)
    requires L.Attempts(s.slot, s.now) < L.MAX_ATTEMPTS
    ensures CanRun(s, es) && Run(s, es) == AfterPasses(s, n)
    decreases n
  {
    if n == 0 {
      es := [];
      assert s.calls + Passes(0) == s.calls;
    } else {
      var one := OnePasses(s);
      var rest := ManyPass(AfterPasses(s, 1), n - 1);
      RunsCompose(s, one, rest);
      OneMorePass(s, n - 1);
      es := one + rest;
    }
  }

  lemma {:induction false} SomePassed(calls: seq<Call>) returns (i: nat)
    requires PassedCount(calls) > 0
    ensures i < |calls| && calls[i].Passed?
  {
    i := |calls| - 1;
    if !calls[i].Passed? {
      i := SomePassed(calls[..i]);
    }
  }

  lemma {:induction false} NonePassed(calls: seq<Call>, i: nat)
    requires PassedCount(calls) == 0 && i < |calls|
    ensures !calls[i].Passed?
  {
    if i < |calls| - 1 {
      NonePassed(calls[..|calls| - 1], i);
    }
  }

  /** All of them fail before anyone runs EXPIRE, which nothing forces to come in between. */
  lemma {:induction false} AllFail(s: State) returns (es: seq<Event>)
    requires s.slot.Some? ==> s.slot.value.expiresAt.None?
    ensures CanRun(s, es)
    ensures var s' := Run(s, es);
            && s'.now == s.now && s'.peak == s.peak && PassedCount(s'.calls) == 0
            && (s'.slot.Some? ==> s'.slot.value.expiresAt.None?)
            && L.Attempts(s'.slot, s.now) == L.Attempts(s.slot, s.now) + PassedCount(s.calls)
            && (L.Attempts(s.slot, s.now) >= 1 && NobodyCounted(s.calls) ==> NobodyCounted(s'.calls))
    decreases PassedCount(s.calls)
  {
    if PassedCount(s.calls) == 0 {
      es := [];
    } else {
      var i := SomePassed(s.calls);
      var s1 := Apply(s, Increment(i));
      CountAfterMove(s.calls, i, s1.calls[i]);
      var rest := AllFail(s1);
      Prepend(s, Increment(i), rest);
      es := [Increment(i)] + rest;
    }
  }

  /** n logins, each failing before the next one reads the counter. */
  lemma {:induction false} FailInTurn(s: State, n: nat) returns (es: seq<Event>)
    requires L.Attempts(s.slot, s.now) + n <= L.MAX_ATTEMPTS && PassedCount(s.calls) == 0
    requires s.slot.Some? ==> s.slot.value.expiresAt.None?
    ensures CanRun(s, es)
    ensures var s' := Run(s, es);
            && s'.now == s.now && s'.peak <= Max(s.peak, 1) && PassedCount(s'.calls) == 0
            && (s'.slot.Some? ==> s'.slot.value.expiresAt.None?)
            && L.Attempts(s'.slot, s.now) == L.Attempts(s.slot, s.now) + n
            && (L.Attempts(s.slot, s.now) >= 1 && NobodyCounted(s.calls) ==> NobodyCounted(s'.calls))
    decreases n
  {
    if n == 0 {
      es := [];
    } else {
      var one := OnePasses(s);
      CountAfterPasses(s.calls, 1);
      var fails := AllFail(Run(s, one));
      RunsCompose(s, one, fails);
      var rest := FailInTurn(Run(s, one + fails), n - 1);
      RunsCompose(s, one + fails, rest);
      es := (one + fails) + rest;
    }
  }

  /** For every K there is a run in which K logins at once drive the counter to exactly 4 + K. */
  lemma OverrunIsAttained(k: nat) returns (es: seq<Event>)
    requires k >= 1
    ensures CanRun(INITIAL, es)
    ensures var s := Run(INITIAL, es); s.peak == k && L.Attempts(s.slot, s.now) == L.MAX_ATTEMPTS - 1 + k
  {
    var four := FailInTurn(INITIAL, L.MAX_ATTEMPTS - 1);
    var pass := ManyPass(Run(INITIAL, four), k);
    CountAfterPasses(Run(INITIAL, four).calls, k);
    RunsCompose(INITIAL, four, pass);
    var fail := AllFail(Run(INITIAL, four + pass));
    RunsCompose(INITIAL, four + pass, fail);
    es := (four + pass) + fail;
  }

  /** A failure whose call dies between INCR and EXPIRE, and four more: a run that ends in a lock for good. */
  lemma LockForGoodExists() returns (es: seq<Event>)
    ensures CanRun(INITIAL, es) && LockedForGood(Run(INITIAL, es))
  {
    es := [Arrive];
    es := Then(es, ReadCounter(0));
    es := Then(es, Increment(0));
    es := Then(es, Crash(0));
    var s := Run(INITIAL, es);
    CountAfterMove([Passed], 0, s.calls[0]);
    var rest := FailInTurn(s, L.MAX_ATTEMPTS - 1);
    RunsCompose(INITIAL, es, rest);
    es := es + rest;
    var s' := Run(INITIAL, es);
    forall i | 0 <= i < |s'.calls| ensures !s'.calls[i].Passed? { NonePassed(s'.calls, i); }
  }
}
