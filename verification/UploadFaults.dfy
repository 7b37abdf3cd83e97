/** What the recorded faults and the final phases of calls say about the requests of a run. */
module UploadFaults {
  import opened Options
  import opened UploadMachine
  import opened UploadSafety
  import opened UploadTheorems

  // ---- A fault is on record exactly when its request lied or failed ----

  /** The faults of call i, none before it starts. */
  function FaultsOf(s: State, i: nat): Faults {
    if i < |s.calls| then s.calls[i].faults else NO_FAULTS
  }

  function PhaseOf(s: State, i: nat): Phase {
    if i < |s.calls| then s.calls[i].phase else FindingJob
  }

  /** A call changes by the events that settle its own requests alone. */
  lemma OtherCallStays(s: State, e: Event, i: nat)
    requires Enabled(s, e) && !(Settles(e) && e.call == i)
    ensures FaultsOf(Apply(s, e), i) == FaultsOf(s, i) && PhaseOf(Apply(s, e), i) == PhaseOf(s, i)
  {
    OthersStay(s, e);
  }

  /** The requests whose failure leaves something behind. */
  predicate MayFault(e: Event) {
    e.UploadSettles? || e.PlainInsertSettles? || e.InsertSettles? || e.RowDeleteSettles? || e.FileDeleteSettles?
  }

  /** Neither won, nor failed with something to remove. */
  predicate Undecided(p: Phase) {
    !p.Created? && !Published(p) && !p.DeletingFile?
  }

  lemma ReadsDecideNothing(s: State, e: Event)
    requires Enabled(s, e) && (e.ReadFails? || e.JobRead? || e.UserRead? || e.CandidateRead?)
    ensures FaultsOf(Apply(s, e), e.call) == FaultsOf(s, e.call)
    ensures Undecided(PhaseOf(s, e.call)) && !PhaseOf(s, e.call).Failed? && Undecided(PhaseOf(Apply(s, e), e.call))
  {
  }

  lemma CandidateDecidesNothing(s: State, i: nat, ok: bool, effect: bool)
    requires Enabled(s, CandidateInsert(i, ok, effect))
    ensures var s' := Apply(s, CandidateInsert(i, ok, effect));
            && FaultsOf(s', i) == FaultsOf(s, i)
            && PhaseOf(s, i).CreatingCandidate? && Undecided(PhaseOf(s', i))
  {
  }

  lemma CheckDecidesNothing(s: State, i: nat, freshKey: string)
    requires Enabled(s, DuplicateRead(i, freshKey))
    ensures var s' := Apply(s, DuplicateRead(i, freshKey));
            && FaultsOf(s', i) == FaultsOf(s, i)
            && PhaseOf(s, i).CheckingDuplicate? && Undecided(PhaseOf(s', i))
  {
  }

  predicate ComesEarly(e: Event) {
    e.ReadFails? || e.JobRead? || e.UserRead? || e.CandidateRead? || e.CandidateInsert? || e.DuplicateRead?
  }

  lemma EarlyDecidesNothing(s: State, e: Event)
    requires Enabled(s, e) && ComesEarly(e)
    ensures FaultsOf(Apply(s, e), e.call) == FaultsOf(s, e.call)
    ensures Undecided(PhaseOf(s, e.call)) && !PhaseOf(s, e.call).Failed? && Undecided(PhaseOf(Apply(s, e), e.call))
  {
    match e {
      case CandidateInsert(i, ok, effect) => CandidateDecidesNothing(s, i, ok, effect);
      case DuplicateRead(i, freshKey) => CheckDecidesNothing(s, i, freshKey);
      case _ => ReadsDecideNothing(s, e);
    }
  }

  lemma NoNewFault(s: State, e: Event)
    requires Enabled(s, e) && Settles(e) && !MayFault(e)
    ensures FaultsOf(Apply(s, e), e.call) == FaultsOf(s, e.call) && !PhaseOf(Apply(s, e), e.call).DeletingFile?
    ensures !PhaseOf(s, e.call).Failed? && !PhaseOf(s, e.call).DeletingFile?
  {
    if ComesEarly(e) {
      EarlyDecidesNothing(s, e);
    }
  }

  /** A fault belongs to a request that comes late in a call and is followed by failure. */
  ghost predicate FaultsFit(phase: Phase, faults: Faults) {
    && (!phase.Failed? && !phase.DeletingFile? ==> faults == NO_FAULTS)
    && (phase.DeletingFile? ==> !faults.uploadLeftFile && !faults.fileDeleteFailed)
  }

  lemma FaultStep(s: State, e: Event)
    requires Enabled(s, e) && MayFault(e) && FaultsFit(PhaseOf(s, e.call), FaultsOf(s, e.call))
    ensures FaultsFit(PhaseOf(Apply(s, e), e.call), FaultsOf(Apply(s, e), e.call))
    ensures var before, after := FaultsOf(s, e.call), FaultsOf(Apply(s, e), e.call);
            && (after.uploadLeftFile <==> before.uploadLeftFile || (e.UploadSettles? && !e.ok && e.effect))
            && (after.insertLeftRow <==>
                  before.insertLeftRow || ((e.PlainInsertSettles? || e.InsertSettles?) && !e.ok && e.effect))
            && (after.rowDeleteFailed <==> before.rowDeleteFailed || (e.RowDeleteSettles? && !e.ok))
            && (after.fileDeleteFailed <==> before.fileDeleteFailed || (e.FileDeleteSettles? && !e.ok))
  {
  }

  lemma FaultsStep(s: State, e: Event, i: nat)
    requires Enabled(s, e) && FaultsFit(PhaseOf(s, i), FaultsOf(s, i))
    ensures FaultsFit(PhaseOf(Apply(s, e), i), FaultsOf(Apply(s, e), i))
    ensures var before, after := FaultsOf(s, i), FaultsOf(Apply(s, e), i);
            && (after.uploadLeftFile <==> before.uploadLeftFile || e == UploadSettles(i, false, true))
            && (after.insertLeftRow <==>
                  before.insertLeftRow || e == PlainInsertSettles(i, false, true) || e == InsertSettles(i, false, true))
            && (after.rowDeleteFailed <==>
                  before.rowDeleteFailed || (e.RowDeleteSettles? && e.call == i && !e.ok))
            && (after.fileDeleteFailed <==>
                  before.fileDeleteFailed || (e.FileDeleteSettles? && e.call == i && !e.ok))
  {
    if !(Settles(e) && e.call == i) {
      OtherCallStays(s, e, i);
    } else if MayFault(e) {
      FaultStep(s, e);
    } else {
      NoNewFault(s, e);
    }
  }

  lemma {:induction false} FaultsRun(s: State, es: seq<Event>, i: nat)
    requires FaultsFit(PhaseOf(s, i), FaultsOf(s, i)) && CanRun(s, es)
    ensures var before, after := FaultsOf(s, i), FaultsOf(Run(s, es), i);
            && (after.uploadLeftFile <==> before.uploadLeftFile || UploadSettles(i, false, true) in es)
            && (after.insertLeftRow <==>
                  || before.insertLeftRow
                  || PlainInsertSettles(i, false, true) in es || InsertSettles(i, false, true) in es)
            && (after.rowDeleteFailed <==>
                  before.rowDeleteFailed || exists e :: e in es && e.RowDeleteSettles? && e.call == i && !e.ok)
            && (after.fileDeleteFailed <==>
                  before.fileDeleteFailed || exists e :: e in es && e.FileDeleteSettles? && e.call == i && !e.ok)
    decreases es
  {
    if es != [] {
      assert forall e :: e in es <==> e == es[0] || e in es[1..];
      FaultsStep(s, es[0], i);
      FaultsRun(Apply(s, es[0]), es[1..], i);
    }
  }

  /**
   * In every run a fault of a call is on record exactly when the run holds the
   * request of that call that failed and took effect all the same, or the
   * delete of that call that failed.
   */
  lemma FaultsAreExact(s0: State, es: seq<Event>, i: nat)
    requires Initial(s0) && CanRun(s0, es) && i < |Run(s0, es).calls|
    ensures var faults := Run(s0, es).calls[i].faults;
            && (faults.uploadLeftFile <==> UploadSettles(i, false, true) in es)
            && (faults.insertLeftRow <==>
                  PlainInsertSettles(i, false, true) in es || InsertSettles(i, false, true) in es)
            && (faults.rowDeleteFailed <==> exists e :: e in es && e.RowDeleteSettles? && e.call == i && !e.ok)
            && (faults.fileDeleteFailed <==> exists e :: e in es && e.FileDeleteSettles? && e.call == i && !e.ok)
  {
    FaultsRun(s0, es, i);
  }

  // ---- A call has won exactly when its last request was granted ----

  lemma WinningStep(s: State, e: Event, i: nat)
    requires Enabled(s, e)
    ensures var before, after := PhaseOf(s, i), PhaseOf(Apply(s, e), i);
            && (after.Created? <==> before.Created? || e == PlainInsertSettles(i, true, true))
            && (Published(after) <==> Published(before) || e == PublishRuns(i, true))
  {
    if !(Settles(e) && e.call == i) {
      OtherCallStays(s, e, i);
    } else if e.PlainInsertSettles? || e.PublishRuns? || e.ResponseReady? {
    } else {
      NoWin(s, e);
    }
  }

  lemma NoWin(s: State, e: Event)
    requires Enabled(s, e) && Settles(e) && !e.PlainInsertSettles? && !e.PublishRuns? && !e.ResponseReady?
    ensures var before, after := PhaseOf(s, e.call), PhaseOf(Apply(s, e), e.call);
            !before.Created? && !Published(before) && !after.Created? && !Published(after)
  {
    if ComesEarly(e) {
      EarlyDecidesNothing(s, e);
    }
  }

  lemma {:induction false} WinningRun(s: State, es: seq<Event>, i: nat)
    requires CanRun(s, es)
    ensures var before, after := PhaseOf(s, i), PhaseOf(Run(s, es), i);
            && (after.Created? <==> before.Created? || PlainInsertSettles(i, true, true) in es)
            && (Published(after) <==> Published(before) || PublishRuns(i, true) in es)
    decreases es
  {
    if es != [] {
      assert forall e :: e in es <==> e == es[0] || e in es[1..];
      WinningStep(s, es[0], i);
      WinningRun(Apply(s, es[0]), es[1..], i);
    }
  }

  /**
   * In every run create() tells of success exactly when its INSERT was
   * granted, and createWithCv() exactly when its event went out.
   */
  lemma WinsAreGranted(s0: State, es: seq<Event>, i: nat)
    requires Initial(s0) && CanRun(s0, es) && i < |Run(s0, es).calls|
    ensures var phase := Run(s0, es).calls[i].phase;
            && (phase.Created? <==> PlainInsertSettles(i, true, true) in es)
            && (phase.Responding? || phase.Succeeded? <==> PublishRuns(i, true) in es)
  {
    WinningRun(s0, es, i);
  }

  // ---- Without lies and failures ----

  /** No request of call i failed and took effect all the same, and no delete of it failed. */
  ghost predicate HonestTo(es: seq<Event>, i: nat) {
    forall e :: e in es && Settles(e) && e.call == i ==>
      && (e.UploadSettles? || e.PlainInsertSettles? || e.InsertSettles? ==> e.ok == e.effect)
      && (e.RowDeleteSettles? || e.FileDeleteSettles? ==> e.ok)
  }

  lemma HonestyLeavesNoFault(s0: State, es: seq<Event>, i: nat)
    requires Initial(s0) && CanRun(s0, es) && i < |Run(s0, es).calls| && HonestTo(es, i)
    ensures Run(s0, es).calls[i].faults == NO_FAULTS
  {
    FaultsAreExact(s0, es, i);
  }

  /**
   * Whatever runs beside it, a finished upload that was served honestly has
   * its file, its row and its event exactly when its event was published.
   */
  lemma HonestUploadsAreAllOrNothing(s0: State, es: seq<Event>, i: nat, k: string)
    requires Initial(s0) && CanRun(s0, es) && HonestTo(es, i)
    requires var s := Run(s0, es);
             && i < |s.calls| && Over(s.calls[i].phase) && k in s.keyOwner && s.keyOwner[k] == i
    ensures var s := Run(s0, es);
            && (PublishRuns(i, true) in es <==> k in s.objects)
            && (PublishRuns(i, true) in es <==> exists a :: a in s.rows && s.rows[a].insertedBy == Some(i))
            && (PublishRuns(i, true) in es <==> exists e :: e in s.events && e.fileKey == k)
  {
    ReachableInv(s0, es);
    assert KeyOk(Run(s0, es), k) && CallOk(Run(s0, es), i);
    HonestyLeavesNoFault(s0, es, i);
    WinsAreGranted(s0, es, i);
    AtRestAllOrNothing(s0, es, i, k);
  }

  /** And a finished create() that was served honestly has its row exactly when its INSERT was granted. */
  lemma HonestCreatesAreAllOrNothing(s0: State, es: seq<Event>, i: nat)
    requires Initial(s0) && CanRun(s0, es) && HonestTo(es, i)
    requires var s := Run(s0, es); i < |s.calls| && s.calls[i].kind.Plain? && Over(s.calls[i].phase)
    ensures var s := Run(s0, es);
            PlainInsertSettles(i, true, true) in es <==> exists a :: a in s.rows && s.rows[a].insertedBy == Some(i)
  {
    ReachableInv(s0, es);
    var s := Run(s0, es);
    assert CallOk(s, i);
    HonestyLeavesNoFault(s0, es, i);
    WinsAreGranted(s0, es, i);
    if s.calls[i].phase.Created? {
      assert s.rows[s.calls[i].phase.applicationId].insertedBy == Some(i);
    } else {
      LosersLeaveNothing(s0, es, i);
    }
  }

  // ---- Withdrawn applications ----

  /** A withdrawn application is no duplicate to the check, and yet it keeps its pair taken. */
  lemma WithdrawnStaysTaken(s: State, a: Id)
    requires PairsUnique(s) && Enabled(s, RowWithdrawn(a))
    ensures var s' := Apply(s, RowWithdrawn(a));
            && a in s'.rows && s'.rows[a].deleted && s'.rows[a].status == "WITHDRAWN"
            && !LiveDuplicate(s'.rows, s.rows[a].jobId, s.rows[a].candidateId)
            && !PairFree(s'.rows, s.rows[a].jobId, s.rows[a].candidateId)
  {
  }

  /**
   * So who applies again passes the check, and the table refuses the row:
   * createWithCv() has a file to remove again, and nobody is told of a conflict.
   */
  lemma ReapplyingFails(s: State, i: nat, a: Id, freshKey: string)
    requires PairsUnique(s) && a in s.rows && s.rows[a].deleted && Enabled(s, DuplicateRead(i, freshKey))
    requires s.rows[a].jobId == s.calls[i].jobId && s.rows[a].candidateId == s.calls[i].phase.candidateId
    ensures var s1 := Apply(s, DuplicateRead(i, freshKey));
            && s1.calls[i].phase == (if s.calls[i].kind.Plain? then InsertingPlain(s.rows[a].candidateId)
                                     else Uploading(s.rows[a].candidateId, freshKey))
            && !PairFree(s1.rows, s1.calls[i].jobId, s1.calls[i].phase.candidateId)
  {
    assert !LiveDuplicate(s.rows, s.calls[i].jobId, s.calls[i].phase.candidateId);
  }

  /** A taken pair is refused to whoever inserts, and create() and createWithCv() go on as after any failed INSERT. */
  lemma TakenPairIsRefused(s: State, i: nat, ok: bool, effect: bool)
    requires i < |s.calls| && (s.calls[i].phase.InsertingPlain? || s.calls[i].phase.Inserting?)
    requires !PairFree(s.rows, s.calls[i].jobId, s.calls[i].phase.candidateId)
    ensures Enabled(s, PlainInsertSettles(i, ok, effect)) ==>
              !effect && Apply(s, PlainInsertSettles(i, ok, effect)).calls[i].phase == Failed(Internal)
    ensures Enabled(s, InsertSettles(i, ok, effect)) ==>
              && !effect
              && Apply(s, InsertSettles(i, ok, effect)).calls[i].phase == DeletingFile(s.calls[i].phase.fileKey)
  {
  }
}
