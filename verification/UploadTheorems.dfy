/** The promises of the upload protocol, for every run from every start. */
module UploadTheorems {
  import opened Options
  import opened UploadMachine
  import opened UploadSafety

  ghost predicate Referenced(s: State, k: string) {
    exists a :: a in s.rows && s.rows[a].fileKey == Some(k)
  }

  /**
   * A file in storage is referenced by a row, or its call is still running, or
   * its call failed and the storage had refused to undo (or to own up to) the upload.
   */
  lemma NoOrphanFiles(s0: State, es: seq<Event>, k: string)
    requires Initial(s0) && CanRun(s0, es)
    requires k in Run(s0, es).keyOwner && k in Run(s0, es).objects
    ensures var s := Run(s0, es);
            && s.keyOwner[k] < |s.calls|
            && var c := s.calls[s.keyOwner[k]];
            || Referenced(s, k) || !Over(c.phase)
            || (c.phase.Failed? && (c.faults.uploadLeftFile || c.faults.fileDeleteFailed))
  {
    var s := Run(s0, es);
    ReachableInv(s0, es);
    assert KeyOk(s, k);
    var c := s.calls[s.keyOwner[k]];
    assert CallOk(s, s.keyOwner[k]);
    if c.phase.Succeeded? {
      assert s.rows[c.phase.applicationId].fileKey == Some(k);
    }
  }

  /** A row of an upload whose file is gone was left by a failed delete or by an insert that reported failure. */
  lemma NoDanglingRows(s0: State, es: seq<Event>, a: Id, i: nat, k: string)
    requires Initial(s0) && CanRun(s0, es)
    requires var s := Run(s0, es);
             a in s.rows && s.rows[a].insertedBy == Some(i) && i < |s.calls| && s.calls[i].kind.WithCv?
             && s.rows[a].fileKey == Some(k) && k !in s.objects
    ensures var c := Run(s0, es).calls[i];
            (c.phase.Failed? || c.phase.DeletingFile?) && (c.faults.rowDeleteFailed || c.faults.insertLeftRow)
  {
    var s := Run(s0, es);
    ReachableInv(s0, es);
    assert RowOk(s, a) && CallOk(s, i);
  }

  /** A call that failed with every one of its requests honest has left neither a row nor a file. */
  lemma LosersLeaveNothing(s0: State, es: seq<Event>, i: nat)
    requires Initial(s0) && CanRun(s0, es)
    requires var s := Run(s0, es); i < |s.calls| && s.calls[i].phase.Failed? && s.calls[i].faults == NO_FAULTS
    ensures var s := Run(s0, es);
            && (forall a :: a in s.rows ==> s.rows[a].insertedBy != Some(i))
            && (forall k :: k in s.keyOwner && s.keyOwner[k] == i ==> k !in s.objects)
  {
    var s := Run(s0, es);
    ReachableInv(s0, es);
    forall a | a in s.rows ensures s.rows[a].insertedBy != Some(i) { assert RowOk(s, a); }
    forall k | k in s.keyOwner && s.keyOwner[k] == i ensures k !in s.objects { assert KeyOk(s, k); }
  }

  /** Every published event names an existing row with the same job, candidate and file, and an existing file. */
  lemma EventsAreSound(s0: State, es: seq<Event>, n: nat)
    requires Initial(s0) && CanRun(s0, es) && n < |Run(s0, es).events|
    ensures var s := Run(s0, es);
            var e := s.events[n];
            && e.fileKey in s.objects
            && e.applicationId in s.rows
            && var r := s.rows[e.applicationId];
            r.jobId == e.jobId && r.candidateId == e.candidateId && r.fileKey == Some(e.fileKey)
  {
    var s := Run(s0, es);
    ReachableInv(s0, es);
    assert EventOk(s, s.events[n]);
    assert CallOk(s, s.rows[s.events[n].applicationId].insertedBy.value);
  }

  /**
   * A finished upload call whose requests were all honest has its row, its
   * file and its event if it succeeded, and none of the three if it failed.
   */
  lemma AtRestAllOrNothing(s0: State, es: seq<Event>, i: nat, k: string)
    requires Initial(s0) && CanRun(s0, es)
    requires var s := Run(s0, es);
             && i < |s.calls| && Over(s.calls[i].phase) && s.calls[i].faults == NO_FAULTS
             && k in s.keyOwner && s.keyOwner[k] == i
    ensures var s := Run(s0, es);
            && (s.calls[i].phase.Succeeded? <==> k in s.objects)
            && (s.calls[i].phase.Succeeded? <==> exists a :: a in s.rows && s.rows[a].insertedBy == Some(i))
            && (s.calls[i].phase.Succeeded? <==> exists e :: e in s.events && e.fileKey == k)
  {
    var s := Run(s0, es);
    ReachableInv(s0, es);
    assert CallOk(s, i) && KeyOk(s, k);
    if s.calls[i].phase.Failed? {
      LosersLeaveNothing(s0, es, i);
      forall n | 0 <= n < |s.events| ensures s.events[n].fileKey != k {
        EventsAreSound(s0, es, n);
      }
    }
  }

  // ---- Winners ----

  /** The call has told, or is about to tell, its client that the application was made. */
  predicate Won(c: Call, jobId: Id, candidateId: Id) {
    (c.phase.Created? || Published(c.phase)) && c.jobId == jobId && c.phase.candidateId == candidateId
  }

  lemma WinStep(s: State, e: Event, i: nat, jobId: Id, candidateId: Id)
    requires Enabled(s, e) && i < |s.calls| && Won(s.calls[i], jobId, candidateId)
    ensures i < |Apply(s, e).calls| && Won(Apply(s, e).calls[i], jobId, candidateId)
  {
  }

  /** Nothing that happens later takes a win back, or an event out of the queue. */
  lemma {:induction false} WinsAreFinal(s: State, es: seq<Event>, i: nat, jobId: Id, candidateId: Id)
    requires CanRun(s, es) && i < |s.calls| && Won(s.calls[i], jobId, candidateId)
    ensures i < |Run(s, es).calls| && Won(Run(s, es).calls[i], jobId, candidateId)
    ensures s.events <= Run(s, es).events
    decreases es
  {
    if es != [] {
      OthersStay(s, es[0]);
      WinStep(s, es[0], i, jobId, candidateId);
      WinsAreFinal(Apply(s, es[0]), es[1..], i, jobId, candidateId);
    }
  }

  /** Over a whole run at most one call wins a pair, whatever was rolled back or withdrawn meanwhile. */
  lemma OneWinner(s0: State, es: seq<Event>, i: nat, j: nat, jobId: Id, candidateId: Id)
    requires Initial(s0) && CanRun(s0, es)
    requires var s := Run(s0, es);
             && i < |s.calls| && j < |s.calls|
             && Won(s.calls[i], jobId, candidateId) && Won(s.calls[j], jobId, candidateId)
    ensures i == j
  {
    var s := Run(s0, es);
    ReachableInv(s0, es);
    assert CallOk(s, i) && CallOk(s, j);
    var a, b := s.calls[i].phase.applicationId, s.calls[j].phase.applicationId;
    assert a == b;
  }

  /** No pair gets two events. */
  lemma OneEventPerPair(s0: State, es: seq<Event>, m: nat, n: nat)
    requires Initial(s0) && CanRun(s0, es) && m < n < |Run(s0, es).events|
    ensures var events := Run(s0, es).events;
            events[m].jobId != events[n].jobId || events[m].candidateId != events[n].candidateId
  {
    var s := Run(s0, es);
    ReachableInv(s0, es);
    EventsAreSound(s0, es, m);
    EventsAreSound(s0, es, n);
    assert s.events[m].applicationId != s.events[n].applicationId;
  }
}
