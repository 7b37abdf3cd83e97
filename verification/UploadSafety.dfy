/** What every interleaving of calls keeps across the three stores. */
module UploadSafety {
  import opened Options
  import opened UploadMachine

  // ---- The invariant ----

  /** The call has a row of its own in the table. */
  predicate KnowsRow(p: Phase) {
    p.Inserted? || p.Responding? || p.Succeeded? || p.DeletingRow?
  }

  /** The call has generated a key and not yet failed. */
  predicate KnowsKey(p: Phase) {
    p.Uploading? || p.Inserting? || KnowsRow(p) || p.DeletingFile?
  }

  predicate Over(p: Phase) {
    p.Created? || p.Succeeded? || p.Failed?
  }

  predicate Published(p: Phase) {
    p.Responding? || p.Succeeded?
  }

  ghost predicate HasRow(s: State, i: nat)
    requires i < |s.calls| && KnowsRow(s.calls[i].phase)
  {
    var c := s.calls[i];
    && c.phase.applicationId in s.rows
    && var r := s.rows[c.phase.applicationId];
    r == Row(c.jobId, c.phase.candidateId, Some(c.phase.fileKey), r.status, r.deleted, Some(i))
  }

  ghost predicate CallOk(s: State, i: nat)
    requires i < |s.calls|
  {
    var p := s.calls[i].phase;
    && (KnowsKey(p) ==>
          p.fileKey in s.keyOwner && s.keyOwner[p.fileKey] == i && (p.fileKey in s.objects <==> !p.Uploading?))
    && (KnowsRow(p) ==> HasRow(s, i))
    && (KnowsKey(p) ==> s.calls[i].kind.WithCv?)
    && (Published(p) ==> CvEvent(p.candidateId, p.applicationId, s.calls[i].jobId, p.fileKey) in s.events)
    && (p.InsertingPlain? || p.Created? ==> s.calls[i].kind.Plain?)
    && (p.Created? ==> p.applicationId in s.rows && var r := s.rows[p.applicationId];
                       r.jobId == s.calls[i].jobId && r.candidateId == p.candidateId && r.insertedBy == Some(i))
  }

  /** Why a file that call c generated the key k for is in storage. */
  ghost predicate KeyHeld(c: Call, k: string) {
    || (KnowsKey(c.phase) && c.phase.fileKey == k)
    || (c.phase.Failed? && (c.faults.uploadLeftFile || c.faults.fileDeleteFailed))
  }

  ghost predicate KeyOk(s: State, k: string)
    requires k in s.keyOwner
  {
    && s.keyOwner[k] < |s.calls|
    && var c := s.calls[s.keyOwner[k]];
    && (KnowsKey(c.phase) || c.phase.Failed?)
    && (KnowsKey(c.phase) ==> c.phase.fileKey == k)
    && (k in s.objects ==> KeyHeld(c, k))
  }

  /** Why the row a, which call c inserted, is in the table. */
  ghost predicate RowHeld(c: Call, a: Id) {
    || ((KnowsRow(c.phase) || c.phase.Created?) && c.phase.applicationId == a)
    || ((c.phase.Failed? || c.phase.DeletingFile?) && (c.faults.insertLeftRow || c.faults.rowDeleteFailed))
  }

  ghost predicate RowOk(s: State, a: Id)
    requires a in s.rows
  {
    && a < s.nextId
    && (s.rows[a].insertedBy.Some? ==>
          s.rows[a].insertedBy.value < |s.calls| && RowHeld(s.calls[s.rows[a].insertedBy.value], a))
  }

  ghost predicate PairsUnique(s: State) {
    forall a, b :: a in s.rows && b in s.rows && a != b ==>
      s.rows[a].jobId != s.rows[b].jobId || s.rows[a].candidateId != s.rows[b].candidateId
  }

  /** The event names a row whose call has published, and agrees with that call. */
  ghost predicate EventOk(s: State, e: CvEvent) {
    && e.applicationId in s.rows
    && s.rows[e.applicationId].insertedBy.Some?
    && s.rows[e.applicationId].insertedBy.value < |s.calls|
    && var c := s.calls[s.rows[e.applicationId].insertedBy.value];
    Published(c.phase) && e == CvEvent(c.phase.candidateId, c.phase.applicationId, c.jobId, c.phase.fileKey)
  }

  ghost predicate Inv(s: State) {
    && (forall i :: 0 <= i < |s.calls| ==> CallOk(s, i))
    && (forall k :: k in s.keyOwner ==> KeyOk(s, k))
    && (forall a :: a in s.rows ==> RowOk(s, a))
    && PairsUnique(s)
    && (forall n :: 0 <= n < |s.events| ==> EventOk(s, s.events[n]))
    && (forall m, n :: 0 <= m < n < |s.events| ==> s.events[m].applicationId != s.events[n].applicationId)
  }

  /** A start: rows and objects from earlier, but no calls, generated keys or events of this run. */
  ghost predicate Initial(s: State) {
    && s.calls == [] && s.events == [] && s.keyOwner == map[]
    && (forall a :: a in s.rows ==> a < s.nextId && s.rows[a].insertedBy.None?)
    && PairsUnique(s)
  }

  // ---- Its preservation, store by store ----

  /** Events stay sound as long as the rows and the phases of the calls that published them do. */
  lemma EventsStay(s: State, s': State)
    requires Inv(s) && s'.events == s.events && |s.calls| <= |s'.calls|
    requires forall j :: 0 <= j < |s.calls| && Published(s.calls[j].phase) ==> s'.calls[j] == s.calls[j]
    requires forall a :: a in s.rows ==> a in s'.rows && s'.rows[a].insertedBy == s.rows[a].insertedBy
    ensures forall n :: 0 <= n < |s'.events| ==> EventOk(s', s'.events[n])
  {
  }

  /** A call that owns nothing yet and still owns nothing, or has failed. */
  lemma EarlyMoveKeeps(s: State, i: nat, p: Phase)
    requires Inv(s) && i < |s.calls|
    requires Reading(s.calls[i].phase) || s.calls[i].phase.CreatingCandidate?
    requires Reading(p) || p.CreatingCandidate? || p.InsertingPlain? || p.Failed?
    requires p.InsertingPlain? ==> s.calls[i].kind.Plain?
    ensures Inv(Goto(s, i, p))
  {
    var s' := Goto(s, i, p);
    forall j | 0 <= j < |s'.calls| ensures CallOk(s', j) { assert CallOk(s, j); }
    forall k | k in s'.keyOwner ensures KeyOk(s', k) { assert KeyOk(s, k); }
    forall a | a in s'.rows ensures RowOk(s', a) { assert RowOk(s, a); }
    EventsStay(s, s');
  }

  lemma UploadStartKeeps(s: State, i: nat, candidateId: Id, key: string)
    requires Inv(s) && i < |s.calls| && s.calls[i].phase.CheckingDuplicate? && s.calls[i].kind.WithCv?
    requires key !in s.keyOwner && key !in s.objects
    ensures Inv(Goto(s, i, Uploading(candidateId, key)).(keyOwner := s.keyOwner[key := i]))
  {
    var s' := Goto(s, i, Uploading(candidateId, key)).(keyOwner := s.keyOwner[key := i]);
    forall j | 0 <= j < |s'.calls| ensures CallOk(s', j) { assert CallOk(s, j); }
    forall k | k in s'.keyOwner ensures KeyOk(s', k) { if k != key { assert KeyOk(s, k); } }
    forall a | a in s'.rows ensures RowOk(s', a) { assert RowOk(s, a); }
    EventsStay(s, s');
  }

  lemma UploadKeeps(s: State, i: nat, ok: bool, effect: bool)
    requires Inv(s) && Enabled(s, UploadSettles(i, ok, effect))
    ensures Inv(Apply(s, UploadSettles(i, ok, effect)))
  {
    var s' := Apply(s, UploadSettles(i, ok, effect));
    forall j | 0 <= j < |s'.calls| ensures CallOk(s', j) { assert CallOk(s, i) && CallOk(s, j); }
    forall k | k in s'.keyOwner ensures KeyOk(s', k) { assert CallOk(s, i) && KeyOk(s, k); }
    forall a | a in s'.rows ensures RowOk(s', a) { assert RowOk(s, a); }
    EventsStay(s, s');
  }

  /** What a call makes of an INSERT that took effect: it knows the new row, or the fault is on record. */
  ghost predicate SettlesInsert(s: State, i: nat, candidateId: Id, key: Option<string>, c: Call)
    requires i < |s.calls|
  {
    var p := s.calls[i].phase;
    && c == s.calls[i].(phase := c.phase, faults := c.faults)
    && (p.InsertingPlain? || p.Inserting?)
    && (p.InsertingPlain? ==> c.phase == Created(candidateId, s.nextId) || (c.phase.Failed? && c.faults.insertLeftRow))
    && (p.Inserting? ==>
          && key == Some(p.fileKey)
          && (|| c.phase == Inserted(candidateId, p.fileKey, s.nextId)
              || (c.phase == DeletingFile(p.fileKey) && c.faults.insertLeftRow)))
  }

  /** The unique key of the table is what keeps the pairs apart. */
  lemma InsertKeepsRows(s: State, i: nat, candidateId: Id, key: Option<string>, c: Call)
    requires Inv(s) && i < |s.calls| && PairFree(s.rows, s.calls[i].jobId, candidateId)
    requires SettlesInsert(s, i, candidateId, key, c)
    ensures var s' := Put(InsertRow(s, i, candidateId, key), i, c);
            s.nextId !in s.rows && PairsUnique(s') && forall a :: a in s'.rows ==> RowOk(s', a)
  {
    var s' := Put(InsertRow(s, i, candidateId, key), i, c);
    forall a | a in s.rows ensures a < s.nextId { assert RowOk(s, a); }
    forall a | a in s'.rows ensures RowOk(s', a) { if a in s.rows { assert RowOk(s, a); } }
  }

  lemma InsertKeeps(s: State, i: nat, candidateId: Id, key: Option<string>, c: Call)
    requires Inv(s) && i < |s.calls| && PairFree(s.rows, s.calls[i].jobId, candidateId)
    requires SettlesInsert(s, i, candidateId, key, c)
    ensures Inv(Put(InsertRow(s, i, candidateId, key), i, c))
  {
    var s' := Put(InsertRow(s, i, candidateId, key), i, c);
    InsertKeepsRows(s, i, candidateId, key, c);
    forall j | 0 <= j < |s'.calls| ensures CallOk(s', j) { assert CallOk(s, j); }
    forall k | k in s'.keyOwner ensures KeyOk(s', k) { assert KeyOk(s, k); }
    EventsStay(s, s');
  }

  /** A refused INSERT only moves its call on. */
  lemma RefusedInsertKeeps(s: State, i: nat, e: Event)
    requires Inv(s) && Enabled(s, e)
    requires e == PlainInsertSettles(i, false, false) || e == InsertSettles(i, false, false)
    ensures Inv(Apply(s, e))
  {
    var s' := Apply(s, e);
    forall j | 0 <= j < |s'.calls| ensures CallOk(s', j) { assert CallOk(s, j); }
    forall k | k in s'.keyOwner ensures KeyOk(s', k) { assert KeyOk(s, k); }
    forall a | a in s'.rows ensures RowOk(s', a) { assert RowOk(s, a); }
    EventsStay(s, s');
  }

  lemma NotYetPublished(s: State, i: nat)
    requires Inv(s) && i < |s.calls| && s.calls[i].phase.Inserted?
    ensures forall n :: 0 <= n < |s.events| ==> s.events[n].applicationId != s.calls[i].phase.applicationId
  {
    assert CallOk(s, i);
    forall n | 0 <= n < |s.events|
      ensures s.events[n].applicationId != s.calls[i].phase.applicationId
    {
      assert EventOk(s, s.events[n]);
    }
  }

  lemma PublishKeeps(s: State, i: nat, ok: bool)
    requires Inv(s) && Enabled(s, PublishRuns(i, ok))
    ensures Inv(Apply(s, PublishRuns(i, ok)))
  {
    var s' := Apply(s, PublishRuns(i, ok));
    assert CallOk(s, i);
    NotYetPublished(s, i);
    EventsStay(s, s'.(events := s.events));
    forall j | 0 <= j < |s'.calls| ensures CallOk(s', j) { assert CallOk(s, j); }
    forall k | k in s'.keyOwner ensures KeyOk(s', k) { assert KeyOk(s, k); }
    forall a | a in s'.rows ensures RowOk(s', a) { assert RowOk(s, a); }
    forall n | 0 <= n < |s.events|
      ensures EventOk(s', s.events[n])
    {
      assert EventOk(s'.(events := s.events), s.events[n]);
    }
  }

  lemma RespondKeeps(s: State, i: nat)
    requires Inv(s) && Enabled(s, ResponseReady(i))
    ensures Inv(Apply(s, ResponseReady(i)))
  {
    var s' := Apply(s, ResponseReady(i));
    forall j | 0 <= j < |s'.calls| ensures CallOk(s', j) { assert CallOk(s, j); }
    forall k | k in s'.keyOwner ensures KeyOk(s', k) { assert KeyOk(s, k); }
    forall a | a in s'.rows ensures RowOk(s', a) { assert RowOk(s, a); }
    forall n | 0 <= n < |s'.events| ensures EventOk(s', s'.events[n]) { assert EventOk(s, s.events[n]); }
  }

  lemma RowDeleteKeeps(s: State, i: nat, ok: bool, effect: bool)
    requires Inv(s) && Enabled(s, RowDeleteSettles(i, ok, effect))
    ensures Inv(Apply(s, RowDeleteSettles(i, ok, effect)))
  {
    var s' := Apply(s, RowDeleteSettles(i, ok, effect));
    assert CallOk(s, i);
    forall j | 0 <= j < |s'.calls| ensures CallOk(s', j) { assert CallOk(s, j); }
    forall k | k in s'.keyOwner ensures KeyOk(s', k) { assert KeyOk(s, k); }
    forall a | a in s'.rows ensures RowOk(s', a) { assert RowOk(s, a); }
    forall n | 0 <= n < |s'.events| ensures EventOk(s', s'.events[n]) { assert EventOk(s, s.events[n]); }
  }

  lemma FileDeleteKeeps(s: State, i: nat, ok: bool, effect: bool)
    requires Inv(s) && Enabled(s, FileDeleteSettles(i, ok, effect))
    ensures Inv(Apply(s, FileDeleteSettles(i, ok, effect)))
  {
    var s' := Apply(s, FileDeleteSettles(i, ok, effect));
    assert CallOk(s, i);
    forall j | 0 <= j < |s'.calls| ensures CallOk(s', j) { assert CallOk(s, j); }
    forall k | k in s'.keyOwner ensures KeyOk(s', k) { assert KeyOk(s, k); }
    forall a | a in s'.rows ensures RowOk(s', a) { assert RowOk(s, a); }
    EventsStay(s, s');
  }

  /** update() and remove() touch neither the pair nor the file key of a row. */
  lemma RowChangeKeeps(s: State, a: Id, r: Row)
    requires Inv(s) && a in s.rows && r == s.rows[a].(status := r.status, deleted := r.deleted)
    ensures Inv(s.(rows := s.rows[a := r]))
  {
    var s' := s.(rows := s.rows[a := r]);
    forall j | 0 <= j < |s'.calls| ensures CallOk(s', j) { assert CallOk(s, j); }
    forall k | k in s'.keyOwner ensures KeyOk(s', k) { assert KeyOk(s, k); }
    forall b | b in s'.rows ensures RowOk(s', b) { assert RowOk(s, b); }
    EventsStay(s, s');
  }

  lemma StartKeeps(s: State, kind: Kind, userId: Id, jobId: Id)
    requires Inv(s)
    ensures Inv(Apply(s, Start(kind, userId, jobId)))
  {
    var s' := Apply(s, Start(kind, userId, jobId));
    forall j | 0 <= j < |s'.calls| ensures CallOk(s', j) { if j < |s.calls| { assert CallOk(s, j); } }
    forall k | k in s'.keyOwner ensures KeyOk(s', k) { assert KeyOk(s, k); }
    forall a | a in s'.rows ensures RowOk(s', a) { assert RowOk(s, a); }
    EventsStay(s, s');
  }

  lemma OutsideKeeps(s: State, s': State)
    requires Inv(s) && s' == s.(jobs := s'.jobs, candidates := s'.candidates, nextId := s'.nextId)
    requires s.nextId <= s'.nextId
    ensures Inv(s')
  {
    forall j | 0 <= j < |s'.calls| ensures CallOk(s', j) { assert CallOk(s, j); }
    forall k | k in s'.keyOwner ensures KeyOk(s', k) { assert KeyOk(s, k); }
    forall a | a in s'.rows ensures RowOk(s', a) { assert RowOk(s, a); }
    EventsStay(s, s');
  }

  /** The events before a call has anything of its own. */
  lemma CandidateStep(s: State, i: nat, ok: bool, effect: bool)
    requires Inv(s) && Enabled(s, CandidateInsert(i, ok, effect))
    ensures Inv(Apply(s, CandidateInsert(i, ok, effect)))
  {
    var next := if ok then CheckingDuplicate(s.nextId) else Failed(Internal);
    EarlyMoveKeeps(s, i, next);
    OutsideKeeps(Goto(s, i, next), Apply(s, CandidateInsert(i, ok, effect)));
  }

  lemma EarlyStep(s: State, e: Event)
    requires Inv(s) && Enabled(s, e)
    requires e.ReadFails? || e.JobRead? || e.UserRead? || e.CandidateRead? || e.CandidateInsert? || e.DuplicateRead?
    ensures Inv(Apply(s, e))
  {
    var p := s.calls[e.call].phase;
    if e.CandidateInsert? {
      CandidateStep(s, e.call, e.ok, e.effect);
    } else if e.DuplicateRead? && s.calls[e.call].kind.WithCv? &&
              !LiveDuplicate(s.rows, s.calls[e.call].jobId, p.candidateId) {
      UploadStartKeeps(s, e.call, p.candidateId, e.freshKey);
    } else {
      EarlyMoveKeeps(s, e.call, Apply(s, e).calls[e.call].phase);
    }
  }

  lemma InsertStep(s: State, e: Event)
    requires Inv(s) && Enabled(s, e) && (e.PlainInsertSettles? || e.InsertSettles?)
    ensures Inv(Apply(s, e))
  {
    var c := s.calls[e.call];
    if !e.effect {
      RefusedInsertKeeps(s, e.call, e);
    } else if e.InsertSettles? {
      InsertKeeps(s, e.call, c.phase.candidateId, Some(c.phase.fileKey), Apply(s, e).calls[e.call]);
    } else {
      assert c.kind.Plain? by { assert CallOk(s, e.call); }
      InsertKeeps(s, e.call, c.phase.candidateId, c.kind.clientKey, Apply(s, e).calls[e.call]);
    }
  }

  lemma InvStep(s: State, e: Event)
    requires Inv(s) && Enabled(s, e)
    ensures Inv(Apply(s, e))
  {
    match e
    case Start(kind, user, job) => StartKeeps(s, kind, user, job);
    case UploadSettles(i, ok, effect) => UploadKeeps(s, i, ok, effect);
    case PlainInsertSettles(_, _, _) => InsertStep(s, e);
    case InsertSettles(_, _, _) => InsertStep(s, e);
    case PublishRuns(i, ok) => PublishKeeps(s, i, ok);
    case ResponseReady(i) => RespondKeeps(s, i);
    case RowDeleteSettles(i, ok, effect) => RowDeleteKeeps(s, i, ok, effect);
    case FileDeleteSettles(i, ok, effect) => FileDeleteKeeps(s, i, ok, effect);
    case RowUpdated(a, status) => RowChangeKeeps(s, a, s.rows[a].(status := status));
    case RowWithdrawn(a) => RowChangeKeeps(s, a, s.rows[a].(status := "WITHDRAWN", deleted := true));
    case JobChanged(_, _) => OutsideKeeps(s, Apply(s, e));
    case _ => EarlyStep(s, e);
  }

  lemma {:induction false} InvRun(s: State, es: seq<Event>)
    requires Inv(s) && CanRun(s, es)
    ensures Inv(Run(s, es))
    decreases es
  {
    if es != [] {
      InvStep(s, es[0]);
      InvRun(Apply(s, es[0]), es[1..]);
    }
  }

  lemma ReachableInv(s0: State, es: seq<Event>)
    requires Initial(s0) && CanRun(s0, es)
    ensures Inv(Run(s0, es))
  {
    InvRun(s0, es);
  }
}
