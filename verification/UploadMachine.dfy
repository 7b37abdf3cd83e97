/**
 * Creating, updating and withdrawing applications as a labelled transition
 * system over three stores: the application table, the object storage and the
 * event queue (api-gateway/src/applications/applications.service.ts:66-332, 493-592).
 *
 * Any number of calls run interleaved.  A request to a store takes effect in
 * the event that settles it; the code that runs on the answer belongs to that
 * event when all it does is issue the next request.  Rows, candidates and file
 * keys are given fresh names, as UUIDs are.
 */
module UploadMachine {
  import opened Options

  type Id = nat

  datatype Job = Job(open: bool, deleted: bool)

  /** insertedBy is history: the call whose INSERT made the row, if it was one of this run. */
  datatype Row = Row(
    jobId: Id, candidateId: Id, fileKey: Option<string>, status: string, deleted: bool, insertedBy: Option<nat>)

  datatype CvEvent = CvEvent(candidateId: Id, applicationId: Id, jobId: Id, fileKey: string)

  /** create() takes a file key from the client, createWithCv() uploads a file of its own. */
  datatype Kind = Plain(clientKey: Option<string>) | WithCv

  datatype Error = NotFound | Forbidden | Conflict | Internal

  /** The request a call is waiting for, with the local variables it will use. */
  datatype Phase =
    | FindingJob
    | FindingUser
    | FindingCandidate(email: string)
    | CreatingCandidate(email: string)
    | CheckingDuplicate(candidateId: Id)
    // create()
    | InsertingPlain(candidateId: Id)
    | Created(candidateId: Id, applicationId: Id)
    // createWithCv()
    | Uploading(candidateId: Id, fileKey: string)
    | Inserting(candidateId: Id, fileKey: string)
    | Inserted(candidateId: Id, fileKey: string, applicationId: Id)     // the code after the INSERT has not run
    | Responding(candidateId: Id, fileKey: string, applicationId: Id)   // the event is out, the URL is pending
    | Succeeded(candidateId: Id, fileKey: string, applicationId: Id)
    | DeletingRow(candidateId: Id, fileKey: string, applicationId: Id)
    | DeletingFile(fileKey: string)
    | Failed(error: Error)

  /** History: what a failed request of the call left behind. */
  datatype Faults = Faults(uploadLeftFile: bool, insertLeftRow: bool, rowDeleteFailed: bool, fileDeleteFailed: bool)

  const NO_FAULTS := Faults(false, false, false, false)

  datatype Call = Call(kind: Kind, userId: Id, jobId: Id, phase: Phase, faults: Faults)

  datatype State = State(
    jobs: map<Id, Job>,
    users: map<Id, string>,
    candidates: map<string, Id>,
    rows: map<Id, Row>,
    objects: set<string>,
    events: seq<CvEvent>,
    calls: seq<Call>,
    keyOwner: map<string, nat>,   // history: which call generated a key
    nextId: Id)

  datatype Event =
    | Start(kind: Kind, userId: Id, jobId: Id)
    | ReadFails(call: nat)
    | JobRead(call: nat)
    | UserRead(call: nat)
    | CandidateRead(call: nat)
    | CandidateInsert(call: nat, ok: bool, effect: bool)
    | DuplicateRead(call: nat, freshKey: string)
    | UploadSettles(call: nat, ok: bool, effect: bool)
    | PlainInsertSettles(call: nat, ok: bool, effect: bool)
    | InsertSettles(call: nat, ok: bool, effect: bool)
    | PublishRuns(call: nat, ok: bool)
    | ResponseReady(call: nat)
    | RowDeleteSettles(call: nat, ok: bool, effect: bool)
    | FileDeleteSettles(call: nat, ok: bool, effect: bool)
    | RowUpdated(row: Id, status: string)
    | RowWithdrawn(row: Id)
    | JobChanged(jobId: Id, job: Job)

  /** No application at all for the pair, withdrawn ones included: the unique key of the table. */
  predicate PairFree(rows: map<Id, Row>, jobId: Id, candidateId: Id) {
    forall a :: a in rows ==> rows[a].jobId != jobId || rows[a].candidateId != candidateId
  }

  /** What the duplicate check of the service looks for. */
  predicate LiveDuplicate(rows: map<Id, Row>, jobId: Id, candidateId: Id) {
    exists a :: a in rows && rows[a].jobId == jobId && rows[a].candidateId == candidateId && !rows[a].deleted
  }

  predicate Reading(p: Phase) {
    p.FindingJob? || p.FindingUser? || p.FindingCandidate? || p.CheckingDuplicate?
  }

  /** A failed request may have taken effect all the same; a successful one has. */
  predicate Enabled(s: State, e: Event) {
    match e
    case Start(_, _, _) => true
    case ReadFails(i) => i < |s.calls| && Reading(s.calls[i].phase)
    case JobRead(i) => i < |s.calls| && s.calls[i].phase.FindingJob?
    case UserRead(i) => i < |s.calls| && s.calls[i].phase.FindingUser?
    case CandidateRead(i) => i < |s.calls| && s.calls[i].phase.FindingCandidate?
    case CandidateInsert(i, ok, effect) =>
      && i < |s.calls| && s.calls[i].phase.CreatingCandidate?
      && (ok ==> effect) && (effect ==> s.calls[i].phase.email !in s.candidates)
    case DuplicateRead(i, k) =>
      && i < |s.calls| && s.calls[i].phase.CheckingDuplicate?
      && (s.calls[i].kind.WithCv? ==> k !in s.keyOwner && k !in s.objects)
    case UploadSettles(i, ok, effect) => i < |s.calls| && s.calls[i].phase.Uploading? && (ok ==> effect)
    case PlainInsertSettles(i, ok, effect) =>
      && i < |s.calls| && s.calls[i].phase.InsertingPlain?
      && (ok ==> effect) && (effect ==> PairFree(s.rows, s.calls[i].jobId, s.calls[i].phase.candidateId))
    case InsertSettles(i, ok, effect) =>
      && i < |s.calls| && s.calls[i].phase.Inserting?
      && (ok ==> effect) && (effect ==> PairFree(s.rows, s.calls[i].jobId, s.calls[i].phase.candidateId))
    case PublishRuns(i, _) => i < |s.calls| && s.calls[i].phase.Inserted?
    case ResponseReady(i) => i < |s.calls| && s.calls[i].phase.Responding?
    case RowDeleteSettles(i, ok, effect) => i < |s.calls| && s.calls[i].phase.DeletingRow? && (ok ==> effect)
    case FileDeleteSettles(i, ok, effect) => i < |s.calls| && s.calls[i].phase.DeletingFile? && (ok ==> effect)
    case RowUpdated(a, _) => a in s.rows
    case RowWithdrawn(a) => a in s.rows
    case JobChanged(_, _) => true
  }

  /** s' may differ from s in the stores, but in no call except i. */
  predicate OnlyCall(s: State, s': State, i: nat) {
    i < |s.calls| == |s'.calls| && s'.calls == s.calls[i := s'.calls[i]] && s.events <= s'.events
  }

  function Put(s: State, i: nat, c: Call): (s': State)
    requires i < |s.calls|
    ensures OnlyCall(s, s', i)
  {
    s.(calls := s.calls[i := c])
  }

  function Goto(s: State, i: nat, p: Phase): (s': State)
    requires i < |s.calls|
    ensures OnlyCall(s, s', i)
  {
    Put(s, i, s.calls[i].(phase := p))
  }

  function OnJob(s: State, jobId: Id): Phase {
    if jobId !in s.jobs || s.jobs[jobId].deleted then Failed(NotFound)
    else if !s.jobs[jobId].open then Failed(Forbidden)
    else FindingUser
  }

  function OnUser(s: State, userId: Id): Phase {
    if userId !in s.users then Failed(NotFound) else FindingCandidate(s.users[userId])
  }

  function OnCandidate(s: State, email: string): Phase {
    if email in s.candidates then CheckingDuplicate(s.candidates[email]) else CreatingCandidate(email)
  }

  function OnCandidateInsert(s: State, i: nat, email: string, ok: bool, effect: bool): (s': State)
    requires i < |s.calls|
    ensures OnlyCall(s, s', i)
  {
    var settled := Goto(s, i, if ok then CheckingDuplicate(s.nextId) else Failed(Internal));
    if effect then settled.(candidates := s.candidates[email := s.nextId], nextId := s.nextId + 1) else settled
  }

  function OnDuplicate(s: State, i: nat, candidateId: Id, freshKey: string): (s': State)
    requires i < |s.calls|
    ensures OnlyCall(s, s', i)
  {
    if LiveDuplicate(s.rows, s.calls[i].jobId, candidateId) then Goto(s, i, Failed(Conflict))
    else if s.calls[i].kind.Plain? then Goto(s, i, InsertingPlain(candidateId))
    else Goto(s, i, Uploading(candidateId, freshKey)).(keyOwner := s.keyOwner[freshKey := i])
  }

  function OnUpload(s: State, i: nat, candidateId: Id, key: string, ok: bool, effect: bool): (s': State)
    requires i < |s.calls|
    ensures OnlyCall(s, s', i)
  {
    var c := s.calls[i];
    var settled := if ok then c.(phase := Inserting(candidateId, key))
                   else c.(phase := Failed(Internal), faults := c.faults.(uploadLeftFile := effect));
    Put(s, i, settled).(objects := if effect then s.objects + {key} else s.objects)
  }

  function InsertRow(s: State, i: nat, candidateId: Id, key: Option<string>): State
    requires i < |s.calls|
  {
    s.(rows := s.rows[s.nextId := Row(s.calls[i].jobId, candidateId, key, "SUBMITTED", false, Some(i))],
       nextId := s.nextId + 1)
  }

  function OnPlainInsert(s: State, i: nat, candidateId: Id, key: Option<string>, ok: bool, effect: bool): (s': State)
    requires i < |s.calls|
    ensures OnlyCall(s, s', i)
  {
    var c := s.calls[i];
    var settled := if ok then c.(phase := Created(candidateId, s.nextId))
                   else c.(phase := Failed(Internal), faults := c.faults.(insertLeftRow := effect));
    Put(if effect then InsertRow(s, i, candidateId, key) else s, i, settled)
  }

  function OnInsert(s: State, i: nat, candidateId: Id, key: string, ok: bool, effect: bool): (s': State)
    requires i < |s.calls|
    ensures OnlyCall(s, s', i)
  {
    var c := s.calls[i];
    var settled := if ok then c.(phase := Inserted(candidateId, key, s.nextId))
                   else c.(phase := DeletingFile(key), faults := c.faults.(insertLeftRow := effect));
    Put(if effect then InsertRow(s, i, candidateId, Some(key)) else s, i, settled)
  }

  /** A failed publish is taken to leave nothing in the queue. */
  function OnPublish(s: State, i: nat, candidateId: Id, key: string, applicationId: Id, ok: bool): (s': State)
    requires i < |s.calls|
    ensures OnlyCall(s, s', i)
  {
    if ok then
      Goto(s, i, Responding(candidateId, key, applicationId))
      .(events := s.events + [CvEvent(candidateId, applicationId, s.calls[i].jobId, key)])
    else Goto(s, i, DeletingRow(candidateId, key, applicationId))
  }

  function OnRowDelete(s: State, i: nat, key: string, applicationId: Id, ok: bool, effect: bool): (s': State)
    requires i < |s.calls|
    ensures OnlyCall(s, s', i)
  {
    var c := s.calls[i];
    Put(s, i, c.(phase := DeletingFile(key), faults := c.faults.(rowDeleteFailed := !ok)))
    .(rows := if effect then s.rows - {applicationId} else s.rows)
  }

  function OnFileDelete(s: State, i: nat, key: string, ok: bool, effect: bool): (s': State)
    requires i < |s.calls|
    ensures OnlyCall(s, s', i)
  {
    var c := s.calls[i];
    Put(s, i, c.(phase := Failed(Internal), faults := c.faults.(fileDeleteFailed := !ok)))
    .(objects := if effect then s.objects - {key} else s.objects)
  }

  /** An event that settles a request of a call. */
  predicate Settles(e: Event) {
    !(e.Start? || e.RowUpdated? || e.RowWithdrawn? || e.JobChanged?)
  }

  function Apply(s: State, e: Event): State
    requires Enabled(s, e)
  {
    match e
    case Start(kind, user, job) => s.(calls := s.calls + [Call(kind, user, job, FindingJob, NO_FAULTS)])
    case ReadFails(i) => Goto(s, i, Failed(Internal))
    case JobRead(i) => Goto(s, i, OnJob(s, s.calls[i].jobId))
    case UserRead(i) => Goto(s, i, OnUser(s, s.calls[i].userId))
    case CandidateRead(i) => Goto(s, i, OnCandidate(s, s.calls[i].phase.email))
    case CandidateInsert(i, ok, effect) => OnCandidateInsert(s, i, s.calls[i].phase.email, ok, effect)
    case DuplicateRead(i, k) => OnDuplicate(s, i, s.calls[i].phase.candidateId, k)
    case UploadSettles(i, ok, effect) =>
      OnUpload(s, i, s.calls[i].phase.candidateId, s.calls[i].phase.fileKey, ok, effect)
    case PlainInsertSettles(i, ok, effect) =>
      var clientKey := if s.calls[i].kind.Plain? then s.calls[i].kind.clientKey else None;
      OnPlainInsert(s, i, s.calls[i].phase.candidateId, clientKey, ok, effect)
    case InsertSettles(i, ok, effect) =>
      OnInsert(s, i, s.calls[i].phase.candidateId, s.calls[i].phase.fileKey, ok, effect)
    case PublishRuns(i, ok) =>
      OnPublish(s, i, s.calls[i].phase.candidateId, s.calls[i].phase.fileKey, s.calls[i].phase.applicationId, ok)
    case ResponseReady(i) =>
      Goto(s, i, Succeeded(s.calls[i].phase.candidateId, s.calls[i].phase.fileKey, s.calls[i].phase.applicationId))
    case RowDeleteSettles(i, ok, effect) =>
      OnRowDelete(s, i, s.calls[i].phase.fileKey, s.calls[i].phase.applicationId, ok, effect)
    case FileDeleteSettles(i, ok, effect) => OnFileDelete(s, i, s.calls[i].phase.fileKey, ok, effect)
    case RowUpdated(a, status) => s.(rows := s.rows[a := s.rows[a].(status := status)])
    case RowWithdrawn(a) => s.(rows := s.rows[a := s.rows[a].(status := "WITHDRAWN", deleted := true)])
    case JobChanged(j, job) => s.(jobs := s.jobs[j := job])
  }

  lemma OthersStay(s: State, e: Event)
    requires Enabled(s, e)
    ensures if Settles(e) then OnlyCall(s, Apply(s, e), e.call)
            else s.calls <= Apply(s, e).calls && s.events == Apply(s, e).events
  {
  }

  predicate CanRun(s: State, es: seq<Event>)
    decreases es
  {
    es == [] || (Enabled(s, es[0]) && CanRun(Apply(s, es[0]), es[1..]))
  }

  function Run(s: State, es: seq<Event>): State
    requires CanRun(s, es)
    decreases es
  {
    if es == [] then s else Run(Apply(s, es[0]), es[1..])
  }

  lemma {:induction false} RunSnoc(s: State, es: seq<Event>, e: Event)
    requires CanRun(s, es) && Enabled(Run(s, es), e)
    ensures CanRun(s, es + [e]) && Run(s, es + [e]) == Apply(Run(s, es), e)
    decreases es
  {
    if es == [] {
      assert [e][1..] == [];
    } else {
      assert (es + [e])[1..] == es[1..] + [e];
      RunSnoc(Apply(s, es[0]), es[1..], e);
    }
  }
}
