/**
 * ApplicationsService over its three stores: a method for each stretch of code
 * that runs on an answer, proved to be its event of UploadMachine, and
 * create() and createWithCv() run from start to end by themselves.
 */
module ApplicationsServices {
  import opened Options
  import opened UploadMachine

  /** Which requests of one lone call are granted; a refused one has no effect. */
  datatype Plan = Plan(
    jobRead: bool, userRead: bool, candidateRead: bool, candidateInsert: bool,
    duplicateRead: bool, upload: bool, insert: bool, publish: bool)

  datatype Result = Ok(applicationId: Id, fileKey: string) | Err(error: Error)

  datatype CreateResult = Made(applicationId: Id) | Refused(error: Error)

  class ApplicationsService {
    // PostgreSQL
    var jobs: map<Id, Job>
    var users: map<Id, string>
    var candidates: map<string, Id>
    var rows: map<Id, Row>
    // object storage
    var objects: set<string>
    // RabbitMQ
    var events: seq<CvEvent>
    // calls in flight and over, generated keys, and the next fresh id
    var calls: seq<Call>
    var keyOwner: map<string, nat>
    var nextId: Id

    function Snapshot(): State
      reads this
    {
      State(jobs, users, candidates, rows, objects, events, calls, keyOwner, nextId)
    }

    /** The next id is one that no row and no candidate has. */
    ghost predicate Valid()
      reads this`rows, this`candidates, this`nextId
    {
      && (forall a :: a in rows ==> a < nextId && rows[a].candidateId < nextId)
      && (forall email :: email in candidates ==> candidates[email] < nextId)
    }

    /** The service over stores that are already in use. */
    constructor (jobs: map<Id, Job>, users: map<Id, string>, candidates: map<string, Id>, rows: map<Id, Row>,
                 objects: set<string>, nextId: Id)
      requires forall a :: a in rows ==> a < nextId && rows[a].candidateId < nextId
      requires forall email :: email in candidates ==> candidates[email] < nextId
      ensures Valid() && Snapshot() == State(jobs, users, candidates, rows, objects, [], [], map[], nextId)
    {
      this.jobs, this.users, this.candidates, this.rows := jobs, users, candidates, rows;
      this.objects, this.nextId := objects, nextId;
      events, calls, keyOwner := [], [], map[];
    }

    // ---- What runs when a request settles ----

    method CallStarted(kind: Kind, userId: Id, jobId: Id) returns (i: nat)
      modifies this`calls
      ensures i == old(|calls|) && Snapshot() == Apply(old(Snapshot()), Start(kind, userId, jobId))
    {
      i := |calls|;
      calls := calls + [Call(kind, userId, jobId, FindingJob, NO_FAULTS)];
    }

    method ReadFailed(i: nat)
      requires Enabled(Snapshot(), ReadFails(i))
      modifies this`calls
      ensures Snapshot() == Apply(old(Snapshot()), ReadFails(i))
    {
      calls := calls[i := calls[i].(phase := Failed(Internal))];
    }

    method FindOpenJobSettled(i: nat)
      requires Enabled(Snapshot(), JobRead(i))
      modifies this`calls
      ensures Snapshot() == Apply(old(Snapshot()), JobRead(i))
    {
      var jobId := calls[i].jobId;
      var next := FindingUser;
      if jobId !in jobs || jobs[jobId].deleted {
        next := Failed(NotFound);
      } else if !jobs[jobId].open {
        next := Failed(Forbidden);
      }
      calls := calls[i := calls[i].(phase := next)];
    }

    method FindUserSettled(i: nat)
      requires Enabled(Snapshot(), UserRead(i))
      modifies this`calls
      ensures Snapshot() == Apply(old(Snapshot()), UserRead(i))
    {
      var next := Failed(NotFound);
      if calls[i].userId in users {
        next := FindingCandidate(users[calls[i].userId]);
      }
      calls := calls[i := calls[i].(phase := next)];
    }

    method FindCandidateSettled(i: nat)
      requires Enabled(Snapshot(), CandidateRead(i))
      modifies this`calls
      ensures Snapshot() == Apply(old(Snapshot()), CandidateRead(i))
    {
      var email := calls[i].phase.email;
      var next := CreatingCandidate(email);
      if email in candidates {
        next := CheckingDuplicate(candidates[email]);
      }
      calls := calls[i := calls[i].(phase := next)];
    }

    method CreateCandidateSettled(i: nat, ok: bool, effect: bool)
      requires Enabled(Snapshot(), CandidateInsert(i, ok, effect))
      modifies this`calls, this`candidates, this`nextId
      ensures Snapshot() == Apply(old(Snapshot()), CandidateInsert(i, ok, effect))
    {
      var email := calls[i].phase.email;
      if ok {
        calls := calls[i := calls[i].(phase := CheckingDuplicate(nextId))];
      } else {
        calls := calls[i := calls[i].(phase := Failed(Internal))];
      }
      if effect {
        candidates := candidates[email := nextId];
        nextId := nextId + 1;
      }
    }

    /** The duplicate check; createWithCv() goes on to generate a key and start its upload. */
    method DuplicateCheckSettled(i: nat, freshKey: string)
      requires Enabled(Snapshot(), DuplicateRead(i, freshKey))
      modifies this`calls, this`keyOwner
      ensures Snapshot() == Apply(old(Snapshot()), DuplicateRead(i, freshKey))
    {
      var candidateId := calls[i].phase.candidateId;
      var jobId := calls[i].jobId;
      if LiveDuplicate(rows, jobId, candidateId) {
        calls := calls[i := calls[i].(phase := Failed(Conflict))];
      } else if calls[i].kind.Plain? {
        calls := calls[i := calls[i].(phase := InsertingPlain(candidateId))];
      } else {
        keyOwner := keyOwner[freshKey := i];
        calls := calls[i := calls[i].(phase := Uploading(candidateId, freshKey))];
      }
    }

    method UploadSettled(i: nat, ok: bool, effect: bool)
      requires Enabled(Snapshot(), UploadSettles(i, ok, effect))
      modifies this`calls, this`objects
      ensures Snapshot() == Apply(old(Snapshot()), UploadSettles(i, ok, effect))
    {
      var c := calls[i];
      if effect {
        objects := objects + {c.phase.fileKey};
      }
      if ok {
        calls := calls[i := c.(phase := Inserting(c.phase.candidateId, c.phase.fileKey))];
      } else {
        calls := calls[i := c.(phase := Failed(Internal), faults := c.faults.(uploadLeftFile := effect))];
      }
    }

    method PlainInsertSettled(i: nat, ok: bool, effect: bool)
      requires Enabled(Snapshot(), PlainInsertSettles(i, ok, effect))
      modifies this`calls, this`rows, this`nextId
      ensures Snapshot() == Apply(old(Snapshot()), PlainInsertSettles(i, ok, effect))
    {
      var c := calls[i];
      var candidateId := c.phase.candidateId;
      var clientKey := if c.kind.Plain? then c.kind.clientKey else None;
      if ok {
        calls := calls[i := c.(phase := Created(candidateId, nextId))];
      } else {
        calls := calls[i := c.(phase := Failed(Internal), faults := c.faults.(insertLeftRow := effect))];
      }
      if effect {
        rows := rows[nextId := Row(c.jobId, candidateId, clientKey, "SUBMITTED", false, Some(i))];
        nextId := nextId + 1;
      }
    }

    method InsertSettled(i: nat, ok: bool, effect: bool)
      requires Enabled(Snapshot(), InsertSettles(i, ok, effect))
      modifies this`calls, this`rows, this`nextId
      ensures Snapshot() == Apply(old(Snapshot()), InsertSettles(i, ok, effect))
    {
      var c := calls[i];
      if ok {
        calls := calls[i := c.(phase := Inserted(c.phase.candidateId, c.phase.fileKey, nextId))];
      } else {
        calls := calls[i := c.(phase := DeletingFile(c.phase.fileKey), faults := c.faults.(insertLeftRow := effect))];
      }
      if effect {
        rows := rows[nextId := Row(c.jobId, c.phase.candidateId, Some(c.phase.fileKey), "SUBMITTED", false, Some(i))];
        nextId := nextId + 1;
      }
    }

    method Publish(i: nat, ok: bool)
      requires Enabled(Snapshot(), PublishRuns(i, ok))
      modifies this`calls, this`events
      ensures Snapshot() == Apply(old(Snapshot()), PublishRuns(i, ok))
    {
      var c := calls[i];
      if ok {
        events := events + [CvEvent(c.phase.candidateId, c.phase.applicationId, c.jobId, c.phase.fileKey)];
        calls := calls[i := c.(phase := Responding(c.phase.candidateId, c.phase.fileKey, c.phase.applicationId))];
      } else {
        calls := calls[i := c.(phase := DeletingRow(c.phase.candidateId, c.phase.fileKey, c.phase.applicationId))];
      }
    }

    method ResponseBuilt(i: nat)
      requires Enabled(Snapshot(), ResponseReady(i))
      modifies this`calls
      ensures Snapshot() == Apply(old(Snapshot()), ResponseReady(i))
    {
      var p := calls[i].phase;
      calls := calls[i := calls[i].(phase := Succeeded(p.candidateId, p.fileKey, p.applicationId))];
    }

    method RowDeleteSettled(i: nat, ok: bool, effect: bool)
      requires Enabled(Snapshot(), RowDeleteSettles(i, ok, effect))
      modifies this`calls, this`rows
      ensures Snapshot() == Apply(old(Snapshot()), RowDeleteSettles(i, ok, effect))
    {
      var c := calls[i];
      if effect {
        rows := rows - {c.phase.applicationId};
      }
      calls := calls[i := c.(phase := DeletingFile(c.phase.fileKey), faults := c.faults.(rowDeleteFailed := !ok))];
    }

    method FileDeleteSettled(i: nat, ok: bool, effect: bool)
      requires Enabled(Snapshot(), FileDeleteSettles(i, ok, effect))
      modifies this`calls, this`objects
      ensures Snapshot() == Apply(old(Snapshot()), FileDeleteSettles(i, ok, effect))
    {
      var c := calls[i];
      if effect {
        objects := objects - {c.phase.fileKey};
      }
      calls := calls[i := c.(phase := Failed(Internal), faults := c.faults.(fileDeleteFailed := !ok))];
    }

    // ---- One call from start to end ----

    /** es is a run of the upload protocol from s0 to where the stores are now. */
    ghost predicate Ran(s0: State, es: seq<Event>)
      reads this
    {
      CanRun(s0, es) && Run(s0, es) == Snapshot()
    }

    /** No call has changed but for the phase, and perhaps the faults, of call i. */
    static ghost predicate OnlyMoved(before: seq<Call>, after: seq<Call>, i: nat)
    {
      i < |before| == |after| && after == before[i := before[i].(phase := after[i].phase, faults := after[i].faults)]
    }

    /** A submitted application with an uploaded file, stored by call i. */
    static function NewRow(jobId: Id, candidateId: Id, fileKey: string, i: nat): Row {
      Row(jobId, candidateId, Some(fileKey), "SUBMITTED", false, Some(i))
    }

    /** Where a call goes on without a duplicate: create() inserts, createWithCv() uploads first. */
    static function Checked(kind: Kind, candidateId: Id, freshKey: string): Phase {
      if kind.Plain? then InsertingPlain(candidateId) else Uploading(candidateId, freshKey)
    }

    predicate JobExists(jobId: Id)
      reads this`jobs
    {
      jobId in jobs && !jobs[jobId].deleted
    }

    predicate JobOpen(jobId: Id)
      reads this`jobs
    {
      JobExists(jobId) && jobs[jobId].open
    }

    method FindOpenJobOrThrow(i: nat, granted: bool, ghost s0: State, ghost before: seq<Event>)
      returns (ghost es: seq<Event>)
      requires Ran(s0, before) && i < |calls| && calls[i].phase.FindingJob?
      modifies this`calls
      ensures Ran(s0, es)
      ensures OnlyMoved(old(calls), calls, i)
      ensures var c := calls[i];
              c.phase == if !granted then Failed(Internal)
                         else if JobOpen(c.jobId) then FindingUser
                         else if JobExists(c.jobId) then Failed(Forbidden)
                         else Failed(NotFound)
    {
      if granted {
        RunSnoc(s0, before, JobRead(i));
        es := before + [JobRead(i)];
        FindOpenJobSettled(i);
      } else {
        RunSnoc(s0, before, ReadFails(i));
        es := before + [ReadFails(i)];
        ReadFailed(i);
      }
    }

    method FindUserOrThrow(i: nat, granted: bool, ghost s0: State, ghost before: seq<Event>)
      returns (ghost es: seq<Event>)
      requires Ran(s0, before) && i < |calls| && calls[i].phase.FindingUser?
      modifies this`calls
      ensures Ran(s0, es)
      ensures OnlyMoved(old(calls), calls, i)
      ensures calls[i].phase == if !granted then Failed(Internal)
                                else if calls[i].userId in users then FindingCandidate(users[calls[i].userId])
                                else Failed(NotFound)
    {
      if granted {
        RunSnoc(s0, before, UserRead(i));
        es := before + [UserRead(i)];
        FindUserSettled(i);
      } else {
        RunSnoc(s0, before, ReadFails(i));
        es := before + [ReadFails(i)];
        ReadFailed(i);
      }
    }

    method FindOrCreateCandidateOrThrow(i: nat, plan: Plan, ghost s0: State, ghost before: seq<Event>)
      returns (ghost es: seq<Event>)
      requires Ran(s0, before) && i < |calls| && calls[i].phase.FindingCandidate?
      modifies this`calls, this`candidates, this`nextId
      ensures Ran(s0, es)
      ensures OnlyMoved(old(calls), calls, i)
      ensures var email := old(calls)[i].phase.email;
              if plan.candidateRead && email in old(candidates) then
                && calls[i].phase == CheckingDuplicate(old(candidates)[email])
                && candidates == old(candidates) && nextId == old(nextId)
              else if plan.candidateRead && plan.candidateInsert then
                && calls[i].phase == CheckingDuplicate(old(nextId))
                && candidates == old(candidates)[email := old(nextId)] && nextId == old(nextId) + 1
              else
                calls[i].phase == Failed(Internal) && candidates == old(candidates) && nextId == old(nextId)
    {
      if !plan.candidateRead {
        RunSnoc(s0, before, ReadFails(i));
        es := before + [ReadFails(i)];
        ReadFailed(i);
        return;
      }
      RunSnoc(s0, before, CandidateRead(i));
      es := before + [CandidateRead(i)];
      FindCandidateSettled(i);
      if calls[i].phase.CreatingCandidate? {
        var ok := plan.candidateInsert;
        RunSnoc(s0, es, CandidateInsert(i, ok, ok));
        es := es + [CandidateInsert(i, ok, ok)];
        CreateCandidateSettled(i, ok, ok);
      }
    }

    method EnsureNoDuplicateApplication(i: nat, granted: bool, freshKey: string,
                                        ghost s0: State, ghost before: seq<Event>)
      returns (ghost es: seq<Event>)
      requires Ran(s0, before) && i < |calls| && calls[i].phase.CheckingDuplicate?
      requires calls[i].kind.WithCv? ==> freshKey !in keyOwner && freshKey !in objects
      modifies this`calls, this`keyOwner
      ensures Ran(s0, es)
      ensures OnlyMoved(old(calls), calls, i)
      ensures var candidateId := old(calls)[i].phase.candidateId;
              calls[i].phase == if !granted then Failed(Internal)
                                else if LiveDuplicate(old(rows), calls[i].jobId, candidateId) then Failed(Conflict)
                                else Checked(calls[i].kind, candidateId, freshKey)
    {
      if granted {
        RunSnoc(s0, before, DuplicateRead(i, freshKey));
        es := before + [DuplicateRead(i, freshKey)];
        DuplicateCheckSettled(i, freshKey);
      } else {
        RunSnoc(s0, before, ReadFails(i));
        es := before + [ReadFails(i)];
        ReadFailed(i);
      }
    }

    method UploadCvOrThrow(i: nat, granted: bool, ghost s0: State, ghost before: seq<Event>)
      returns (ghost es: seq<Event>)
      requires Ran(s0, before) && i < |calls| && calls[i].phase.Uploading?
      modifies this`calls, this`objects
      ensures Ran(s0, es)
      ensures OnlyMoved(old(calls), calls, i)
      ensures var p := old(calls)[i].phase;
              if granted then
                calls[i].phase == Inserting(p.candidateId, p.fileKey) && objects == old(objects) + {p.fileKey}
              else calls[i].phase == Failed(Internal) && objects == old(objects)
    {
      RunSnoc(s0, before, UploadSettles(i, granted, granted));
      es := before + [UploadSettles(i, granted, granted)];
      UploadSettled(i, granted, granted);
    }

    /** The INSERT, which the table refuses for a pair it has already seen. */
    method InsertApplication(i: nat, granted: bool, ghost s0: State, ghost before: seq<Event>)
      returns (ghost es: seq<Event>)
      requires Valid() && Ran(s0, before) && i < |calls| && calls[i].phase.Inserting?
      requires calls[i].phase.candidateId < nextId
      modifies this`calls, this`rows, this`nextId
      ensures Valid()
      ensures Ran(s0, es)
      ensures OnlyMoved(old(calls), calls, i)
      ensures var p := old(calls)[i].phase;
              if granted && PairFree(old(rows), calls[i].jobId, p.candidateId) then
                calls[i].phase == Inserted(p.candidateId, p.fileKey, old(nextId)) && nextId == old(nextId) + 1 &&
                rows == old(rows)[old(nextId) := NewRow(calls[i].jobId, p.candidateId, p.fileKey, i)]
              else
                calls[i].phase == DeletingFile(p.fileKey) && rows == old(rows) && nextId == old(nextId)
    {
      var jobId, candidateId := calls[i].jobId, calls[i].phase.candidateId;
      var ok := granted && PairFree(rows, jobId, candidateId);
      RunSnoc(s0, before, InsertSettles(i, ok, ok));
      es := before + [InsertSettles(i, ok, ok)];
      InsertSettled(i, ok, ok);
    }

    method PublishCvUploaded(i: nat, granted: bool, ghost s0: State, ghost before: seq<Event>)
      returns (ghost es: seq<Event>)
      requires Ran(s0, before) && i < |calls| && calls[i].phase.Inserted?
      modifies this`calls, this`events
      ensures Ran(s0, es)
      ensures OnlyMoved(old(calls), calls, i)
      ensures var p := old(calls)[i].phase;
              if granted then
                calls[i].phase == Succeeded(p.candidateId, p.fileKey, p.applicationId) &&
                events == old(events) + [CvEvent(p.candidateId, p.applicationId, calls[i].jobId, p.fileKey)]
              else
                calls[i].phase == DeletingRow(p.candidateId, p.fileKey, p.applicationId) && events == old(events)
    {
      RunSnoc(s0, before, PublishRuns(i, granted));
      es := before + [PublishRuns(i, granted)];
      Publish(i, granted);
      if granted {
        RunSnoc(s0, es, ResponseReady(i));
        es := es + [ResponseReady(i)];
        ResponseBuilt(i);
      }
    }

    /** rollbackCreateWithCv() when both deletes work. */
    method RollbackCreateWithCv(i: nat, ghost s0: State, ghost before: seq<Event>) returns (ghost es: seq<Event>)
      requires Valid() && Ran(s0, before)
      requires i < |calls| && (calls[i].phase.DeletingRow? || calls[i].phase.DeletingFile?)
      modifies this`calls, this`rows, this`objects
      ensures Valid()
      ensures Ran(s0, es)
      ensures OnlyMoved(old(calls), calls, i) && calls[i].phase == Failed(Internal)
      ensures var p := old(calls)[i].phase;
              && objects == old(objects) - {p.fileKey}
              && rows == if p.DeletingRow? then old(rows) - {p.applicationId} else old(rows)
    {
      es := before;
      if calls[i].phase.DeletingRow? {
        RunSnoc(s0, es, RowDeleteSettles(i, true, true));
        es := es + [RowDeleteSettles(i, true, true)];
        RowDeleteSettled(i, true, true);
      }
      RunSnoc(s0, es, FileDeleteSettles(i, true, true));
      es := es + [FileDeleteSettles(i, true, true)];
      FileDeleteSettled(i, true, true);
    }

    /** The try block and its catch from where the row is stored. */
    method PublishOrRollBack(i: nat, granted: bool, ghost s0: State, ghost before: seq<Event>)
      returns (ghost es: seq<Event>)
      requires Valid() && Ran(s0, before) && i < |calls| && calls[i].phase.Inserted?
      modifies this`calls, this`rows, this`objects, this`events
      ensures Valid()
      ensures Ran(s0, es)
      ensures OnlyMoved(old(calls), calls, i)
      ensures var p := old(calls)[i].phase;
              if granted then
                && calls[i].phase == Succeeded(p.candidateId, p.fileKey, p.applicationId)
                && rows == old(rows) && objects == old(objects)
                && events == old(events) + [CvEvent(p.candidateId, p.applicationId, calls[i].jobId, p.fileKey)]
              else
                && calls[i].phase == Failed(Internal)
                && rows == old(rows) - {p.applicationId} && objects == old(objects) - {p.fileKey}
                && events == old(events)
    {
      es := PublishCvUploaded(i, granted, s0, before);
      if !granted {
        es := RollbackCreateWithCv(i, s0, es);
      }
    }

    /** The try block of createWithCv() and its catch, starting where the file is in storage. */
    method ProcessUpload(i: nat, plan: Plan, ghost s0: State, ghost before: seq<Event>) returns (ghost es: seq<Event>)
      requires Valid() && Ran(s0, before) && i < |calls| && calls[i].phase.Inserting?
      requires calls[i].phase.candidateId < nextId
      modifies this`calls, this`rows, this`objects, this`events, this`nextId
      ensures Valid()
      ensures Ran(s0, es)
      ensures OnlyMoved(old(calls), calls, i)
      ensures var p := old(calls)[i].phase;
              if plan.insert && plan.publish && PairFree(old(rows), calls[i].jobId, p.candidateId) then
                && calls[i].phase == Succeeded(p.candidateId, p.fileKey, old(nextId))
                && rows == old(rows)[old(nextId) := NewRow(calls[i].jobId, p.candidateId, p.fileKey, i)]
                && objects == old(objects)
                && events == old(events) + [CvEvent(p.candidateId, old(nextId), calls[i].jobId, p.fileKey)]
              else
                && calls[i].phase == Failed(Internal)
                && rows == old(rows) && objects == old(objects) - {p.fileKey} && events == old(events)
    {
      es := InsertApplication(i, plan.insert, s0, before);
      if calls[i].phase.Inserted? {
        es := PublishOrRollBack(i, plan.publish, s0, es);
      } else {
        es := RollbackCreateWithCv(i, s0, es);
      }
    }

    /** The job is open and the user known. */
    predicate Admissible(userId: Id, jobId: Id)
      reads this`jobs, this`users
    {
      JobOpen(jobId) && userId in users
    }

    method FindApplicant(i: nat, plan: Plan, ghost s0: State, ghost before: seq<Event>) returns (ghost es: seq<Event>)
      requires Ran(s0, before) && i < |calls| && calls[i].phase.FindingJob?
      modifies this`calls
      ensures Ran(s0, es)
      ensures OnlyMoved(old(calls), calls, i)
      ensures var c := calls[i];
              if plan.jobRead && plan.userRead && Admissible(c.userId, c.jobId) then
                c.phase == FindingCandidate(users[c.userId])
              else c.phase == Failed(if !plan.jobRead then Internal
                                     else if JobExists(c.jobId) && !JobOpen(c.jobId) then Forbidden
                                     else if JobOpen(c.jobId) && !plan.userRead then Internal
                                     else NotFound)
    {
      es := FindOpenJobOrThrow(i, plan.jobRead, s0, before);
      if calls[i].phase.FindingUser? {
        es := FindUserOrThrow(i, plan.userRead, s0, es);
      }
    }

    /** The requests before the upload that a plan has to grant. */
    static predicate ReadsGranted(plan: Plan) {
      plan.jobRead && plan.userRead && plan.candidateRead && plan.duplicateRead
    }

    /** A candidate found by email, or created with an id that no row can name yet. */
    method PrepareUpload(i: nat, freshKey: string, plan: Plan, ghost s0: State, ghost before: seq<Event>)
      returns (ghost es: seq<Event>)
      requires Ran(s0, before) && i < |calls| && calls[i].phase.FindingCandidate?
      requires calls[i].kind.WithCv? ==> freshKey !in keyOwner && freshKey !in objects
      requires Valid()
      modifies this`calls, this`candidates, this`nextId, this`keyOwner
      ensures Valid()
      ensures Ran(s0, es)
      ensures OnlyMoved(old(calls), calls, i)
      ensures var email := old(calls)[i].phase.email;
              if email in old(candidates) then candidates == old(candidates)
              else candidates == old(candidates) || candidates == old(candidates)[email := old(nextId)]
      ensures var c, email := calls[i], old(calls)[i].phase.email;
              if !plan.candidateRead || !plan.duplicateRead || (email !in old(candidates) && !plan.candidateInsert) then
                c.phase == Failed(Internal)
              else if email in old(candidates) && LiveDuplicate(old(rows), c.jobId, old(candidates)[email]) then
                c.phase == Failed(Conflict)
              else
                email in candidates && c.phase == Checked(c.kind, candidates[email], freshKey) &&
                (email !in old(candidates) ==> PairFree(old(rows), c.jobId, candidates[email]))
    {
      es := FindOrCreateCandidateOrThrow(i, plan, s0, before);
      if calls[i].phase.CheckingDuplicate? {
        es := EnsureNoDuplicateApplication(i, plan.duplicateRead, freshKey, s0, es);
      }
    }

    /** The upload and what follows it. */
    method UploadAndProcess(i: nat, plan: Plan, ghost s0: State, ghost before: seq<Event>)
      returns (ghost es: seq<Event>)
      requires Valid() && Ran(s0, before) && i < |calls| && calls[i].phase.Uploading?
      requires calls[i].phase.candidateId < nextId && calls[i].phase.fileKey !in objects
      modifies this`calls, this`rows, this`objects, this`events, this`nextId
      ensures Valid()
      ensures Ran(s0, es)
      ensures OnlyMoved(old(calls), calls, i)
      ensures var p := old(calls)[i].phase;
              if plan.upload && plan.insert && plan.publish && PairFree(old(rows), calls[i].jobId, p.candidateId) then
                && calls[i].phase == Succeeded(p.candidateId, p.fileKey, old(nextId))
                && rows == old(rows)[old(nextId) := NewRow(calls[i].jobId, p.candidateId, p.fileKey, i)]
                && objects == old(objects) + {p.fileKey}
                && events == old(events) + [CvEvent(p.candidateId, old(nextId), calls[i].jobId, p.fileKey)]
              else
                && calls[i].phase == Failed(Internal)
                && rows == old(rows) && objects == old(objects) && events == old(events)
    {
      es := UploadCvOrThrow(i, plan.upload, s0, before);
      if calls[i].phase.Inserting? {
        es := ProcessUpload(i, plan, s0, es);
      }
    }

    /** All of a call once the user is known. */
    method UploadForApplicant(i: nat, freshKey: string, plan: Plan, ghost s0: State, ghost before: seq<Event>)
      returns (ghost es: seq<Event>)
      requires Ran(s0, before) && i < |calls| && calls[i].phase.FindingCandidate? && calls[i].kind.WithCv?
      requires freshKey !in keyOwner && freshKey !in objects
      requires Valid()
      modifies this`calls, this`candidates, this`rows, this`objects, this`events, this`keyOwner, this`nextId
      ensures Valid()
      ensures Ran(s0, es)
      ensures OnlyMoved(old(calls), calls, i)
      ensures var email := old(calls)[i].phase.email;
              if email in old(candidates) then candidates == old(candidates)
              else candidates == old(candidates) || candidates == old(candidates)[email := old(nextId)]
      ensures var c, email := calls[i], old(calls)[i].phase.email;
              if c.phase.Succeeded? then
                && email in candidates && c.phase.candidateId == candidates[email] && c.phase.fileKey == freshKey
                && c.phase.applicationId !in old(rows)
                && rows == old(rows)[c.phase.applicationId := NewRow(c.jobId, candidates[email], freshKey, i)]
                && objects == old(objects) + {freshKey}
                && events == old(events) + [CvEvent(candidates[email], c.phase.applicationId, c.jobId, freshKey)]
              else
                c.phase.Failed? && rows == old(rows) && objects == old(objects) && events == old(events)
      ensures var c, email := calls[i], old(calls)[i].phase.email;
              && (c.phase.Succeeded? <==>
                    && plan.candidateRead && plan.duplicateRead && plan.upload && plan.insert && plan.publish
                    && if email in old(candidates) then PairFree(old(rows), c.jobId, old(candidates)[email])
                       else plan.candidateInsert)
              && (c.phase.Failed? ==> c.phase.error == Conflict || c.phase.error == Internal)
              && (c.phase == Failed(Conflict) <==>
                    && plan.candidateRead && plan.duplicateRead
                    && email in old(candidates) && LiveDuplicate(old(rows), c.jobId, old(candidates)[email]))
    {
      es := PrepareUpload(i, freshKey, plan, s0, before);
      if calls[i].phase.Uploading? {
        es := UploadAndProcess(i, plan, s0, es);
      }
    }

    method Begin(kind: Kind, userId: Id, jobId: Id) returns (i: nat, ghost es: seq<Event>)
      modifies this`calls
      ensures Ran(old(Snapshot()), es)
      ensures i == old(|calls|) && calls == old(calls) + [Call(kind, userId, jobId, FindingJob, NO_FAULTS)]
    {
      RunSnoc(Snapshot(), [], Start(kind, userId, jobId));
      es := [] + [Start(kind, userId, jobId)];
      i := CallStarted(kind, userId, jobId);
    }

    /** The INSERT of create(). */
    method InsertPlain(i: nat, granted: bool, ghost s0: State, ghost before: seq<Event>) returns (ghost es: seq<Event>)
      requires Valid() && Ran(s0, before) && i < |calls| && calls[i].phase.InsertingPlain? && calls[i].kind.Plain?
      requires calls[i].phase.candidateId < nextId
      modifies this`calls, this`rows, this`nextId
      ensures Valid()
      ensures Ran(s0, es)
      ensures OnlyMoved(old(calls), calls, i)
      ensures var c, candidateId := calls[i], old(calls)[i].phase.candidateId;
              if granted && PairFree(old(rows), c.jobId, candidateId) then
                && c.phase == Created(candidateId, old(nextId))
                && rows == old(rows)[old(nextId) :=
                                       Row(c.jobId, candidateId, c.kind.clientKey, "SUBMITTED", false, Some(i))]
              else
                c.phase == Failed(Internal) && rows == old(rows)
    {
      var ok := granted && PairFree(rows, calls[i].jobId, calls[i].phase.candidateId);
      RunSnoc(s0, before, PlainInsertSettles(i, ok, ok));
      es := before + [PlainInsertSettles(i, ok, ok)];
      PlainInsertSettled(i, ok, ok);
    }

    /** All of create() once the user is known. */
    method CreateForApplicant(i: nat, plan: Plan, ghost s0: State, ghost before: seq<Event>)
      returns (ghost es: seq<Event>)
      requires Ran(s0, before) && i < |calls| && calls[i].phase.FindingCandidate? && calls[i].kind.Plain?
      requires Valid()
      modifies this`calls, this`candidates, this`rows, this`keyOwner, this`nextId
      ensures Valid()
      ensures Ran(s0, es)
      ensures OnlyMoved(old(calls), calls, i)
      ensures var email := old(calls)[i].phase.email;
              if email in old(candidates) then candidates == old(candidates)
              else candidates == old(candidates) || candidates == old(candidates)[email := old(nextId)]
      ensures var c, email := calls[i], old(calls)[i].phase.email;
              if c.phase.Created? then
                && email in candidates && c.phase.applicationId !in old(rows)
                && rows == old(rows)[c.phase.applicationId :=
                                       Row(c.jobId, candidates[email], c.kind.clientKey, "SUBMITTED", false, Some(i))]
              else
                c.phase.Failed? && rows == old(rows)
      ensures var c, email := calls[i], old(calls)[i].phase.email;
              && (c.phase.Created? <==>
                    && plan.candidateRead && plan.duplicateRead && plan.insert
                    && if email in old(candidates) then PairFree(old(rows), c.jobId, old(candidates)[email])
                       else plan.candidateInsert)
              && (c.phase.Failed? ==> c.phase.error == Conflict || c.phase.error == Internal)
              && (c.phase == Failed(Conflict) <==>
                    && plan.candidateRead && plan.duplicateRead
                    && email in old(candidates) && LiveDuplicate(old(rows), c.jobId, old(candidates)[email]))
    {
      es := PrepareUpload(i, "", plan, s0, before);
      if calls[i].phase.InsertingPlain? {
        es := InsertPlain(i, plan.insert, s0, es);
      }
    }

    /**
     * create() run alone: one row of the client's own making, or none; es is
     * what it did in terms of UploadMachine.
     */
    method Create(userId: Id, jobId: Id, clientKey: Option<string>, plan: Plan)
      returns (result: CreateResult, ghost es: seq<Event>)
      requires Valid()
      modifies this`calls, this`candidates, this`rows, this`keyOwner, this`nextId
      ensures Valid()
      ensures CanRun(old(Snapshot()), es) && Run(old(Snapshot()), es) == Snapshot()
      ensures result.Refused? ==> rows == old(rows)
      ensures result.Made? ==>
              && userId in users && users[userId] in candidates && result.applicationId !in old(rows)
              && var candidateId := candidates[users[userId]];
              rows == old(rows)[result.applicationId :=
                                  Row(jobId, candidateId, clientKey, "SUBMITTED", false, Some(old(|calls|)))]
      ensures result.Made? <==>
              && jobId in jobs && !jobs[jobId].deleted && jobs[jobId].open && userId in users
              && ReadsGranted(plan) && plan.insert
              && (if users[userId] in old(candidates) then
                    forall a :: a in old(rows) ==>
                      old(rows)[a].jobId != jobId || old(rows)[a].candidateId != old(candidates)[users[userId]]
                  else plan.candidateInsert)
      ensures result == Refused(Conflict) <==>
              && jobId in jobs && !jobs[jobId].deleted && jobs[jobId].open && userId in users
              && ReadsGranted(plan) && users[userId] in old(candidates)
              && exists a :: a in old(rows) && !old(rows)[a].deleted && old(rows)[a].jobId == jobId &&
                             old(rows)[a].candidateId == old(candidates)[users[userId]]
      ensures result == Refused(Forbidden) <==>
              plan.jobRead && jobId in jobs && !jobs[jobId].deleted && !jobs[jobId].open
      ensures result == Refused(NotFound) <==>
              plan.jobRead && (jobId !in jobs || jobs[jobId].deleted
                               || (jobs[jobId].open && plan.userRead && userId !in users))
      ensures candidates == old(candidates)
              || (&& userId in users && users[userId] !in old(candidates)
                  && candidates == old(candidates)[users[userId] := old(nextId)])
    {
      ghost var s0 := Snapshot();
      var i;
      i, es := Begin(Plain(clientKey), userId, jobId);
      es := FindApplicant(i, plan, s0, es);
      if calls[i].phase.Failed? {
        return Refused(calls[i].phase.error), es;
      }
      es := CreateForApplicant(i, plan, s0, es);
      var p := calls[i].phase;
      result := if p.Created? then Made(p.applicationId) else Refused(p.error);
    }

    /**
     * createWithCv() run alone with working compensations is all or nothing
     * in the three stores, whichever request is refused; es is what it did in
     * terms of UploadMachine.
     */
    method CreateWithCv(userId: Id, jobId: Id, freshKey: string, plan: Plan)
      returns (result: Result, ghost es: seq<Event>)
      requires freshKey !in keyOwner && freshKey !in objects
      requires Valid()
      modifies this`calls, this`candidates, this`rows, this`objects, this`events, this`keyOwner, this`nextId
      ensures Valid()
      ensures CanRun(old(Snapshot()), es) && Run(old(Snapshot()), es) == Snapshot()
      // nothing
      ensures result.Err? ==> rows == old(rows) && objects == old(objects) && events == old(events)
      // all
      ensures result.Ok? ==>
              && userId in users && users[userId] in candidates
              && var candidateId := candidates[users[userId]];
              && result.fileKey == freshKey && result.applicationId !in old(rows)
              && rows == old(rows)[result.applicationId :=
                                     Row(jobId, candidateId, Some(freshKey), "SUBMITTED", false, Some(old(|calls|)))]
              && objects == old(objects) + {freshKey}
              && events == old(events) + [CvEvent(candidateId, result.applicationId, jobId, freshKey)]
      // which of the two, and when the client is told of a duplicate
      ensures result.Ok? <==>
              && jobId in jobs && !jobs[jobId].deleted && jobs[jobId].open && userId in users
              && ReadsGranted(plan) && plan.upload && plan.insert && plan.publish
              && (if users[userId] in old(candidates) then
                    forall a :: a in old(rows) ==>
                      old(rows)[a].jobId != jobId || old(rows)[a].candidateId != old(candidates)[users[userId]]
                  else plan.candidateInsert)
      ensures result == Err(Conflict) <==>
              && jobId in jobs && !jobs[jobId].deleted && jobs[jobId].open && userId in users
              && ReadsGranted(plan) && users[userId] in old(candidates)
              && exists a :: a in old(rows) && !old(rows)[a].deleted && old(rows)[a].jobId == jobId &&
                             old(rows)[a].candidateId == old(candidates)[users[userId]]
      ensures result == Err(Forbidden) <==>
              plan.jobRead && jobId in jobs && !jobs[jobId].deleted && !jobs[jobId].open
      ensures result == Err(NotFound) <==>
              plan.jobRead && (jobId !in jobs || jobs[jobId].deleted
                               || (jobs[jobId].open && plan.userRead && userId !in users))
      // the only trace a failure may leave
      ensures candidates == old(candidates)
              || (&& userId in users && users[userId] !in old(candidates)
                  && candidates == old(candidates)[users[userId] := old(nextId)])
    {
      ghost var s0 := Snapshot();
      var i;
      i, es := Begin(WithCv, userId, jobId);
      es := FindApplicant(i, plan, s0, es);
      if calls[i].phase.Failed? {
        return Err(calls[i].phase.error), es;
      }
      es := UploadForApplicant(i, freshKey, plan, s0, es);
      var p := calls[i].phase;
      result := if p.Succeeded? then Ok(p.applicationId, p.fileKey) else Err(p.error);
    }
  }
}
