/**
 * Reading, updating and withdrawing one application
 * (api-gateway/src/applications/applications.service.ts:441-592).
 */
module ApplicationRecords {
  import opened Options

  type Id = nat

  datatype Application = Application(
    candidateId: Id, jobOwner: Id, stage: string, status: string,
    notes: Option<string>, coverLetter: Option<string>, reviewedAt: Option<int>, deletedAt: Option<int>)

  /** A field of the request body.  Optional fields skip their validators on null as well as when absent. */
  datatype Field = Absent | Null | Text(text: string)

  datatype Changes = Changes(stage: Field, status: Field, notes: Field, coverLetter: Field)

  /** Who asks: a user, perhaps an administrator, perhaps known as a candidate. */
  datatype Caller = Caller(userId: Id, isAdmin: bool, candidateId: Option<Id>)

  datatype Error = NotFound | Forbidden | Internal

  datatype Result<T> = Ok(value: T) | Err(error: Error)

  /** JavaScript's truth of a field: null and the empty string count as absent. */
  predicate Truthy(f: Field) {
    f.Text? && f.text != ""
  }

  /** Stage and status come from enumerations, so neither is ever empty. */
  predicate Validated(changes: Changes) {
    changes.stage != Text("") && changes.status != Text("")
  }

  predicate IsApplicant(caller: Caller, a: Application) {
    caller.candidateId == Some(a.candidateId)
  }

  predicate IsRecruiter(caller: Caller, a: Application) {
    a.jobOwner == caller.userId
  }

  class ApplicationTable {
    var rows: map<Id, Application>

    method FindOne(id: Id, caller: Caller) returns (r: Result<Application>)
      ensures r.Ok? <==>
              && id in rows && rows[id].deletedAt.None?
              && (|| caller.candidateId == Some(rows[id].candidateId) || caller.userId == rows[id].jobOwner
                  || caller.isAdmin)
      ensures r.Ok? ==> r.value == rows[id]
      ensures r == Err(NotFound) <==> id !in rows || rows[id].deletedAt.Some?
      ensures r == Err(Forbidden) <==>
              && id in rows && rows[id].deletedAt.None? && caller.candidateId != Some(rows[id].candidateId)
              && caller.userId != rows[id].jobOwner && !caller.isAdmin
    {
      if id !in rows || rows[id].deletedAt.Some? {
        return Err(NotFound);
      }
      if !IsApplicant(caller, rows[id]) && !IsRecruiter(caller, rows[id]) && !caller.isAdmin {
        return Err(Forbidden);
      }
      return Ok(rows[id]);
    }

    /**
     * The job's owner and administrators change what they send, null included.
     * A mere applicant succeeds exactly when no stage, status or non-empty note
     * is sent, and changes the cover letter alone unless the note sent is null
     * or empty: either passes the check for a present note and is written.  The
     * columns of stage and status refuse null, whoever sends it.
     */
    method Update(id: Id, caller: Caller, changes: Changes, now: int) returns (r: Result<Application>)
      requires Validated(changes)
      modifies this
      ensures r == Err(NotFound) <==> id !in old(rows) || old(rows)[id].deletedAt.Some?
      ensures id in old(rows) && old(rows)[id].deletedAt.None? ==>
              var a := old(rows)[id];
              var privileged := caller.userId == a.jobOwner || caller.isAdmin;
              var sendsMore := (changes.stage.Text? && changes.stage.text != "")
                               || (changes.status.Text? && changes.status.text != "")
                               || (changes.notes.Text? && changes.notes.text != "");
              && (r.Ok? <==>
                    && (privileged || (caller.candidateId == Some(a.candidateId) && !sendsMore))
                    && !changes.stage.Null? && !changes.status.Null?)
              && (r == Err(Forbidden) <==> !privileged && (caller.candidateId != Some(a.candidateId) || sendsMore))
              && (r == Err(Internal) <==>
                    && (privileged || (caller.candidateId == Some(a.candidateId) && !sendsMore))
                    && (changes.stage.Null? || changes.status.Null?))
      ensures r.Err? ==> rows == old(rows)
      ensures r.Ok? ==> rows == old(rows)[id := r.value]
      ensures r.Ok? ==>
              var a := old(rows)[id];
              && r.value.candidateId == a.candidateId && r.value.jobOwner == a.jobOwner
              && r.value.deletedAt == a.deletedAt
              && r.value.reviewedAt == (if changes.status.Text? && changes.status.text != a.status then Some(now)
                                        else a.reviewedAt)
              && (changes.coverLetter.Absent? ==> r.value.coverLetter == a.coverLetter)
              && (changes.coverLetter.Null? ==> r.value.coverLetter == None)
              && (changes.coverLetter.Text? ==> r.value.coverLetter == Some(changes.coverLetter.text))
      ensures r.Ok? && (caller.userId == old(rows)[id].jobOwner || caller.isAdmin) ==>
              var a := old(rows)[id];
              && r.value.stage == (if changes.stage.Text? then changes.stage.text else a.stage)
              && r.value.status == (if changes.status.Text? then changes.status.text else a.status)
              && (changes.notes.Absent? ==> r.value.notes == a.notes)
              && (changes.notes.Null? ==> r.value.notes == None)
              && (changes.notes.Text? ==> r.value.notes == Some(changes.notes.text))
      ensures r.Ok? && caller.userId != old(rows)[id].jobOwner && !caller.isAdmin ==>
              var a := old(rows)[id];
              && r.value.stage == a.stage && r.value.status == a.status && r.value.reviewedAt == a.reviewedAt
              && (r.value.notes == a.notes || r.value.notes == None || r.value.notes == Some(""))
              && (r.value.notes != a.notes <==>
                    || (changes.notes == Null && a.notes.Some?)
                    || (changes.notes == Text("") && a.notes != Some("")))
              && (changes.notes == Null ==> r.value.notes == None)
              && (changes.notes == Text("") ==> r.value.notes == Some(""))
    {
      var found := FindOne(id, caller);
      if found.Err? {
        return found;
      }
      var a := found.value;
      if Truthy(changes.stage) || Truthy(changes.status) || Truthy(changes.notes) {
        if !IsRecruiter(caller, a) && !caller.isAdmin {
          return Err(Forbidden);
        }
      }
      if !IsRecruiter(caller, a) && !caller.isAdmin && !IsApplicant(caller, a) {
        return Err(Forbidden);
      }
      var updated := a;
      if Truthy(changes.status) && a.status != changes.status.text {
        updated := updated.(reviewedAt := Some(now));
      }
      if changes.stage.Null? || changes.status.Null? {
        return Err(Internal);
      }
      if changes.stage.Text? {
        updated := updated.(stage := changes.stage.text);
      }
      if changes.status.Text? {
        updated := updated.(status := changes.status.text);
      }
      if !changes.notes.Absent? {
        updated := updated.(notes := if changes.notes.Null? then None else Some(changes.notes.text));
      }
      if !changes.coverLetter.Absent? {
        updated := updated.(coverLetter := if changes.coverLetter.Null? then None else Some(changes.coverLetter.text));
      }
      rows := rows[id := updated];
      return Ok(updated);
    }

    /**
     * Only the applicant and administrators withdraw; afterwards nobody finds
     * the application, not even to withdraw it again.
     */
    method Remove(id: Id, caller: Caller, now: int) returns (error: Option<Error>)
      modifies this
      ensures error == Some(NotFound) <==> id !in old(rows) || old(rows)[id].deletedAt.Some?
      ensures error == Some(Forbidden) <==>
              && id in old(rows) && old(rows)[id].deletedAt.None?
              && caller.candidateId != Some(old(rows)[id].candidateId) && !caller.isAdmin
      ensures error.None? <==>
              && id in old(rows) && old(rows)[id].deletedAt.None?
              && (caller.candidateId == Some(old(rows)[id].candidateId) || caller.isAdmin)
      ensures error.Some? ==> rows == old(rows)
      ensures error.None? ==> rows == old(rows)[id := old(rows)[id].(deletedAt := Some(now), status := "WITHDRAWN")]
    {
      var found := FindOne(id, caller);
      if found.Err? {
        return Some(found.error);
      }
      if !IsApplicant(caller, found.value) && !caller.isAdmin {
        return Some(Forbidden);
      }
      rows := rows[id := found.value.(deletedAt := Some(now), status := "WITHDRAWN")];
      return None;
    }
  }

  /** What a mere applicant can do to the notes, by a request that looks as if it had none. */
  method WipeNotes(table: ApplicationTable, id: Id, caller: Caller, note: Field, now: int)
    returns (r: Result<Application>)
    requires id in table.rows && table.rows[id].deletedAt.None?
    requires caller.candidateId == Some(table.rows[id].candidateId) && caller.userId != table.rows[id].jobOwner
    requires !caller.isAdmin
    requires note == Null || note == Text("")
    modifies table
    ensures r.Ok?
    ensures note == Null ==> table.rows == old(table.rows)[id := old(table.rows)[id].(notes := None)]
    ensures note == Text("") ==> table.rows == old(table.rows)[id := old(table.rows)[id].(notes := Some(""))]
  {
    r := table.Update(id, caller, Changes(Absent, Absent, note, Absent), now);
  }
}
