/**
 * The API as a service object over one database: each request authenticates
 * its caller, then performs the handler's reads and writes on the stored
 * collections in the order `server.py` does them.
 */
module ServerApi {
  import opened JsText
  import opened Server
  import ServerProps

  class Api {
    var db: Db

    constructor (initial: Db)
      ensures db == initial
    {
      db := initial;
    }

    /** `POST /api/auth/register`; no token is needed. */
    method Register(email: string, username: string, passwordHash: string, newId: string) returns (r: Response)
      modifies this
      ensures (db, r) == Server.Register(old(db), email, username, passwordHash, newId)
    {
      if exists i | 0 <= i < |db.users| :: db.users[i].email == email {
        return Fail(400, "Email already registered");
      }
      var u := NewUser(newId, email, username, passwordHash);
      db := db.(users := db.users + [u]);               // insert_one
      r := Ok(Registered(Summary(u)));
    }

    /** `POST /api/flags/submit`. */
    method SubmitFlag(credential: Credential, roomId: string, flag: string, progressId: string) returns (r: Response)
      modifies this
      ensures var a := Authenticate(old(db).users, credential);
        a.Caller? ==> (db, r) == Server.SubmitFlag(old(db), a.user, roomId, flag, progressId)
      ensures Authenticate(old(db).users, credential).Denied? ==>
        db == old(db) && r == Fail(401, Authenticate(old(db).users, credential).detail)
    {
      var a := Authenticate(db.users, credential);
      if a.Denied? {
        return Unauthorized(a);
      }
      var caller := a.user;
      var ri := FindRoom(db.rooms, roomId);
      if ri.None? {
        return Fail(404, "Room not found");
      }
      var room := db.rooms[ri.value];
      if flag !in FlagsOf(room) {
        return Ok(FlagVerdict(false, IncorrectMessage, None));
      }
      if FindProgress(db.progress, caller.id, roomId).Some? {
        return Ok(FlagVerdict(true, AlreadyMessage, None));
      }
      db := db.(progress := db.progress + [Progress(progressId, caller.id, roomId, true)]);   // insert_one
      var newXp := caller.xp + RewardOf(room);
      db := db.(users := AwardXp(db.users, caller.id, newXp, roomId));                        // update_one
      r := Ok(FlagVerdict(true, CompletedMessage, Some(RewardOf(room))));
    }

    /** `POST /api/labs/start`. */
    method StartLab(credential: Credential, roomId: string, sessionId: string, start: LabStart) returns (r: Response)
      modifies this
      ensures var a := Authenticate(old(db).users, credential);
        a.Caller? ==> (db, r) == Server.StartLab(old(db), a.user, roomId, sessionId, start)
      ensures Authenticate(old(db).users, credential).Denied? ==>
        db == old(db) && r == Fail(401, Authenticate(old(db).users, credential).detail)
    {
      var a := Authenticate(db.users, credential);
      if a.Denied? {
        return Unauthorized(a);
      }
      var caller := a.user;
      var ri := FindRoom(db.rooms, roomId);
      if ri.None? || !db.rooms[ri.value].hasLab {
        return Fail(400, "Room has no lab");
      }
      var existing := FindRunning(db.sessions, caller.id, roomId);
      if existing.Some? {
        return Ok(SessionInfo(db.sessions[existing.value]));
      }
      var session := NewSession(sessionId, caller.id, roomId, start);
      db := db.(sessions := db.sessions + [session]);   // insert_one
      r := Ok(SessionInfo(session));
    }

    /** `POST /api/labs/{session_id}/execute`: reads the session and writes nothing. */
    method Execute(credential: Credential, sessionId: string, command: Option<string>, docker: Option<ExecOutcome>)
      returns (r: Response)
      ensures var a := Authenticate(db.users, credential);
        r == if a.Denied? then Fail(401, a.detail) else ExecuteCommand(db, a.user, sessionId, command, docker)
    {
      var a := Authenticate(db.users, credential);
      if a.Denied? {
        return Unauthorized(a);
      }
      r := ExecuteCommand(db, a.user, sessionId, command, docker);
    }

    /** `POST /api/labs/{session_id}/stop`. */
    method StopLab(credential: Credential, sessionId: string) returns (r: Response)
      modifies this
      ensures var a := Authenticate(old(db).users, credential);
        a.Caller? ==> (db, r) == Server.StopLab(old(db), a.user, sessionId)
      ensures Authenticate(old(db).users, credential).Denied? ==>
        db == old(db) && r == Fail(401, Authenticate(old(db).users, credential).detail)
    {
      var a := Authenticate(db.users, credential);
      if a.Denied? {
        return Unauthorized(a);
      }
      if FindOwnSession(db.sessions, sessionId, a.user.id).None? {
        return Fail(404, "Session not found");
      }
      db := db.(sessions := MarkStopped(db.sessions, sessionId));   // update_one by id
      r := Ok(Message("Lab stopped"));
    }

    /**
     * `POST /api/admin/upload-lab-files`: the files are saved one by one and
     * their entries collected; the first failing file ends the request.
     */
    method UploadLabFiles(credential: Credential, roomId: string, files: seq<Upload>, uploadDir: string)
      returns (r: Response)
      modifies this
      ensures var a := Authenticate(old(db).users, credential);
        a.Caller? ==> (db, r) == Server.UploadLabFiles(old(db), a.user, roomId, files, uploadDir)
      ensures Authenticate(old(db).users, credential).Denied? ==>
        db == old(db) && r == Fail(401, Authenticate(old(db).users, credential).detail)
    {
      var a := Authenticate(db.users, credential);
      if a.Denied? {
        return Unauthorized(a);
      }
      if !IsAdmin(a.user) {
        return AdminOnly;
      }
      var uploaded: seq<LabFile> := [];
      var i := 0;
      while i < |files|
        invariant 0 <= i <= |files|
        invariant forall j | 0 <= j < i :: files[j].saved
        invariant uploaded == UploadRecords(files[..i], uploadDir, roomId)
        invariant db == old(db)
      {
        var f := files[i];
        if !f.saved {
          ServerProps.FirstIndexIs(files, (f: Upload) => !f.saved, i);
          return Fail(500, "Failed to upload " + f.filename);
        }
        assert files[..i + 1][..i] == files[..i];
        uploaded := uploaded + [LabFile(f.filename, uploadDir + "/" + roomId + "/" + f.filename, f.size)];
        i := i + 1;
      }
      assert files[..i] == files;
      db := db.(rooms := SetUploads(db.rooms, roomId, uploaded));   // update_one
      r := Ok(UploadReport("Successfully uploaded " + IntToString(|uploaded|) + " file(s)", uploaded));
    }
  }
}
