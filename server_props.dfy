/**
 * What the API's handlers promise: flag checking and the one-time xp award,
 * idempotent lab start, per-user session ownership, the admin guard,
 * registration, and the database invariant they all keep.
 */
module ServerProps {
  import opened JsText
  import opened Server

  // ---------------------------------------------------------------------------
  // The first match

  /** An index whose element matches, with no match before it, is the first match. */
  lemma FirstIndexIs<T>(s: seq<T>, p: T -> bool, i: nat)
    requires i < |s| && p(s[i])
    requires forall j | 0 <= j < i :: !p(s[j])
    ensures FirstIndex(s, p) == Some(i)
  {
  }

  /** Appending an element only matters when nothing before it matched. */
  lemma FirstIndexAppend<T>(s: seq<T>, x: T, p: T -> bool)
    ensures FirstIndex(s + [x], p) ==
      if FirstIndex(s, p).Some? then FirstIndex(s, p) else if p(x) then Some(|s|) else None
  {
    var t := s + [x];
    assert forall j | 0 <= j < |s| :: t[j] == s[j];
    match FirstIndex(s, p)
    case Some(i) => FirstIndexIs(t, p, i);
    case None =>
      if p(x) {
        FirstIndexIs(t, p, |s|);
      }
  }

  // ---------------------------------------------------------------------------
  // The database invariant

  predicate UniqueEmails(users: seq<User>) {
    forall i, j | 0 <= i < j < |users| :: users[i].email != users[j].email
  }

  predicate UniqueUserIds(users: seq<User>) {
    forall i, j | 0 <= i < j < |users| :: users[i].id != users[j].id
  }

  predicate UniqueSessionIds(sessions: seq<Session>) {
    forall i, j | 0 <= i < j < |sessions| :: sessions[i].id != sessions[j].id
  }

  predicate Running(s: Session) {
    s.status == "running"
  }

  /** No user has two running sessions of the same room. */
  predicate OneRunningPerRoom(sessions: seq<Session>) {
    forall i, j | 0 <= i < j < |sessions| && Running(sessions[i]) && Running(sessions[j]) ::
      sessions[i].userId != sessions[j].userId || sessions[i].roomId != sessions[j].roomId
  }

  predicate Valid(db: Db) {
    UniqueEmails(db.users) && UniqueUserIds(db.users)
    && UniqueSessionIds(db.sessions) && OneRunningPerRoom(db.sessions)
  }

  predicate FreshUserId(db: Db, id: string) {
    forall i | 0 <= i < |db.users| :: db.users[i].id != id
  }

  predicate FreshSessionId(db: Db, id: string) {
    forall i | 0 <= i < |db.sessions| :: db.sessions[i].id != id
  }

  // ---------------------------------------------------------------------------
  // Authentication

  /** A token that is not a valid bearer token of a stored user gets 401, whatever else holds. */
  lemma UnknownCallerDenied(users: seq<User>, credential: Credential)
    requires credential.Bearer? ==> forall i | 0 <= i < |users| :: users[i].id != credential.userId
    ensures Authenticate(users, credential).Denied?
  {
  }

  // ---------------------------------------------------------------------------
  // Registration

  /** A taken email is refused with 400 and nothing is stored. */
  lemma RegisterTakenEmail(db: Db, email: string, username: string, hash: string, newId: string, i: nat)
    requires i < |db.users| && db.users[i].email == email
    ensures Register(db, email, username, hash, newId) == (db, Fail(400, "Email already registered"))
  {
  }

  /** A new email adds exactly one user, with the given details and the defaults, at the end. */
  lemma RegisterNewEmail(db: Db, email: string, username: string, hash: string, newId: string)
    requires forall i | 0 <= i < |db.users| :: db.users[i].email != email
    ensures var (db', r) := Register(db, email, username, hash, newId);
      && db' == db.(users := db.users + [db'.users[|db.users|]])
      && |db'.users| == |db.users| + 1
      && var u := db'.users[|db.users|];
      && u.id == newId && u.email == email && u.username == username && u.passwordHash == hash
      && u.role == "user" && u.xp == 0 && u.level == 1 && u.streak == 0
      && u.badges == [] && u.completedRooms == [] && u.achievements == []
      && r == Ok(Registered(UserSummary(newId, email, username, "user", 0, 1)))
  {
  }

  /** Registration keeps the invariant when the new id is fresh. */
  lemma RegisterKeepsValid(db: Db, email: string, username: string, hash: string, newId: string)
    requires Valid(db) && FreshUserId(db, newId)
    ensures Valid(Register(db, email, username, hash, newId).0)
  {
  }

  // ---------------------------------------------------------------------------
  // Flag submission

  /** The first room with the id: the one `find_one` returns. */
  predicate FirstRoomAt(db: Db, roomId: string, ri: nat) {
    ri < |db.rooms| && db.rooms[ri].id == roomId && forall j | 0 <= j < ri :: db.rooms[j].id != roomId
  }

  /** The caller is the stored user document the token named. */
  predicate CallerAt(db: Db, caller: User, ui: nat) {
    ui < |db.users| && db.users[ui] == caller && forall j | 0 <= j < ui :: db.users[j].id != caller.id
  }

  predicate Completed(db: Db, userId: string, roomId: string) {
    exists k | 0 <= k < |db.progress| :: db.progress[k].userId == userId && db.progress[k].roomId == roomId
  }

  /** An unknown room is a 404 and changes nothing. */
  lemma SubmitUnknownRoom(db: Db, caller: User, roomId: string, flag: string, pid: string)
    requires forall i | 0 <= i < |db.rooms| :: db.rooms[i].id != roomId
    ensures SubmitFlag(db, caller, roomId, flag, pid) == (db, Fail(404, "Room not found"))
  {
  }

  /** For a known room the verdict is `correct` exactly when the flag is one of the room's flags. */
  lemma SubmitVerdictIff(db: Db, caller: User, roomId: string, flag: string, pid: string, ri: nat)
    requires FirstRoomAt(db, roomId, ri)
    ensures var r := SubmitFlag(db, caller, roomId, flag, pid).1;
      r.Ok? && r.body.FlagVerdict? && (r.body.correct <==> flag in FlagsOf(db.rooms[ri]))
  {
    FirstIndexIs(db.rooms, (r: Room) => r.id == roomId, ri);
  }

  /**
   * The first correct submission for (user, room): one completed progress row,
   * the caller's xp raised by the room's reward and the room id appended to
   * their completed rooms, every other document as it was, the reward reported.
   */
  lemma FirstCorrectSubmission(db: Db, caller: User, roomId: string, flag: string, pid: string, ri: nat, ui: nat)
    requires FirstRoomAt(db, roomId, ri) && CallerAt(db, caller, ui)
    requires flag in FlagsOf(db.rooms[ri]) && !Completed(db, caller.id, roomId)
    ensures var (db', r) := SubmitFlag(db, caller, roomId, flag, pid);
      var reward := RewardOf(db.rooms[ri]);
      && db'.progress == db.progress + [Progress(pid, caller.id, roomId, true)]
      && |db'.users| == |db.users|
      && db'.users[ui] == caller.(xp := caller.xp + reward, completedRooms := caller.completedRooms + [roomId])
      && (forall j | 0 <= j < |db.users| && j != ui :: db'.users[j] == db.users[j])
      && db'.rooms == db.rooms && db'.sessions == db.sessions && db'.roadmaps == db.roadmaps
      && r == Ok(FlagVerdict(true, CompletedMessage, Some(reward)))
  {
    FirstIndexIs(db.rooms, (r: Room) => r.id == roomId, ri);
    FirstIndexIs(db.users, (u: User) => u.id == caller.id, ui);
  }

  /** A wrong flag, or a right one for a room already completed, changes nothing. */
  lemma SubmitWithoutAward(db: Db, caller: User, roomId: string, flag: string, pid: string, ri: nat)
    requires FirstRoomAt(db, roomId, ri)
    requires flag !in FlagsOf(db.rooms[ri]) || Completed(db, caller.id, roomId)
    ensures var (db', r) := SubmitFlag(db, caller, roomId, flag, pid);
      && db' == db
      && r == Ok(if flag in FlagsOf(db.rooms[ri]) then FlagVerdict(true, AlreadyMessage, None)
                 else FlagVerdict(false, IncorrectMessage, None))
  {
    FirstIndexIs(db.rooms, (r: Room) => r.id == roomId, ri);
  }

  /**
   * Xp is awarded once: after a correct submission, a second one by the same
   * user for the same room, with any flag, changes nothing.
   */
  lemma {:induction false} SecondSubmissionChangesNothing(db: Db, caller: User, caller2: User, roomId: string,
      flag: string, flag2: string, pid: string, pid2: string)
    requires caller2.id == caller.id
    requires var r := SubmitFlag(db, caller, roomId, flag, pid).1; r.Ok? && r.body.correct
    ensures var db1 := SubmitFlag(db, caller, roomId, flag, pid).0;
      SubmitFlag(db1, caller2, roomId, flag2, pid2).0 == db1
    ensures FindRoom(db.rooms, roomId).Some?
    ensures var db1 := SubmitFlag(db, caller, roomId, flag, pid).0;
      var room := db.rooms[FindRoom(db.rooms, roomId).value];
      SubmitFlag(db1, caller2, roomId, flag2, pid2).1 ==
        Ok(if flag2 in FlagsOf(room) then FlagVerdict(true, AlreadyMessage, None) else FlagVerdict(false, IncorrectMessage, None))
  {
    var db1 := SubmitFlag(db, caller, roomId, flag, pid).0;
    assert db1.rooms == db.rooms;
    match FindRoom(db.rooms, roomId)
    case None =>
    case Some(ri) =>
      if flag in FlagsOf(db.rooms[ri]) && FindProgress(db.progress, caller.id, roomId).None? {
        var row := Progress(pid, caller.id, roomId, true);
        assert db1.progress == db.progress + [row];
        FirstIndexAppend(db.progress, row, (p: Progress) => p.userId == caller.id && p.roomId == roomId);
      }
  }

  /** Submission keeps the invariant: it adds progress and edits one user's xp and rooms. */
  lemma SubmitKeepsValid(db: Db, caller: User, roomId: string, flag: string, pid: string)
    requires Valid(db)
    ensures Valid(SubmitFlag(db, caller, roomId, flag, pid).0)
  {
    var db1 := SubmitFlag(db, caller, roomId, flag, pid).0;
    assert |db1.users| == |db.users|;
    assert forall i | 0 <= i < |db.users| :: db1.users[i].id == db.users[i].id && db1.users[i].email == db.users[i].email;
  }

  // ---------------------------------------------------------------------------
  // Lab start

  /** A missing room, or a first match without a lab, is a 400 and no session is created. */
  lemma StartWithoutLab(db: Db, caller: User, roomId: string, sid: string, start: LabStart)
    requires FindRoom(db.rooms, roomId).None? || !db.rooms[FindRoom(db.rooms, roomId).value].hasLab
    ensures StartLab(db, caller, roomId, sid, start) == (db, Fail(400, "Room has no lab"))
  {
  }

  /** A running session of the caller for the room is returned as it is, and nothing is inserted. */
  lemma StartReturnsRunning(db: Db, caller: User, roomId: string, sid: string, start: LabStart, ri: nat, si: nat)
    requires FirstRoomAt(db, roomId, ri) && db.rooms[ri].hasLab
    requires si < |db.sessions| && Running(db.sessions[si])
    requires db.sessions[si].userId == caller.id && db.sessions[si].roomId == roomId
    requires OneRunningPerRoom(db.sessions)
    ensures StartLab(db, caller, roomId, sid, start) == (db, Ok(SessionInfo(db.sessions[si])))
  {
    FirstIndexIs(db.rooms, (r: Room) => r.id == roomId, ri);
    FirstIndexIs(db.sessions, (s: Session) => s.userId == caller.id && s.roomId == roomId && s.status == "running", si);
  }

  /** Otherwise exactly one session is added at the end; it runs unless Docker failed. */
  lemma StartCreatesSession(db: Db, caller: User, roomId: string, sid: string, start: LabStart, ri: nat)
    requires FirstRoomAt(db, roomId, ri) && db.rooms[ri].hasLab
    requires forall k | 0 <= k < |db.sessions| :: !(Running(db.sessions[k]) && db.sessions[k].userId == caller.id && db.sessions[k].roomId == roomId)
    ensures var (db', r) := StartLab(db, caller, roomId, sid, start);
      && |db'.sessions| == |db.sessions| + 1
      && db' == db.(sessions := db.sessions + [db'.sessions[|db.sessions|]])
      && var s := db'.sessions[|db.sessions|];
      && s.id == sid && s.userId == caller.id && s.roomId == roomId
      && (Running(s) <==> !start.DockerError?)
      && (start.MockLab? ==> s.containerId == Some("mock-" + start.hex))
      && (start.Container? ==> s.containerId == Some(start.containerId))
      && (start.DockerError? ==> s.containerId.None?)
      && r == Ok(SessionInfo(s))
  {
    FirstIndexIs(db.rooms, (r: Room) => r.id == roomId, ri);
  }

  /** Starting again after a start that answered with a running session returns that session and changes nothing. */
  lemma {:induction false} StartIsIdempotent(db: Db, caller: User, roomId: string, sid: string, start: LabStart, sid2: string, start2: LabStart)
    requires var r := StartLab(db, caller, roomId, sid, start).1; r.Ok? && Running(r.body.session)
    ensures var (db1, r1) := StartLab(db, caller, roomId, sid, start);
      StartLab(db1, caller, roomId, sid2, start2) == (db1, r1)
  {
    var (db1, r1) := StartLab(db, caller, roomId, sid, start);
    var ri := FindRoom(db.rooms, roomId).value;
    var p := (s: Session) => s.userId == caller.id && s.roomId == roomId && s.status == "running";
    if FindRunning(db.sessions, caller.id, roomId).None? {
      var s := NewSession(sid, caller.id, roomId, start);
      assert db1.sessions == db.sessions + [s];
      FirstIndexAppend(db.sessions, s, p);
    }
  }

  /** Starting keeps the invariant when the new session id is fresh: no second running session appears. */
  lemma StartKeepsValid(db: Db, caller: User, roomId: string, sid: string, start: LabStart)
    requires Valid(db) && FreshSessionId(db, sid)
    ensures Valid(StartLab(db, caller, roomId, sid, start).0)
  {
    var (db1, r) := StartLab(db, caller, roomId, sid, start);
    if db1 != db {
      var s := NewSession(sid, caller.id, roomId, start);
      assert db1.sessions == db.sessions + [s];
      assert FindRunning(db.sessions, caller.id, roomId).None?;
      forall i, j | 0 <= i < j < |db1.sessions| && Running(db1.sessions[i]) && Running(db1.sessions[j])
        ensures db1.sessions[i].userId != db1.sessions[j].userId || db1.sessions[i].roomId != db1.sessions[j].roomId
      {
        if j == |db.sessions| {
          assert db1.sessions[i] == db.sessions[i];
        }
      }
    }
  }

  // ---------------------------------------------------------------------------
  // Execute and stop

  predicate OwnsSession(db: Db, caller: User, sessionId: string) {
    exists i | 0 <= i < |db.sessions| :: db.sessions[i].id == sessionId && db.sessions[i].userId == caller.id
  }

  /** Execute answers at all only for a session of the caller's. */
  lemma ExecuteNeedsOwnership(db: Db, caller: User, sessionId: string, command: Option<string>, docker: Option<ExecOutcome>)
    ensures ExecuteCommand(db, caller, sessionId, command, docker).Ok? <==> OwnsSession(db, caller, sessionId)
    ensures !OwnsSession(db, caller, sessionId) ==> ExecuteCommand(db, caller, sessionId, command, docker) == Fail(404, "Session not found")
  {
  }

  /** Without Docker, a session of the caller's always gets the mock reply with exit code 0. */
  lemma ExecuteWithoutDocker(db: Db, caller: User, sessionId: string, command: string)
    requires OwnsSession(db, caller, sessionId)
    ensures ExecuteCommand(db, caller, sessionId, Some(command), None)
      == Ok(CommandOutput("Mock output for: " + command + "\nDocker not available", 0))
  {
  }

  /** Stop refuses another user's session with 404 and changes nothing. */
  lemma StopNeedsOwnership(db: Db, caller: User, sessionId: string)
    requires !OwnsSession(db, caller, sessionId)
    ensures StopLab(db, caller, sessionId) == (db, Fail(404, "Session not found"))
  {
  }

  /** With unique session ids, stopping the caller's session marks exactly that session stopped. */
  lemma StopMarksOwnSession(db: Db, caller: User, sessionId: string, i: nat)
    requires UniqueSessionIds(db.sessions)
    requires i < |db.sessions| && db.sessions[i].id == sessionId && db.sessions[i].userId == caller.id
    ensures StopLab(db, caller, sessionId) ==
      (db.(sessions := db.sessions[i := db.sessions[i].(status := "stopped")]), Ok(Message("Lab stopped")))
  {
    FirstIndexIs(db.sessions, (s: Session) => s.id == sessionId, i);
  }

  /** Stopping keeps the invariant: it only turns one status into 'stopped'. */
  lemma StopKeepsValid(db: Db, caller: User, sessionId: string)
    requires Valid(db)
    ensures Valid(StopLab(db, caller, sessionId).0)
  {
    var db1 := StopLab(db, caller, sessionId).0;
    assert |db1.sessions| == |db.sessions|;
    assert forall k | 0 <= k < |db.sessions| ::
      db1.sessions[k].id == db.sessions[k].id && db1.sessions[k].userId == db.sessions[k].userId
      && db1.sessions[k].roomId == db.sessions[k].roomId && (Running(db1.sessions[k]) ==> Running(db.sessions[k]));
  }

  // ---------------------------------------------------------------------------
  // Admin handlers

  /** Every admin-only handler answers 403 to any other caller, before any write. */
  lemma AdminGuard(db: Db, caller: User, roadmap: Roadmap, m: RoomModel, id: string, role: string,
      filename: string, onDisk: bool, files: seq<Upload>, dir: string)
    requires !IsAdmin(caller)
    ensures CreateRoadmap(db, caller, roadmap) == (db, AdminOnly)
    ensures CreateRoom(db, caller, m) == (db, AdminOnly)
    ensures UpdateRoom(db, caller, id, m) == (db, AdminOnly)
    ensures DeleteRoom(db, caller, id) == (db, AdminOnly)
    ensures UpdateUserRole(db, caller, id, role) == (db, AdminOnly)
    ensures DeleteUser(db, caller, id) == (db, AdminOnly)
    ensures DeleteLabFile(db, caller, id, filename, onDisk) == (db, AdminOnly)
    ensures UploadLabFiles(db, caller, id, files, dir) == (db, AdminOnly)
  {
  }

  /** An update replaces every model field of the first room with the id, keeps its files, and touches no other room. */
  lemma UpdateRoomReplaces(db: Db, caller: User, roomId: string, m: RoomModel, ri: nat)
    requires IsAdmin(caller) && FirstRoomAt(db, roomId, ri)
    ensures var (db', r) := UpdateRoom(db, caller, roomId, m);
      && |db'.rooms| == |db.rooms|
      && db'.rooms[ri] == Room(m.id, m.title, m.category, m.roomType, m.labType, m.hasLab,
                               Some(m.flags), Some(m.xpReward), db.rooms[ri].uploadedFiles)
      && (forall j | 0 <= j < |db.rooms| && j != ri :: db'.rooms[j] == db.rooms[j])
      && db'.users == db.users && db'.sessions == db.sessions && r == Ok(RoomInfo(m))
  {
    FirstIndexIs(db.rooms, (r: Room) => r.id == roomId, ri);
  }

  /** The room, roadmap and lab-file handlers leave users and sessions alone, so they keep the invariant. */
  lemma RoomHandlersKeepUsersAndSessions(db: Db, caller: User, roadmap: Roadmap, m: RoomModel, id: string,
      filename: string, onDisk: bool, files: seq<Upload>, dir: string)
    ensures var d := CreateRoadmap(db, caller, roadmap).0; d.users == db.users && d.sessions == db.sessions
    ensures var d := CreateRoom(db, caller, m).0; d.users == db.users && d.sessions == db.sessions
    ensures var d := UpdateRoom(db, caller, id, m).0; d.users == db.users && d.sessions == db.sessions
    ensures var d := DeleteRoom(db, caller, id).0; d.users == db.users && d.sessions == db.sessions
    ensures var d := DeleteLabFile(db, caller, id, filename, onDisk).0; d.users == db.users && d.sessions == db.sessions
    ensures var d := UploadLabFiles(db, caller, id, files, dir).0; d.users == db.users && d.sessions == db.sessions
  {
  }

  /** A role change keeps ids and emails, so it keeps the invariant. */
  lemma UpdateUserRoleKeepsValid(db: Db, caller: User, userId: string, role: string)
    requires Valid(db)
    ensures Valid(UpdateUserRole(db, caller, userId, role).0)
  {
    var db1 := UpdateUserRole(db, caller, userId, role).0;
    assert |db1.users| == |db.users|;
    assert forall k | 0 <= k < |db.users| :: db1.users[k].id == db.users[k].id && db1.users[k].email == db.users[k].email;
  }

  /** Deleting a user keeps the others in order, so it keeps the invariant. */
  lemma DeleteUserKeepsValid(db: Db, caller: User, userId: string)
    requires Valid(db)
    ensures Valid(DeleteUser(db, caller, userId).0)
  {
    var db1 := DeleteUser(db, caller, userId).0;
    if db1 != db {
      var i := FindUser(db.users, userId).value;
      assert db1.users == RemoveAt(db.users, i);
      assert forall k | 0 <= k < |db1.users| :: db1.users[k] == db.users[if k < i then k else k + 1];
    }
  }

  /** Deleting a lab file removes every entry with that name from the room's list and keeps all others. */
  lemma DeleteLabFileFilters(db: Db, caller: User, roomId: string, filename: string, ri: nat)
    requires IsAdmin(caller) && FirstRoomAt(db, roomId, ri) && db.rooms[ri].uploadedFiles.Some?
    ensures var (db', r) := DeleteLabFile(db, caller, roomId, filename, true);
      var before := db.rooms[ri].uploadedFiles.value;
      && db'.rooms[ri].uploadedFiles.Some?
      && var after := db'.rooms[ri].uploadedFiles.value;
      && (forall f :: f in after <==> f in before && f.filename != filename)
      && (forall f :: multiset(after)[f] == if f.filename == filename then 0 else multiset(before)[f])
      && db' == db.(rooms := db.rooms[ri := db.rooms[ri].(uploadedFiles := Some(WithoutFile(before, filename)))])
      && r == Ok(Message("File " + filename + " deleted"))
  {
    FirstIndexIs(db.rooms, (r: Room) => r.id == roomId, ri);
    var before := db.rooms[ri].uploadedFiles.value;
    forall f ensures multiset(WithoutFile(before, filename))[f] == if f.filename == filename then 0 else multiset(before)[f] {
      WithoutFileCounts(before, filename, f);
    }
  }

  /** A file missing on disk is a 404 even for an admin, and nothing changes. */
  lemma DeleteMissingLabFile(db: Db, caller: User, roomId: string, filename: string)
    requires IsAdmin(caller)
    ensures DeleteLabFile(db, caller, roomId, filename, false) == (db, Fail(404, "File not found"))
  {
  }

  /** When every file is saved, the room's list becomes exactly the new entries, in request order. */
  lemma UploadReplacesList(db: Db, caller: User, roomId: string, files: seq<Upload>, dir: string, ri: nat)
    requires IsAdmin(caller) && FirstRoomAt(db, roomId, ri)
    requires forall k | 0 <= k < |files| :: files[k].saved
    ensures var (db', r) := UploadLabFiles(db, caller, roomId, files, dir);
      && db'.rooms[ri].uploadedFiles.Some?
      && var list := db'.rooms[ri].uploadedFiles.value;
      && |list| == |files|
      && (forall k | 0 <= k < |files| :: list[k].filename == files[k].filename && list[k].size == files[k].size)
      && db' == db.(rooms := db.rooms[ri := db.rooms[ri].(uploadedFiles := Some(list))])
      && r == Ok(UploadReport("Successfully uploaded " + IntToString(|files|) + " file(s)", list))
  {
    FirstIndexIs(db.rooms, (r: Room) => r.id == roomId, ri);
  }

  /** One unsaved file makes the request fail with 500 naming the first such file, and nothing changes. */
  lemma UploadFailureChangesNothing(db: Db, caller: User, roomId: string, files: seq<Upload>, dir: string, k: nat)
    requires IsAdmin(caller)
    requires k < |files| && !files[k].saved && forall j | 0 <= j < k :: files[j].saved
    ensures UploadLabFiles(db, caller, roomId, files, dir) == (db, Fail(500, "Failed to upload " + files[k].filename))
  {
    FirstIndexIs(files, (f: Upload) => !f.saved, k);
  }
}
