/**
 * The HackLidoLearn API's business rules over in-memory collections.
 * Each Mongo collection is a sequence of documents in insertion order;
 * `find_one` takes the first match, `update_one` and `delete_one` act on
 * the first match. Every handler is a function from the database and the
 * request to the new database and the response, so a failed request visibly
 * leaves the database alone. Docker, bcrypt, JWT and the code-running
 * service are outside the model: what they answer is a parameter.
 */
module Server {
  import opened JsText

  // ---------------------------------------------------------------------------
  // Documents

  datatype User = User(
    id: string, email: string, username: string, passwordHash: string,
    role: string, xp: int, level: int, streak: int,
    badges: seq<string>, completedRooms: seq<string>, achievements: seq<string>)

  /** One entry of a room's `uploaded_files` list. */
  datatype LabFile = LabFile(filename: string, path: string, size: nat)

  /**
   * A room document. `flags` and `xpReward` are `None` when the document has
   * no such key (the handlers then read `[]` and 100); `uploadedFiles` is
   * `None` until files are uploaded.
   */
  datatype Room = Room(
    id: string, title: string, category: string, roomType: string, labType: string,
    hasLab: bool, flags: Option<seq<string>>, xpReward: Option<int>,
    uploadedFiles: Option<seq<LabFile>>)

  /** The body of a create or update request: every field of the room model, each with its value. */
  datatype RoomModel = RoomModel(
    id: string, title: string, category: string, roomType: string, labType: string,
    hasLab: bool, flags: seq<string>, xpReward: int)

  datatype Roadmap = Roadmap(id: string, title: string, rooms: seq<string>, order: int)

  datatype Progress = Progress(id: string, userId: string, roomId: string, completed: bool)

  datatype Session = Session(
    id: string, userId: string, roomId: string, containerId: Option<string>, status: string)

  datatype Db = Db(
    users: seq<User>, rooms: seq<Room>, roadmaps: seq<Roadmap>,
    progress: seq<Progress>, sessions: seq<Session>)

  // ---------------------------------------------------------------------------
  // Responses

  datatype UserSummary = UserSummary(id: string, email: string, username: string, role: string, xp: int, level: int)

  datatype Body =
    | Registered(user: UserSummary)
    | Message(text: string)
    | FlagVerdict(correct: bool, message: string, xpEarned: Option<int>)
    | SessionInfo(session: Session)
    | CommandOutput(output: string, exitCode: int)
    | RoadmapInfo(roadmap: Roadmap)
    | RoomInfo(room: RoomModel)
    | UploadReport(message: string, files: seq<LabFile>)

  /** A JSON body, or the status code and detail of the HTTPException raised. */
  datatype Response = Ok(body: Body) | Fail(status: nat, detail: string)

  // ---------------------------------------------------------------------------
  // Collection primitives

  /** The index of the first element satisfying `p`: what `find_one` and `update_one` select. */
  function FirstIndex<T>(s: seq<T>, p: T -> bool): (r: Option<nat>)
    ensures r.Some? ==> r.value < |s| && p(s[r.value]) && forall j | 0 <= j < r.value :: !p(s[j])
    ensures r.None? ==> forall j | 0 <= j < |s| :: !p(s[j])
  {
    if s == [] then None
    else if p(s[0]) then Some(0)
    else match FirstIndex(s[1..], p)
      case None => None
      case Some(k) => Some(k + 1)
  }

  /** `delete_one`: the element at `i` removed, the rest kept in order. */
  function RemoveAt<T>(s: seq<T>, i: nat): (r: seq<T>)
    requires i < |s|
    ensures |r| == |s| - 1
    ensures forall j | 0 <= j < i :: r[j] == s[j]
    ensures forall j | i <= j < |r| :: r[j] == s[j + 1]
  {
    s[..i] + s[i + 1..]
  }

  // ---------------------------------------------------------------------------
  // Authentication

  /** What the JWT library makes of the bearer token. */
  datatype Credential = Bearer(userId: string) | ExpiredToken | BadToken

  datatype Auth = Caller(user: User) | Denied(detail: string)

  /**
   * `get_current_user`. The "User not found" exception is raised inside the
   * `try` and caught by its `except Exception`, so an unknown user id comes
   * out as "Invalid token" like any undecodable token.
   */
  function Authenticate(users: seq<User>, credential: Credential): (a: Auth)
    ensures a.Caller? <==> credential.Bearer? && exists i | 0 <= i < |users| :: users[i].id == credential.userId
    ensures a.Caller? ==> a.user in users && a.user.id == credential.userId
    ensures a.Denied? ==> a.detail == (if credential.ExpiredToken? then "Token expired" else "Invalid token")
  {
    match credential
    case ExpiredToken => Denied("Token expired")
    case BadToken => Denied("Invalid token")
    case Bearer(uid) =>
      match FindUser(users, uid)
      case None => Denied("Invalid token")
      case Some(i) => Caller(users[i])
  }

  /** The 401 every authenticated handler answers when authentication fails. */
  function Unauthorized(a: Auth): Response
    requires a.Denied?
  {
    Fail(401, a.detail)
  }

  predicate IsAdmin(caller: User) {
    caller.role == "admin"
  }

  const AdminOnly: Response := Fail(403, "Admin only")

  // ---------------------------------------------------------------------------
  // Registration

  /** A new account: role "user", xp 0, level 1, no streak, badges, rooms or achievements. */
  function NewUser(id: string, email: string, username: string, passwordHash: string): User {
    User(id, email, username, passwordHash, "user", 0, 1, 0, [], [], [])
  }

  function Summary(u: User): UserSummary {
    UserSummary(u.id, u.email, u.username, u.role, u.xp, u.level)
  }

  /** `register`: 400 for a taken email, otherwise one new user at the end. */
  function Register(db: Db, email: string, username: string, passwordHash: string, newId: string): (Db, Response) {
    if exists i | 0 <= i < |db.users| :: db.users[i].email == email then
      (db, Fail(400, "Email already registered"))
    else
      var u := NewUser(newId, email, username, passwordHash);
      (db.(users := db.users + [u]), Ok(Registered(Summary(u))))
  }

  // ---------------------------------------------------------------------------
  // Flags

  /** `room.get('flags', [])`. */
  function FlagsOf(room: Room): seq<string> {
    match room.flags
    case Some(f) => f
    case None => []
  }

  /** `room.get('xp_reward', 100)`. */
  function RewardOf(room: Room): int {
    match room.xpReward
    case Some(x) => x
    case None => 100
  }

  function FindRoom(rooms: seq<Room>, roomId: string): Option<nat> {
    FirstIndex(rooms, (r: Room) => r.id == roomId)
  }

  function FindProgress(progress: seq<Progress>, userId: string, roomId: string): Option<nat> {
    FirstIndex(progress, (p: Progress) => p.userId == userId && p.roomId == roomId)
  }

  function FindUser(users: seq<User>, userId: string): Option<nat> {
    FirstIndex(users, (u: User) => u.id == userId)
  }

  /** The `$set` of the new xp and the `$push` of the room id, on the first user with that id. */
  function AwardXp(users: seq<User>, userId: string, newXp: int, roomId: string): seq<User> {
    match FindUser(users, userId)
    case None => users
    case Some(i) => users[i := users[i].(xp := newXp, completedRooms := users[i].completedRooms + [roomId])]
  }

  const CompletedMessage := "Flag correct! Room completed!"
  const AlreadyMessage := "Flag correct! Already completed."
  const IncorrectMessage := "Incorrect flag. Try again!"

  /**
   * `submit_flag` for an authenticated caller. `progressId` is the id the new
   * progress row would get. The new xp is computed from the caller document
   * read at authentication.
   */
  function SubmitFlag(db: Db, caller: User, roomId: string, flag: string, progressId: string): (Db, Response) {
    match FindRoom(db.rooms, roomId)
    case None => (db, Fail(404, "Room not found"))
    case Some(ri) =>
      var room := db.rooms[ri];
      if flag !in FlagsOf(room) then
        (db, Ok(FlagVerdict(false, IncorrectMessage, None)))
      else if FindProgress(db.progress, caller.id, roomId).Some? then
        (db, Ok(FlagVerdict(true, AlreadyMessage, None)))
      else
        var row := Progress(progressId, caller.id, roomId, true);
        var users := AwardXp(db.users, caller.id, caller.xp + RewardOf(room), roomId);
        (db.(progress := db.progress + [row], users := users),
         Ok(FlagVerdict(true, CompletedMessage, Some(RewardOf(room)))))
  }

  // ---------------------------------------------------------------------------
  // Lab sessions

  /** How the container start went: no Docker client (the mock id's eight hex digits), a container, or a Docker error. */
  datatype LabStart = MockLab(hex: string) | Container(containerId: string) | DockerError

  function FindRunning(sessions: seq<Session>, userId: string, roomId: string): Option<nat> {
    FirstIndex(sessions, (s: Session) => s.userId == userId && s.roomId == roomId && s.status == "running")
  }

  /** The session `start_lab` records for a start that went as `start` says. */
  function NewSession(id: string, userId: string, roomId: string, start: LabStart): Session {
    match start
    case MockLab(hex) => Session(id, userId, roomId, Some("mock-" + hex), "running")
    case Container(c) => Session(id, userId, roomId, Some(c), "running")
    case DockerError => Session(id, userId, roomId, None, "error")
  }

  /** `start_lab`: 400 without a lab, the caller's running session when there is one, else a new session. */
  function StartLab(db: Db, caller: User, roomId: string, sessionId: string, start: LabStart): (Db, Response) {
    match FindRoom(db.rooms, roomId)
    case None => (db, Fail(400, "Room has no lab"))
    case Some(ri) =>
      if !db.rooms[ri].hasLab then (db, Fail(400, "Room has no lab"))
      else match FindRunning(db.sessions, caller.id, roomId)
        case Some(si) => (db, Ok(SessionInfo(db.sessions[si])))
        case None =>
          var s := NewSession(sessionId, caller.id, roomId, start);
          (db.(sessions := db.sessions + [s]), Ok(SessionInfo(s)))
  }

  function FindOwnSession(sessions: seq<Session>, sessionId: string, userId: string): Option<nat> {
    FirstIndex(sessions, (s: Session) => s.id == sessionId && s.userId == userId)
  }

  /** What `exec_run` in the container gave: its decoded output and exit code, or the exception it raised. */
  datatype ExecOutcome = Ran(output: string, exitCode: int) | Raised(message: string)

  /** A container id the `if` takes as true: present and not "". */
  predicate Truthy(containerId: Option<string>) {
    containerId.Some? && containerId.value != ""
  }

  /**
   * `execute_command`: 404 unless the session is the caller's; otherwise the
   * container's answer when Docker is up (`docker` is `Some`) and the session
   * has a container, and the mock reply in every other case. The session's
   * status is not consulted, and nothing is written.
   */
  function ExecuteCommand(db: Db, caller: User, sessionId: string, command: Option<string>, docker: Option<ExecOutcome>): Response {
    match FindOwnSession(db.sessions, sessionId, caller.id)
    case None => Fail(404, "Session not found")
    case Some(si) =>
      var cmd := match command case Some(c) => c case None => "";
      if docker.Some? && Truthy(db.sessions[si].containerId) then
        match docker.value
        case Ran(output, code) => Ok(CommandOutput(output, code))
        case Raised(message) => Ok(CommandOutput("Error: " + message, 1))
      else
        Ok(CommandOutput("Mock output for: " + cmd + "\nDocker not available", 0))
  }

  /** The `$set` of status 'stopped' on the first session with that id, whoever owns it. */
  function MarkStopped(sessions: seq<Session>, sessionId: string): seq<Session> {
    match FirstIndex(sessions, (s: Session) => s.id == sessionId)
    case None => sessions
    case Some(i) => sessions[i := sessions[i].(status := "stopped")]
  }

  /** `stop_lab`: 404 unless the session is the caller's; then the session is marked stopped. */
  function StopLab(db: Db, caller: User, sessionId: string): (Db, Response) {
    match FindOwnSession(db.sessions, sessionId, caller.id)
    case None => (db, Fail(404, "Session not found"))
    case Some(_) => (db.(sessions := MarkStopped(db.sessions, sessionId)), Ok(Message("Lab stopped")))
  }

  // ---------------------------------------------------------------------------
  // Admin handlers

  function CreateRoadmap(db: Db, caller: User, roadmap: Roadmap): (Db, Response) {
    if !IsAdmin(caller) then (db, AdminOnly)
    else (db.(roadmaps := db.roadmaps + [roadmap]), Ok(RoadmapInfo(roadmap)))
  }

  /** The stored document for a room model; it has no uploaded files yet. */
  function StoredRoom(m: RoomModel): Room {
    Room(m.id, m.title, m.category, m.roomType, m.labType, m.hasLab, Some(m.flags), Some(m.xpReward), None)
  }

  function CreateRoom(db: Db, caller: User, m: RoomModel): (Db, Response) {
    if !IsAdmin(caller) then (db, AdminOnly)
    else (db.(rooms := db.rooms + [StoredRoom(m)]), Ok(RoomInfo(m)))
  }

  /**
   * `update_room`: `$set` of every field of the model on the first room with
   * the path's id, the id field included; the uploaded files stay.
   */
  function UpdateRoom(db: Db, caller: User, roomId: string, m: RoomModel): (Db, Response) {
    if !IsAdmin(caller) then (db, AdminOnly)
    else match FindRoom(db.rooms, roomId)
      case None => (db, Fail(404, "Room not found"))
      case Some(i) =>
        var updated := StoredRoom(m).(uploadedFiles := db.rooms[i].uploadedFiles);
        (db.(rooms := db.rooms[i := updated]), Ok(RoomInfo(m)))
  }

  function DeleteRoom(db: Db, caller: User, roomId: string): (Db, Response) {
    if !IsAdmin(caller) then (db, AdminOnly)
    else match FindRoom(db.rooms, roomId)
      case None => (db, Fail(404, "Room not found"))
      case Some(i) => (db.(rooms := RemoveAt(db.rooms, i)), Ok(Message("Room deleted")))
  }

  function UpdateUserRole(db: Db, caller: User, userId: string, role: string): (Db, Response) {
    if !IsAdmin(caller) then (db, AdminOnly)
    else match FindUser(db.users, userId)
      case None => (db, Fail(404, "User not found"))
      case Some(i) => (db.(users := db.users[i := db.users[i].(role := role)]), Ok(Message("Role updated")))
  }

  function DeleteUser(db: Db, caller: User, userId: string): (Db, Response) {
    if !IsAdmin(caller) then (db, AdminOnly)
    else match FindUser(db.users, userId)
      case None => (db, Fail(404, "User not found"))
      case Some(i) => (db.(users := RemoveAt(db.users, i)), Ok(Message("User deleted")))
  }

  /** The list comprehension of `delete_lab_file`: every entry with another filename, in order. */
  function WithoutFile(files: seq<LabFile>, filename: string): (r: seq<LabFile>)
    ensures forall k | 0 <= k < |r| :: r[k] in files && r[k].filename != filename
    ensures forall f | f in files && f.filename != filename :: f in r
    ensures |r| <= |files|
  {
    if files == [] then []
    else if files[0].filename != filename then [files[0]] + WithoutFile(files[1..], filename)
    else WithoutFile(files[1..], filename)
  }

  /** Filtering a concatenation filters each part: the kept entries stay in order. */
  lemma {:induction false} WithoutFileAppend(a: seq<LabFile>, b: seq<LabFile>, filename: string)
    ensures WithoutFile(a + b, filename) == WithoutFile(a, filename) + WithoutFile(b, filename)
    decreases |a|
  {
    if a == [] {
      assert a + b == b;
    } else {
      assert (a + b)[1..] == a[1..] + b;
      WithoutFileAppend(a[1..], b, filename);
    }
  }

  /** Every entry with another name is kept as often as it occurs; the named ones all go. */
  lemma {:induction false} WithoutFileCounts(files: seq<LabFile>, filename: string, f: LabFile)
    ensures multiset(WithoutFile(files, filename))[f] == if f.filename == filename then 0 else multiset(files)[f]
    decreases |files|
  {
    if files != [] {
      assert files == [files[0]] + files[1..];
      WithoutFileCounts(files[1..], filename, f);
    }
  }

  /**
   * `delete_lab_file`. `onDisk` says whether the file exists under the room's
   * upload directory (its removal is not modelled). The room's list is
   * filtered only when the room has one.
   */
  function DeleteLabFile(db: Db, caller: User, roomId: string, filename: string, onDisk: bool): (Db, Response) {
    if !IsAdmin(caller) then (db, AdminOnly)
    else if !onDisk then (db, Fail(404, "File not found"))
    else
      var reply := Ok(Message("File " + filename + " deleted"));
      match FindRoom(db.rooms, roomId)
      case None => (db, reply)
      case Some(i) =>
        match db.rooms[i].uploadedFiles
        case None => (db, reply)
        case Some(files) =>
          (db.(rooms := db.rooms[i := db.rooms[i].(uploadedFiles := Some(WithoutFile(files, filename)))]), reply)
  }

  /** The `$set` of `uploaded_files` on the first room with that id; nothing when there is none. */
  function SetUploads(rooms: seq<Room>, roomId: string, files: seq<LabFile>): seq<Room> {
    match FindRoom(rooms, roomId)
    case None => rooms
    case Some(i) => rooms[i := rooms[i].(uploadedFiles := Some(files))]
  }

  /** One file of an upload request: its name, its size, and whether saving it to disk worked. */
  datatype Upload = Upload(filename: string, size: nat, saved: bool)

  /** The `uploaded_files` entries for files saved under `uploadDir`/`roomId`. */
  function UploadRecords(files: seq<Upload>, uploadDir: string, roomId: string): (r: seq<LabFile>)
    ensures |r| == |files|
    ensures forall k | 0 <= k < |r| :: r[k].filename == files[k].filename && r[k].size == files[k].size
  {
    if files == [] then []
    else
      UploadRecords(files[..|files| - 1], uploadDir, roomId)
      + [LabFile(files[|files| - 1].filename, uploadDir + "/" + roomId + "/" + files[|files| - 1].filename, files[|files| - 1].size)]
  }

  /**
   * `upload_lab_files`: a file that cannot be saved ends the request with 500
   * before the room is touched; otherwise the room's list is replaced by the
   * new entries (not extended), and a missing room is not an error.
   */
  function UploadLabFiles(db: Db, caller: User, roomId: string, files: seq<Upload>, uploadDir: string): (Db, Response) {
    if !IsAdmin(caller) then (db, AdminOnly)
    else match FirstIndex(files, (f: Upload) => !f.saved)
      case Some(k) => (db, Fail(500, "Failed to upload " + files[k].filename))
      case None =>
        var records := UploadRecords(files, uploadDir, roomId);
        (db.(rooms := SetUploads(db.rooms, roomId, records)),
         Ok(UploadReport("Successfully uploaded " + IntToString(|files|) + " file(s)", records)))
  }

  // ---------------------------------------------------------------------------
  // Code execution

  /** `language_map.get(language, 'python')` after `code_data.get('language', 'python')`. */
  function PistonLanguage(language: Option<string>): (r: string)
    ensures r in {"python", "javascript", "bash"}
    ensures language.Some? && language.value in {"python", "javascript", "bash"} ==> r == language.value
    ensures (language.None? || language.value !in {"python", "javascript", "bash"}) ==> r == "python"
  {
    match language
    case None => "python"
    case Some(l) => if l == "python" || l == "javascript" || l == "bash" then l else "python"
  }

  /** The `run` object of the service's JSON answer; a missing key is `None`. */
  datatype RunResult = RunResult(output: Option<string>, stderr: Option<string>, stdout: Option<string>, code: Option<int>)

  /** What the call to the code-running service did: answered with a status (and `run` on 200), or raised. */
  datatype ServiceReply = Answered(status: int, run: Option<RunResult>) | CallFailed(message: string)

  datatype CodeRun = CodeRun(output: string, stderr: string, stdout: string, exitCode: int)

  function OrEmpty(s: Option<string>): string {
    match s case Some(v) => v case None => ""
  }

  /** The `execute_code` response for the service's reply. */
  function CodeRunResponse(reply: ServiceReply): (r: CodeRun)
    ensures reply.Answered? && reply.status != 200 ==> r == CodeRun("Execution service unavailable", "", "", 1)
    ensures reply.CallFailed? ==> r == CodeRun("", "Error: " + reply.message, "", 1)
    ensures reply.Answered? && reply.status == 200 && reply.run.None? ==> r == CodeRun("", "", "", 0)
    ensures reply.Answered? && reply.status == 200 && reply.run.Some? ==>
      var run := reply.run.value;
      && (run.output.Some? ==> r.output == run.output.value) && (run.output.None? ==> r.output == "")
      && (run.stderr.Some? ==> r.stderr == run.stderr.value) && (run.stderr.None? ==> r.stderr == "")
      && (run.stdout.Some? ==> r.stdout == run.stdout.value) && (run.stdout.None? ==> r.stdout == "")
      && (run.code.Some? ==> r.exitCode == run.code.value) && (run.code.None? ==> r.exitCode == 0)
  {
    match reply
    case CallFailed(message) => CodeRun("", "Error: " + message, "", 1)
    case Answered(status, run) =>
      if status != 200 then CodeRun("Execution service unavailable", "", "", 1)
      else match run
        case None => CodeRun("", "", "", 0)
        case Some(res) =>
          CodeRun(OrEmpty(res.output), OrEmpty(res.stderr), OrEmpty(res.stdout),
                  match res.code case Some(c) => c case None => 0)
  }
}
