# HackLidoLearn core, modelled in Dafny

HackLidoLearn is a hacking-practice site. It has a FastAPI backend over MongoDB and a React frontend. This project models the parts of both that carry the site's logic:

- **The lab terminal** (`LabTerminal`). This is the line editor behind the xterm terminal of the lab page: a keystroke state machine over a line buffer and a command history. The terminal is an append-only sequence of `write`/`writeln` calls. One command runs per Enter, with its output, exit code or error rendered, then a fresh prompt.
- **The API** (`Server`, `ServerProps`, `ServerApi`, `Leaderboard`).
  - `Server` holds every modelled handler as a function from the database and the request to the new database and the response. Each Mongo collection is a sequence of documents; `find_one`, `update_one` and `delete_one` act on the first match.
  - `ServerProps` proves what the handlers promise: registration, authentication, flag submission and xp awards, lab start, execute and stop, the admin guard, room edits, lab file upload and delete. It also proves the database invariant they keep: unique emails, unique user and session ids, and at most one running session per user and room.
  - `ServerApi.Api` is a service object over one stored database. Its methods perform the handlers' reads and writes in the source's order and are proved equal to the `Server` functions.
  - `Leaderboard` models the sorted, limited leaderboard query.
- **The admin room dialog** (`RoomForm`). Flags and tasks are edited as text and parsed back into lists. The round trips between the two forms are proved.
- **The client routes** (`Routing`). This is the route table of the app with its private and admin guards.
- **The room page** (`RoomDetail`). It covers the lab-start dispatch with its re-entrancy flag and answer submission.
- **The code editor** (`CodeEditor`). It covers the run request and the console text built from the reply, tied to the backend's `execute_code` response.
- **The web lab page** (`WebLab`). It picks the room, submits flags and stops the lab.
- **The challenge list** (`Challenges`). It covers the language filter and the sample fallback.
- `JsText` gives the JavaScript string operations these depend on. `trim` uses ECMAScript's white-space set. `split` and `join` are on a one-character separator. It also renders integers in decimal.

Remote calls resolve atomically: what the server, Docker, the code-running service or the disk answered is a parameter of the handler that receives it. Uuids and password hashes are parameters too.

Where the code and the description of the system differ, the model follows the code:

- **Blank lines.** A line counts as blank when `trim()` empties it, not only when it is empty. The history records the raw buffer; the trimmed text is what runs.
- **Stale buffer.** The terminal handler reads a stale buffer (see Findings). The model exposes this stale read next to the evidently intended behaviour.

## Model

| member | source | states |
|---|---|---|
| JsText.TrimStart | frontend/src/pages/LabPage.js:80 | Removes exactly the longest all-white-space prefix; the result starts with a non-space or is empty |
| JsText.TrimEnd | frontend/src/pages/LabPage.js:80 | Removes exactly the longest all-white-space suffix; the result ends with a non-space or is empty |
| JsText.Trim | frontend/src/pages/LabPage.js:80-81 | `trim()` is empty exactly when the text is all white space |
| JsText.TrimIsTrimmed | frontend/src/pages/LabPage.js:81 | What `trim` returns neither starts nor ends with white space |
| JsText.TrimOfTrimmed | frontend/src/pages/admin/AdminRooms.js:50 | `trim` is the identity on trimmed text, so trimming is idempotent |
| JsText.TrimDropsLeadingSpace | frontend/src/pages/admin/AdminRooms.js:50 | Leading white space before trimmed text is removed by `trim` (the space after ", ") |
| JsText.TrimStartOfSpaces | frontend/src/pages/admin/AdminRooms.js:50 | Stripping leading white space from spaces followed by a non-space start gives that rest |
| JsText.Split | frontend/src/pages/LabPage.js:107 | `split` always gives at least one piece, and no piece contains the separator |
| JsText.JoinSplit | frontend/src/pages/LabPage.js:107-109 | Joining the pieces of a split with the separator gives back the original text |
| JsText.SplitNoSeparator | frontend/src/pages/admin/AdminRooms.js:50 | Text without the separator splits into itself alone |
| JsText.SplitAfterHead | frontend/src/pages/admin/AdminRooms.js:50 | A separator-free head followed by the separator splits off exactly that head |
| JsText.SplitJoin | frontend/src/pages/admin/AdminRooms.js:50-51 | Splitting a join of separator-free pieces gives the pieces back |
| JsText.TrimAll | frontend/src/pages/admin/AdminRooms.js:50-51 | `map(f => f.trim())` keeps the length and trims each piece in place |
| JsText.TrimAllOfTrimmed | frontend/src/pages/admin/AdminRooms.js:50-51 | Trimming pieces that are already trimmed changes none of them |
| JsText.JoinNonEmpty | frontend/src/pages/admin/AdminRooms.js:50-51 | A join whose first piece is non-empty is non-empty, so the `formData.flags ?` test passes |
| JsText.NonEmpty | frontend/src/pages/admin/AdminRooms.js:50-51 | `filter(f => f)` keeps only non-empty strings, and drops nothing when none are empty |
| JsText.NonEmptyAppend | frontend/src/pages/admin/AdminRooms.js:50-51 | `filter(f => f)` distributes over concatenation, so the kept pieces stay in their order |
| JsText.NonEmptyCounts | frontend/src/pages/admin/AdminRooms.js:50-51 | Every non-empty piece is kept as often as it occurs, and no empty piece is kept |
| JsText.NatToString | backend/server.py:604 | A number renders as a non-empty string of decimal digits |
| JsText.NatToStringValue | backend/server.py:604 | Reading the rendered digits back gives the number: the rendering loses nothing |
| JsText.IntToString | frontend/src/pages/LabPage.js:113 | An integer renders non-empty, with a leading '-' exactly when it is negative |
| LabTerminal.Lines | frontend/src/pages/LabPage.js:107-109 | One `writeln` per line, in order, carrying that line |
| LabTerminal.CountAppend | frontend/src/pages/LabPage.js:101-120 | Occurrences of a terminal call in a concatenation add up |
| LabTerminal.CountLines | frontend/src/pages/LabPage.js:107-109 | Output lines never contain a plain `write`, so never a prompt |
| LabTerminal.PrintableAppends | frontend/src/pages/LabPage.js:95-98 | A printable first character appends the whole data to the buffer and echoes it, with no history change or call |
| LabTerminal.BackspaceErases | frontend/src/pages/LabPage.js:88-92 | Backspace drops exactly the last character and erases one column; on an empty buffer it does nothing |
| LabTerminal.OtherKeysIgnored | frontend/src/pages/LabPage.js:93-94 | Escape and every code other than 13, 127 and 32..126 change nothing and write nothing |
| LabTerminal.EnterSubmits | frontend/src/pages/LabPage.js:78-84 | Enter on a non-blank buffer clears it, records the raw buffer, resets the recall index and runs exactly the trimmed text once |
| LabTerminal.EnterOnBlank | frontend/src/pages/LabPage.js:78-87 | Enter on an empty or white-space-only buffer writes a line break and a prompt, runs nothing, records nothing |
| LabTerminal.StaleEnterNeverExecutes | frontend/src/pages/LabPage.js:58-84 | With the `currentCommand` captured at mount, Enter never runs or records anything, whatever was typed |
| LabTerminal.StaleBackspaceNeverErases | frontend/src/pages/LabPage.js:58-92 | With the stale read, Backspace never erases or writes |
| LabTerminal.StaleTypingAccumulates | frontend/src/pages/LabPage.js:95-98 | Typing still accumulates under the stale read, because the functional update sees the latest buffer |
| LabTerminal.PromptOnceAndLast | frontend/src/pages/LabPage.js:101-120 | Every command outcome writes the prompt exactly once, and last |
| LabTerminal.ReplyRendersOutput | frontend/src/pages/LabPage.js:104-114 | The written lines rejoin to exactly the output; an exit-code line follows exactly when the code is not 0 |
| LabTerminal.FailureRendersError | frontend/src/pages/LabPage.js:115-119 | A failed call writes one red error line carrying the failure's message, then the prompt |
| LabTerminal.Terminal.constructor | frontend/src/pages/LabPage.js:18-56 | Mounting writes three banner lines, a blank line and the prompt; empty buffer and history, index -1, no call |
| LabTerminal.Terminal.WritePrompt | frontend/src/pages/LabPage.js:71-73 | Appends exactly one prompt write |
| LabTerminal.Terminal.WriteLines | frontend/src/pages/LabPage.js:107-109 | The loop writes every '\n'-separated piece of the output with `writeln`, in order |
| LabTerminal.Terminal.ExecuteCommand | frontend/src/pages/LabPage.js:101-120 | Exactly one execute call with the command; the screen grows by exactly the reply's transcript |
| LabTerminal.Terminal.HandleInput | frontend/src/pages/LabPage.js:75-99 | One keystroke has exactly the effect of the keystroke function on the current buffer: the new buffer, the history, the recall index, the screen and the calls made |
| LabTerminal.Terminal.SubmitLine | frontend/src/pages/LabPage.js:79-120 | Submitting clears the buffer, appends the raw buffer to history, resets the index, runs the line once and renders its transcript |
| LabTerminal.Terminal.BlankEnter | frontend/src/pages/LabPage.js:79-87 | A blank Enter only writes a line break and a prompt |
| LabTerminal.Terminal.HandleEditKey | frontend/src/pages/LabPage.js:88-98 | Every key but Enter edits the buffer at most: no history entry, no index reset, no call |
| LabTerminal.Terminal.HandleStopLab | frontend/src/pages/LabPage.js:122-133 | A successful stop writes a blank line and the termination banner; a failed stop writes nothing |
| LabTerminal.TypingAccumulates | frontend/src/pages/LabPage.js:95-98 | Printable characters typed one at a time build the buffer in order |
| LabTerminal.TypedLineRuns | frontend/src/pages/LabPage.js:75-99 | Typing a non-blank line and pressing Enter runs exactly its trimmed text and records the line |
| Server.FirstIndex | backend/server.py:319 | The first index whose element matches, with none before it; `None` exactly when nothing matches |
| Server.RemoveAt | backend/server.py:559 | `delete_one` removes exactly the element at the index and keeps the others in order |
| Server.Authenticate | backend/server.py:196-207 | A caller is found exactly for a token naming a stored user; expired tokens get "Token expired", every other failure "Invalid token" |
| Server.WithoutFile | backend/server.py:632 | The filtered list keeps exactly the entries with another filename |
| Server.WithoutFileAppend | backend/server.py:632 | The comprehension distributes over concatenation, so the kept entries stay in their order |
| Server.WithoutFileCounts | backend/server.py:632 | Every entry with another filename is kept as often as it occurs; every entry with the name goes |
| Server.UploadRecords | backend/server.py:577-590 | One entry per uploaded file, in request order, with its name and size |
| Server.PistonLanguage | backend/server.py:477-483 | Python, JavaScript and Bash map to themselves; a missing or other language falls back to python |
| Server.CodeRunResponse | backend/server.py:485-508 | A non-200 answer gives "Execution service unavailable" with exit code 1. A raised call gives the error as stderr with exit code 1. A 200 answer passes each field of `run` through, with '' for a missing text and 0 for a missing code |
| ServerProps.FirstIndexIs | backend/server.py:319 | A matching index with no match before it is what `find_one` finds |
| ServerProps.FirstIndexAppend | backend/server.py:223 | An insert at the end changes a `find_one` result only when nothing matched before |
| ServerProps.UnknownCallerDenied | backend/server.py:196-207 | A bad, expired or unknown-user token is always refused |
| ServerProps.RegisterTakenEmail | backend/server.py:210-213 | A taken email gets 400 "Email already registered" and nothing is stored |
| ServerProps.RegisterNewEmail | backend/server.py:215-236 | A new email stores exactly one user, at the end, with role "user", xp 0, level 1, and returns its summary |
| ServerProps.RegisterKeepsValid | backend/server.py:209-236 | Registration with a fresh id keeps emails and ids unique |
| ServerProps.SubmitUnknownRoom | backend/server.py:428-430 | An unknown room is a 404 and changes nothing |
| ServerProps.SubmitVerdictIff | backend/server.py:432-462 | The verdict is correct exactly when the flag is one of the room's flags |
| ServerProps.FirstCorrectSubmission | backend/server.py:435-458 | The first correct flag stores one progress record, adds the room's reward (100 by default) to the caller's xp and the room to the caller's rooms, and reports the xp earned |
| ServerProps.SubmitWithoutAward | backend/server.py:459-462 | A wrong flag, or a right one for a completed room, changes nothing and earns nothing |
| ServerProps.SecondSubmissionChangesNothing | backend/server.py:435-462 | Xp is awarded at most once: after a correct submission, a second one by the same user changes nothing. With a right flag it says "Flag correct! Already completed.", with a wrong one "Incorrect flag. Try again!" |
| ServerProps.SubmitKeepsValid | backend/server.py:426-462 | Flag submission keeps the database invariant |
| ServerProps.StartWithoutLab | backend/server.py:319-321 | A missing room, or one without a lab, is a 400 and no session is created |
| ServerProps.StartReturnsRunning | backend/server.py:323-330 | A running session of the caller for the room is returned as it is, and nothing is inserted |
| ServerProps.StartCreatesSession | backend/server.py:332-373 | Otherwise exactly one session is added at the end and nothing else changes. It runs unless Docker failed. Its container is the Docker container, `mock-` plus the hex digits without Docker, and none after a Docker error |
| ServerProps.StartIsIdempotent | backend/server.py:323-330 | Starting again after a start that gave a running session returns that session and changes nothing |
| ServerProps.StartKeepsValid | backend/server.py:317-373 | With a fresh session id, starting never gives a caller two running sessions of one room |
| ServerProps.ExecuteNeedsOwnership | backend/server.py:387-390 | Execute answers exactly for a session of the caller's; any other id is 404 "Session not found" |
| ServerProps.ExecuteWithoutDocker | backend/server.py:392-403 | Without Docker the reply is the mock output naming the command, with exit code 0 |
| ServerProps.StopNeedsOwnership | backend/server.py:406-408 | Stopping another user's session is a 404 and changes nothing |
| ServerProps.StopMarksOwnSession | backend/server.py:418-424 | Stopping the caller's session marks exactly that session stopped |
| ServerProps.StopKeepsValid | backend/server.py:405-424 | Stopping keeps the database invariant |
| ServerProps.AdminGuard | backend/server.py:268-640 | Every admin handler answers 403 "Admin only" to a non-admin and changes nothing (the role tests at lines 270, 294, 301, 310, 548, 557, 570 and 621) |
| ServerProps.UpdateRoomReplaces | backend/server.py:299-306 | An update replaces the model fields of the first room with the id, keeps its uploaded files, and touches no other room |
| ServerProps.RoomHandlersKeepUsersAndSessions | backend/server.py:268-640 | The roadmap, room and lab-file handlers leave users and sessions alone |
| ServerProps.UpdateUserRoleKeepsValid | backend/server.py:546-553 | A role change keeps the database invariant |
| ServerProps.DeleteUserKeepsValid | backend/server.py:555-562 | Deleting a user keeps the database invariant |
| ServerProps.DeleteLabFileFilters | backend/server.py:626-638 | Deleting a file removes every entry with its name from the first room with the id. Every other entry is kept as often as it occurred, in order, and nothing else in the database changes |
| ServerProps.DeleteMissingLabFile | backend/server.py:626-640 | A file missing on disk gives 404 "File not found" even for an admin, and nothing changes |
| ServerProps.UploadReplacesList | backend/server.py:577-606 | When every file is saved, the first room with the id gets exactly the new entries in request order, and nothing else changes. The reply's message counts the files |
| ServerProps.UploadFailureChangesNothing | backend/server.py:593-595 | The first file that cannot be saved ends the request with 500 naming it, before the room is touched |
| ServerApi.Api.constructor | backend/server.py:28-30 | The service starts over the given database |
| ServerApi.Api.Register | backend/server.py:209-236 | The stored database and the response are those of the registration handler |
| ServerApi.Api.SubmitFlag | backend/server.py:426-462 | For an authenticated caller, exactly the flag handler's database and response; otherwise 401 and no change |
| ServerApi.Api.StartLab | backend/server.py:317-373 | For an authenticated caller, exactly the start handler's database and response; otherwise 401 and no change |
| ServerApi.Api.Execute | backend/server.py:386-403 | The execute handler's reply for an authenticated caller, a 401 otherwise; nothing is written |
| ServerApi.Api.StopLab | backend/server.py:405-424 | For an authenticated caller, exactly the stop handler's database and response; otherwise 401 and no change |
| ServerApi.Api.UploadLabFiles | backend/server.py:564-606 | The save loop gives exactly the upload handler's result: failing at the first unsaved file, otherwise replacing the room's list |
| Leaderboard.InsertByXp | backend/server.py:514 | Insertion adds one element and puts either it or the old head first |
| Leaderboard.InsertKeepsSorted | backend/server.py:514 | Inserting into a list sorted by descending xp keeps it sorted |
| Leaderboard.InsertAddsOne | backend/server.py:514 | Insertion adds exactly the new user and loses nobody |
| Leaderboard.SortByXp | backend/server.py:514 | `.sort('xp', -1)` gives a permutation of the users in non-increasing xp |
| Leaderboard.Project | backend/server.py:513 | The projection maps every user to its entry, in order |
| Leaderboard.BoardIsSorted | backend/server.py:510-516 | The board has min(limit, number of users) entries, in non-increasing xp |
| Leaderboard.BoardEntriesAreUsers | backend/server.py:511-514 | Every entry is the projection of a stored user |
| Leaderboard.OutsideThePrefix | backend/server.py:514 | In a sorted list, a user outside the first n has no more xp than any of them |
| Leaderboard.BoardKeepsTheTop | backend/server.py:514 | A user left off the board has no more xp than anyone on it |
| Leaderboard.ProjectHas | backend/server.py:513 | A stored user's entry is in the projection |
| Leaderboard.BoardListsEveryone | backend/server.py:510-516 | With room for everyone, the board is every stored user, sorted |
| RoomForm.DescriptionTasks | frontend/src/pages/admin/AdminRooms.js:51 | Every line becomes a `{description}` task, in order |
| RoomForm.TaskLines | frontend/src/pages/admin/AdminRooms.js:75 | Each task renders as its description, else its title, else itself |
| RoomForm.ParsedFlagsAreClean | frontend/src/pages/admin/AdminRooms.js:50 | Every parsed flag is non-empty, trimmed and free of commas |
| RoomForm.NonEmptyKeeps | frontend/src/pages/admin/AdminRooms.js:50 | The non-empty filter keeps any property all pieces have |
| RoomForm.TrimIsInfix | frontend/src/pages/admin/AdminRooms.js:50 | `trim` adds no characters, so trimmed flags still have no comma |
| RoomForm.Spaced | frontend/src/pages/admin/AdminRooms.js:74 | The flags keep their number when a space goes in front of the later ones |
| RoomForm.Spaced1 | frontend/src/pages/admin/AdminRooms.js:74 | Each flag behind a space |
| RoomForm.JoinCommaSpace | frontend/src/pages/admin/AdminRooms.js:74 | Joining with ", " is joining the spaced flags with "," |
| RoomForm.JoinCommaSpaceTail | frontend/src/pages/admin/AdminRooms.js:74 | The same identity for a list with a head and a non-empty tail |
| RoomForm.AllSpaceOfBlank | frontend/src/pages/admin/AdminRooms.js:50 | The space added by ", " is white space that `trim` removes |
| RoomForm.SpacedShape | frontend/src/pages/admin/AdminRooms.js:74 | The first flag stays as it is, every later one goes behind a space |
| RoomForm.TrimSpaced | frontend/src/pages/admin/AdminRooms.js:50-74 | Trimming the spaced flags gives the trimmed flags back |
| RoomForm.FlagsRoundTrip | frontend/src/pages/admin/AdminRooms.js:50-74 | Formatting clean flags for editing and parsing them on save gives the same flags |
| RoomForm.FlagsParseIsStable | frontend/src/pages/admin/AdminRooms.js:50-74 | Parse, format, parse gives the first parse: saving an unedited room keeps its flags |
| RoomForm.TasksRoundTrip | frontend/src/pages/admin/AdminRooms.js:51-75 | Clean description tasks survive editing, while their titles are dropped |
| RoomForm.ParseJoinedLines | frontend/src/pages/admin/AdminRooms.js:51 | Clean lines joined by newlines parse back to one task per line |
| RoomForm.EditSaveKeepsFlags | frontend/src/pages/admin/AdminRooms.js:45-78 | Opening a room with clean flags and saving it sends its own flags |
| RoomForm.SaveAfterResetAsWrittenThrows | frontend/src/pages/admin/AdminRooms.js:50-105 | After the reset as written, building the payload throws for any title, description, difficulty, xp and content |
| RoomForm.SaveAfterResetSucceeds | frontend/src/pages/admin/AdminRooms.js:50-105 | After a reset to empty text, the form saves with no flags and no tasks, and its other fields kept |
| RoomForm.AdminRooms.constructor | frontend/src/pages/admin/AdminRooms.js:15-28 | The page starts with the empty form, nothing being edited, the dialog closed, no call made |
| RoomForm.AdminRooms.ResetForm | frontend/src/pages/admin/AdminRooms.js:92-105 | The form becomes the empty form (corrected: the list fields become empty text) |
| RoomForm.AdminRooms.OpenCreate | frontend/src/pages/admin/AdminRooms.js:133 | "Create Room": no room being edited, a reset form, the dialog open |
| RoomForm.AdminRooms.HandleEdit | frontend/src/pages/admin/AdminRooms.js:70-78 | The room is remembered, its flags and tasks are formatted into the form, and the dialog opens |
| RoomForm.AdminRooms.HandleSubmit | frontend/src/pages/admin/AdminRooms.js:45-68 | A payload that cannot be built makes no call and changes nothing. Otherwise one update (edited id) or one create is made: success closes and resets, failure changes only the calls |
| Routing.RenderFirst | frontend/src/App.js:55-73 | No route is rendered exactly when none matches the path |
| Routing.PrivateWaitsForLoading | frontend/src/App.js:26-32 | While loading, a private route shows the placeholder whatever the authentication says |
| Routing.PrivateShowsIffAuthenticated | frontend/src/App.js:34 | Once loaded, a private page is shown exactly when authenticated; everyone else goes to /login |
| Routing.AdminShowsIffAdmin | frontend/src/App.js:40-48 | An admin route waits while loading, then shows its page exactly to role "admin", sending everyone else to /dashboard |
| Routing.RootRedirects | frontend/src/App.js:56 | "/" sends an authenticated visitor to /dashboard and shows the landing page otherwise, without waiting for loading |
| Routing.GuardTable | frontend/src/App.js:56-72 | /login and /register are open, exactly the /admin routes are admin-only, every other route but "/" is private |
| Routing.ExclusiveNeverBoth | frontend/src/App.js:55-73 | Two patterns of different length, or with different literals at one place, never match one path |
| Routing.RoutesPairwiseExclusive | frontend/src/App.js:56-72 | Every two routes of the table are exclusive |
| Routing.AtMostOneRouteMatches | frontend/src/App.js:55-73 | No path matches two routes, so route ranking never matters |
| Routing.RenderUsesTheMatch | frontend/src/App.js:55-73 | The only matching route decides what is rendered |
| Routing.AdminPagesNeedAdmin | frontend/src/App.js:37-72 | An admin page is shown only to a loaded user whose role is "admin" |
| Routing.PrivatePagesNeedSignIn | frontend/src/App.js:23-68 | A signed-out visitor, once loading is over, is sent to /login from every private route |
| RoomDetail.KindOf | frontend/src/pages/RoomDetail.js:73-79 | The code editor opens exactly for a `code_editor` lab or a programming room; the web lab exactly for a `web` lab that is not such a room |
| RoomDetail.LabelFollowsDispatch | frontend/src/pages/RoomDetail.js:205-207 | The button's caption always names the lab a click opens, and different labs have different captions |
| RoomDetail.RoomPage.constructor | frontend/src/pages/RoomDetail.js:68-69 | A loaded room page with no start under way, no answers and no calls made |
| RoomDetail.RoomPage.HandleStartLab | frontend/src/pages/RoomDetail.js:68-104 | Nothing while a start is under way. The code editor opens with no start call; the web and terminal labs make one start call and navigate on success; failure clears the flag |
| RoomDetail.RoomPage.HandleSubmitAnswer | frontend/src/pages/RoomDetail.js:106-137 | A missing or blank answer sends nothing. Otherwise one check is sent; a correct one marks the flag answered and clears only its answer; nothing stays in progress |
| RoomDetail.RoomPage.HandleAnswerChange | frontend/src/pages/RoomDetail.js:139-141 | The answer for that flag becomes the value; every other answer stays |
| RoomDetail.SecondClickIsIgnored | frontend/src/pages/RoomDetail.js:68-104 | After a start that navigated, a second click makes no second call or navigation |
| CodeEditor.Or | frontend/src/pages/CodeEditor.js:25-26 | `a \|\| b` is `a` when present and non-empty, `b` otherwise |
| CodeEditor.StderrWins | frontend/src/pages/CodeEditor.js:26-29 | Non-empty stderr is shown as an error, even over output |
| CodeEditor.SuccessShowsResult | frontend/src/pages/CodeEditor.js:25-32 | Without stderr the run is a success showing output, else stdout, else nothing |
| CodeEditor.HeadingsDistinguishOutcomes | frontend/src/pages/CodeEditor.js:25-36 | A transport failure shows its message; a reply starts with the success mark exactly when stderr is empty |
| CodeEditor.ServiceFailureIsShown | frontend/src/pages/CodeEditor.js:26-29 | A failed call to the code-running service reaches the console as an error carrying its message |
| CodeEditor.UnavailableLooksLikeSuccess | frontend/src/pages/CodeEditor.js:25-32 | An unavailable code-running service is shown as a successful run whose result is the notice |
| CodeEditor.SuccessfulRunIsShown | frontend/src/pages/CodeEditor.js:25-32 | A run the service answered with no stderr shows the success heading, then its output, else its stdout |
| CodeEditor.FailedRunIsShown | frontend/src/pages/CodeEditor.js:26-29 | A run the service answered with stderr shows the error heading and exactly that text |
| CodeEditor.EditorPage.constructor | frontend/src/pages/CodeEditor.js:12-15 | Starts with the sample Python program, language python, no output, not running |
| CodeEditor.EditorPage.RunCode | frontend/src/pages/CodeEditor.js:17-41 | One request with the current language and code, sent while running; the console shows the reply's text; running is over |
| WebLab.FirstWebRoom | frontend/src/pages/WebLabPage.js:26 | `find` gives the first web room, and nothing exactly when there is none |
| WebLab.UrlOf | frontend/src/pages/WebLabPage.js:29 | The frame URL is never empty: the room's URL when it is present and non-empty, and exactly 'about:blank' when it is missing or empty |
| WebLab.WebLabView.constructor | frontend/src/pages/WebLabPage.js:11-15 | Starts with no room, an empty flag, nothing sent |
| WebLab.WebLabView.FetchLabInfo | frontend/src/pages/WebLabPage.js:21-34 | With a web room listed, the page shows the first one and its URL; otherwise nothing changes |
| WebLab.WebLabView.HandleSubmitFlag | frontend/src/pages/WebLabPage.js:46-65 | A blank flag, or no room yet, sends nothing. Otherwise exactly one submission; any verdict, right or wrong, clears the flag, a thrown error keeps it |
| WebLab.WebLabView.HandleStopLab | frontend/src/pages/WebLabPage.js:36-44 | One stop call for the session; only a successful stop leaves for /dashboard |
| Challenges.OfLanguage | frontend/src/pages/ChallengesPage.js:23 | The filtered list is no longer than the list and holds only the selected language |
| Challenges.AllShowsEverything | frontend/src/pages/ChallengesPage.js:20-21 | "all" shows every fetched challenge |
| Challenges.OfLanguageAppend | frontend/src/pages/ChallengesPage.js:23 | Filtering keeps the fetched order |
| Challenges.OfLanguageCounts | frontend/src/pages/ChallengesPage.js:23 | Each challenge of the language appears as often as in the fetched list, others not at all |
| Challenges.FilterIsExact | frontend/src/pages/ChallengesPage.js:19-25 | Exactly the challenges of the selected language are kept |
| Challenges.DisplayNeverEmpty | frontend/src/pages/ChallengesPage.js:90-167 | The displayed list is never empty, so "No challenges found" can never be shown |
| Challenges.SamplesIgnoreTheFilter | frontend/src/pages/ChallengesPage.js:39-90 | When nothing matches, all six samples are shown unfiltered, including ones of another language |

## Left out

- Docker: containers, `exec_run` and the auto-stop timer. What Docker answered is a parameter, and container clean-up on stop is not modelled.
- bcrypt and JWT. A token is modelled by what decoding it yields; who issued it and the expiry clock are not modelled.
- The code-running service's HTTP call. Its status and JSON are a parameter.
- MongoDB. Storage is in-memory sequences with first-match semantics. Uuids, timestamps and the `_id` field are parameters or dropped.
- The disk. Where upload and delete touch files, whether the file is there and whether saving worked are parameters.
- `Server.UploadRecords`: the stored path is the text `upload dir/room id/filename`. Python's `/` on paths drops the base when the filename is absolute or the room id is, and that case is not modelled.
- Concurrency. Handlers run one at a time, so two simultaneous submissions racing on one user's xp are not modelled. A second Enter arriving while a command is still running is not modelled either.
- The frontend's HTTP client marshalling. It is represented by the replies the pages receive. The room page's answer check is an abstract verdict (`CheckReply`).
- Not modelled, because they are outside the modelled core:
  - backend handlers: login, profile, the current-user query, room and roadmap listings, lab-file listing, the admin user list, questions and statistics;
  - frontend pages: the dashboard, login, register, profile, admin dashboard, admin users and leaderboard pages.
- xterm rendering, ANSI colours, toasts, timers, CSS and the JSX layout.
- The route matcher: trailing slashes, case-insensitive matching and URL decoding are not modelled. Paths are matched segment by segment.
- Email validation (`EmailStr`) and Pydantic coercion. `update_user_role`'s `KeyError` on a body without `role` is also not modelled.
- The admin form: the room fields other than the form's that `...room` copies into it are not carried by `FormData`. `xp_reward` is an integer, so the `parseInt` of the xp field is not modelled.
- `LabTerminal.Keystroke`: strings are sequences of Unicode scalar values, not UTF-16 code units. Backspace after a pasted astral character such as an emoji removes the whole character, where JavaScript's `slice(0, -1)` removes only its low surrogate and leaves a lone high surrogate in the buffer. A later Enter would send that half character as the command. The model does not capture this.
- History recall: the source keeps a recall index but implements no recall. Escape is a no-op, so the model only resets the index.
- `RoomDetail.RoomPage.constructor`: the room is present. The start button is only rendered once a room with a lab has loaded, so a missing room is not modelled.
- `Leaderboard.Board`: requires `limit > 0`. Mongo treats a limit of 0 as no limit, and a negative limit is not modelled. Ties keep insertion order, which Mongo's sort does not promise.
- `Server.Authenticate`: the "User not found" 401 named in the source never reaches a client. It is raised inside the `try` and caught as "Invalid token", which is what the model states.

## Findings

| source | as written | input that shows it | evidently intended | confidence | as-written member | corrected member |
|---|---|---|---|---|---|---|
| frontend/src/pages/LabPage.js:58-84 | The `onData` handler is registered once, at mount, so it reads `currentCommand` from the first render, always `''`. | Type "ls" and press Enter: no execute call is made, nothing is recorded, and a prompt is written. The buffer keeps "ls", and Backspace never erases. | Enter runs the trimmed line typed so far and records it. | not executed | LabTerminal.StaleEnterNeverExecutes | LabTerminal.TypedLineRuns |
| frontend/src/pages/admin/AdminRooms.js:102-103 | `resetForm` sets flags and tasks to `[]`. Saving then calls `.split` on an array (lines 50-51), which throws into the catch: "Failed to save room". | Open "Create Room" (line 133), fill in the title and save. The dialog has no flags or tasks inputs, so no room can ever be created. | Reset both fields to `''`, like the initial form (lines 26-27). | not executed | RoomForm.SaveAfterResetAsWrittenThrows | RoomForm.SaveAfterResetSucceeds |
