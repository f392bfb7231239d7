/**
 * The room page's two handlers with state: starting the room's lab (a
 * dispatch on the lab type, guarded by a re-entrancy flag) and submitting an
 * answer to one of the room's questions. Remote calls resolve atomically: their
 * outcome is a parameter of the handler.
 */
module RoomDetail {
  import opened JsText

  /** The two fields of the loaded room that the dispatch reads; a missing field is `None`. */
  datatype RoomInfo = RoomInfo(labType: Option<string>, roomType: Option<string>)

  datatype LabKind = EditorLab | WebLab | TerminalLab

  /** The dispatch order of `handleStartLab`: the code-editor test comes before the web test. */
  function KindOf(room: RoomInfo): (k: LabKind)
    ensures k == EditorLab <==> room.labType == Some("code_editor") || room.roomType == Some("programming")
    ensures k == WebLab <==> room.labType == Some("web") && room.roomType != Some("programming")
  {
    if room.labType == Some("code_editor") || room.roomType == Some("programming") then EditorLab
    else if room.labType == Some("web") then WebLab
    else TerminalLab
  }

  /** The start button's caption, chosen by its own condition chain. */
  function StartLabel(room: RoomInfo): string {
    if room.labType == Some("code_editor") || room.roomType == Some("programming") then "Open Code Editor"
    else if room.labType == Some("web") then "Launch Web Challenge"
    else "Start Terminal Lab"
  }

  function KindLabel(k: LabKind): string {
    match k
    case EditorLab => "Open Code Editor"
    case WebLab => "Launch Web Challenge"
    case TerminalLab => "Start Terminal Lab"
  }

  /** The caption always names the lab that clicking the button opens. */
  lemma LabelFollowsDispatch(room: RoomInfo)
    ensures StartLabel(room) == KindLabel(KindOf(room))
    ensures forall other: RoomInfo :: StartLabel(other) == StartLabel(room) ==> KindOf(other) == KindOf(room)
  {
  }

  /** The outcome of `labAPI.start`: the session id it returned, if any, or a thrown error. */
  datatype StartReply = Started(id: Option<string>) | StartFailed

  /** A template literal renders a missing id as "undefined". */
  function IdText(id: Option<string>): string {
    match id
    case Some(s) => s
    case None => "undefined"
  }

  predicate Truthy(id: Option<string>) {
    id.Some? && id.value != ""
  }

  /** The outcome of the answer check request: its verdict, or a thrown error. */
  datatype CheckReply = Checked(correct: bool) | CheckFailed

  /** The answer in the form for `flagId`, or `None` for `undefined`. */
  function AnswerOf(answers: map<string, string>, flagId: string): Option<string> {
    if flagId in answers then Some(answers[flagId]) else None
  }

  /** `!answer || !answer.trim()`: a missing, empty or whitespace-only answer is refused. */
  predicate Blank(answer: Option<string>) {
    answer.None? || AllSpace(answer.value)
  }

  class RoomPage {
    const roomId: string
    const room: RoomInfo
    var startingLab: bool
    var answeredFlags: seq<string>
    var flagAnswers: map<string, string>
    var submittingFlag: Option<string>
    /** Paths passed to `navigate`, in order. */
    var navigations: seq<string>
    /** Room ids sent to `labAPI.start`, in order. */
    var startCalls: seq<string>
    /** (flag id, answer) pairs sent to the answer check, in order. */
    var answerChecks: seq<(string, string)>

    /** The page once its room has loaded; the answered list comes from the server. */
    constructor (roomId: string, room: RoomInfo, answered: seq<string>)
      ensures this.roomId == roomId && this.room == room
      ensures !startingLab && answeredFlags == answered && flagAnswers == map[] && submittingFlag == None
      ensures navigations == [] && startCalls == [] && answerChecks == []
    {
      this.roomId := roomId;
      this.room := room;
      startingLab := false;
      answeredFlags := answered;
      flagAnswers := map[];
      submittingFlag := None;
      navigations := [];
      startCalls := [];
      answerChecks := [];
    }

    /**
     * `handleStartLab`. While a start is under way nothing happens. The code
     * editor opens without a start call and leaves the flag set; the web lab
     * and the terminal lab make one start call each.
     */
    method HandleStartLab(reply: StartReply)
      modifies this`startingLab, this`navigations, this`startCalls
      ensures old(startingLab) ==> startingLab && navigations == old(navigations) && startCalls == old(startCalls)
      ensures !old(startingLab) && KindOf(room) == EditorLab ==>
        startingLab && startCalls == old(startCalls) && navigations == old(navigations) + ["/challenges/python-" + roomId]
      ensures !old(startingLab) && KindOf(room) != EditorLab ==> startCalls == old(startCalls) + [roomId]
      ensures !old(startingLab) && KindOf(room) == WebLab ==>
        if reply.Started? then startingLab && navigations == old(navigations) + ["/web-lab/" + IdText(reply.id)]
        else !startingLab && navigations == old(navigations)
      ensures !old(startingLab) && KindOf(room) == TerminalLab ==>
        if reply.Started? && Truthy(reply.id) then startingLab && navigations == old(navigations) + ["/lab/" + reply.id.value]
        else !startingLab && navigations == old(navigations)
    {
      if startingLab {
        return;
      }
      startingLab := true;
      var kind := KindOf(room);
      if kind == EditorLab {
        navigations := navigations + ["/challenges/python-" + roomId];
        return;
      }
      startCalls := startCalls + [roomId];
      match reply {
        case StartFailed =>
          startingLab := false;
        case Started(id) =>
          if kind == WebLab {
            navigations := navigations + ["/web-lab/" + IdText(id)];
          } else if Truthy(id) {
            navigations := navigations + ["/lab/" + id.value];
          } else {
            startingLab := false;
          }
      }
    }

    /**
     * `handleSubmitAnswer`. A blank answer sends nothing and changes nothing.
     * Otherwise the answer is checked; a correct one marks the flag answered
     * and clears only that flag's answer, and nothing is left in progress.
     */
    method HandleSubmitAnswer(flagId: string, reply: CheckReply)
      modifies this`answeredFlags, this`flagAnswers, this`submittingFlag, this`answerChecks
      ensures Blank(AnswerOf(old(flagAnswers), flagId)) ==>
        answeredFlags == old(answeredFlags) && flagAnswers == old(flagAnswers)
        && submittingFlag == old(submittingFlag) && answerChecks == old(answerChecks)
      ensures !Blank(AnswerOf(old(flagAnswers), flagId)) ==>
        && answerChecks == old(answerChecks) + [(flagId, old(flagAnswers)[flagId])]
        && submittingFlag == None
        && (reply == Checked(true) ==> answeredFlags == old(answeredFlags) + [flagId] && flagAnswers == old(flagAnswers)[flagId := ""])
        && (reply != Checked(true) ==> answeredFlags == old(answeredFlags) && flagAnswers == old(flagAnswers))
    {
      var answer := AnswerOf(flagAnswers, flagId);
      if Blank(answer) {
        return;
      }
      submittingFlag := Some(flagId);
      answerChecks := answerChecks + [(flagId, answer.value)];
      if reply == Checked(true) {
        answeredFlags := answeredFlags + [flagId];
        flagAnswers := flagAnswers[flagId := ""];
      }
      submittingFlag := None;
    }

    /** `handleAnswerChange`: the entry for `flagId` becomes `value`; every other entry stays as it was. */
    method HandleAnswerChange(flagId: string, value: string)
      modifies this`flagAnswers
      ensures AnswerOf(flagAnswers, flagId) == Some(value)
      ensures forall k | k != flagId :: AnswerOf(flagAnswers, k) == AnswerOf(old(flagAnswers), k)
    {
      flagAnswers := flagAnswers[flagId := value];
    }
  }

  /** Once an editor or web start, or a terminal start with an id, has gone out, a second click changes nothing. */
  method SecondClickIsIgnored(p: RoomPage, first: StartReply, second: StartReply)
    requires KindOf(p.room) == EditorLab || (first.Started? && (KindOf(p.room) == WebLab || Truthy(first.id)))
    requires !p.startingLab
    modifies p
    ensures p.startCalls == old(p.startCalls) + (if KindOf(p.room) == EditorLab then [] else [p.roomId])
    ensures |p.navigations| == |old(p.navigations)| + 1
  {
    p.HandleStartLab(first);
    p.HandleStartLab(second);
  }
}
