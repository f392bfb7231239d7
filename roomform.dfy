/**
 * The admin room dialog: the flags and tasks of a room are edited as text
 * (flags comma-separated, tasks one per line), parsed back into lists on
 * save, and formatted from the room's lists when a room is opened for
 * editing. The create and update calls resolve at once; whether they
 * succeeded is a parameter.
 */
module RoomForm {
  import opened JsText

  /** A task as stored: an object with optional title and description, or a bare string. */
  datatype TaskValue = TaskObj(title: Option<string>, description: Option<string>) | TaskText(text: string)

  /**
   * The value of the flags or tasks field of the form: the text the dialog
   * holds, or the empty array that resetting the form puts there.
   */
  datatype FieldValue = Str(text: string) | EmptyArray

  datatype FormData = FormData(
    title: string, description: string, difficulty: string, category: string, content: string,
    xpReward: int, hasLab: bool, dockerImage: string, flags: FieldValue, tasks: FieldValue)

  /** A room as the rooms list returns it; `flags` and `tasks` are `None` when absent. */
  datatype RoomDoc = RoomDoc(
    id: string, title: string, description: string, difficulty: string, category: string, content: string,
    xpReward: int, hasLab: bool, dockerImage: string, flags: Option<seq<string>>, tasks: Option<seq<TaskValue>>)

  /** The body sent to the create or update endpoint. */
  datatype RoomPayload = RoomPayload(
    title: string, description: string, difficulty: string, category: string, content: string,
    xpReward: int, hasLab: bool, dockerImage: string, flags: seq<string>, tasks: seq<TaskValue>)

  datatype SaveCall = Create(data: RoomPayload) | Update(id: string, data: RoomPayload)

  // ---------------------------------------------------------------------------
  // Parsing and formatting

  /** The flags text: `''` gives no flags; otherwise split on ',', trim, drop the empty ones. */
  function ParseFlags(text: string): seq<string> {
    if text == "" then [] else NonEmpty(TrimAll(Split(text, ',')))
  }

  /** Each description wrapped as `{description: t}`. */
  function DescriptionTasks(lines: seq<string>): (r: seq<TaskValue>)
    ensures |r| == |lines|
    ensures forall k | 0 <= k < |r| :: r[k] == TaskObj(None, Some(lines[k]))
  {
    if lines == [] then [] else [TaskObj(None, Some(lines[0]))] + DescriptionTasks(lines[1..])
  }

  /** Parsing a tasks field: `''` gives no tasks; otherwise one task per non-blank line, trimmed. */
  function ParseTasks(text: string): seq<TaskValue> {
    if text == "" then [] else DescriptionTasks(NonEmpty(TrimAll(Split(text, '\n'))))
  }

  /** `room.flags ? room.flags.join(', ') : ''`; an empty list is truthy and joins to ''. */
  function FormatFlags(flags: Option<seq<string>>): string {
    match flags
    case None => ""
    case Some(f) => Join(f, ", ")
  }

  /** `t.description || t.title || t`; an object with neither renders as "[object Object]". */
  function TaskLine(t: TaskValue): string {
    match t
    case TaskText(s) => s
    case TaskObj(title, description) =>
      if description.Some? && description.value != "" then description.value
      else if title.Some? && title.value != "" then title.value
      else "[object Object]"
  }

  function TaskLines(tasks: seq<TaskValue>): (r: seq<string>)
    ensures |r| == |tasks|
    ensures forall k | 0 <= k < |r| :: r[k] == TaskLine(tasks[k])
  {
    if tasks == [] then [] else [TaskLine(tasks[0])] + TaskLines(tasks[1..])
  }

  function FormatTasks(tasks: Option<seq<TaskValue>>): string {
    match tasks
    case None => ""
    case Some(ts) => Join(TaskLines(ts), "\n")
  }

  // ---------------------------------------------------------------------------
  // Properties of parsing and formatting

  /** Every parsed flag is non-empty, trimmed and free of commas. */
  lemma ParsedFlagsAreClean(text: string)
    ensures forall k | 0 <= k < |ParseFlags(text)| ::
      var f := ParseFlags(text)[k]; f != "" && IsTrimmed(f) && ',' !in f
  {
    if text != "" {
      var pieces := Split(text, ',');
      var trimmed := TrimAll(pieces);
      forall k | 0 <= k < |trimmed| ensures IsTrimmed(trimmed[k]) && ',' !in trimmed[k] {
        TrimIsTrimmed(pieces[k]);
        TrimIsInfix(pieces[k]);
      }
      NonEmptyKeeps(trimmed, (f: string) => IsTrimmed(f) && ',' !in f);
    }
  }

  /** `NonEmpty` keeps only elements of its input, so it keeps any property they all have. */
  lemma {:induction false} NonEmptyKeeps(parts: seq<string>, p: string -> bool)
    requires forall k | 0 <= k < |parts| :: p(parts[k])
    ensures forall k | 0 <= k < |NonEmpty(parts)| :: p(NonEmpty(parts)[k])
  {
    if parts != [] {
      NonEmptyKeeps(parts[1..], p);
    }
  }

  /** What `trim` returns is a piece of its input, so it holds no character the input lacks. */
  lemma TrimIsInfix(s: string)
    ensures forall c | c in Trim(s) :: c in s
  {
    var e := TrimEnd(s);
    var r := TrimStart(e);
    forall c | c in r ensures c in s {
      var k :| 0 <= k < |r| && r[k] == c;
      assert r[k] == e[|e| - |r| + k];
      assert e[|e| - |r| + k] == s[|e| - |r| + k];
    }
  }

  /** The flags with a space put in front of every one but the first: what ", " leaves after a split on ",". */
  function Spaced(flags: seq<string>): (r: seq<string>)
    ensures |r| == |flags|
  {
    if |flags| <= 1 then flags else [flags[0]] + Spaced1(flags[1..])
  }

  function Spaced1(flags: seq<string>): (r: seq<string>)
    ensures |r| == |flags|
    ensures forall k | 0 <= k < |r| :: r[k] == " " + flags[k]
  {
    if flags == [] then [] else [" " + flags[0]] + Spaced1(flags[1..])
  }

  lemma {:induction false} JoinCommaSpace(flags: seq<string>)
    ensures Join(flags, ", ") == Join(Spaced(flags), ",")
  {
    if |flags| > 1 {
      JoinCommaSpaceTail(flags[0], flags[1..]);
    }
  }

  lemma {:induction false} JoinCommaSpaceTail(head: string, rest: seq<string>)
    requires |rest| > 0
    ensures Join([head] + rest, ", ") == Join([head] + Spaced1(rest), ",")
    decreases |rest|
  {
    assert ([head] + rest)[1..] == rest;
    assert ([head] + Spaced1(rest))[1..] == Spaced1(rest);
    if |rest| == 1 {
      assert Spaced1(rest) == [" " + rest[0]];
    } else {
      JoinCommaSpaceTail(rest[0], rest[1..]);
      assert [rest[0]] + rest[1..] == rest;
      assert Spaced1(rest) == [" " + rest[0]] + Spaced1(rest[1..]);
      assert Join(Spaced1(rest), ",") == " " + rest[0] + "," + Join(Spaced1(rest[1..]), ",");
      assert Join(rest, ", ") == rest[0] + ", " + Join(rest[1..], ", ");
    }
  }

  lemma AllSpaceOfBlank()
    ensures AllSpace(" ")
  {
    assert IsSpace(" "[0]);
  }

  /** The first flag as it is, every later one behind a space. */
  lemma SpacedShape(flags: seq<string>)
    requires |flags| > 0
    ensures Spaced(flags)[0] == flags[0]
    ensures forall k | 1 <= k < |flags| :: Spaced(flags)[k] == " " + flags[k]
  {
    if |flags| > 1 {
      assert Spaced(flags) == [flags[0]] + Spaced1(flags[1..]);
    }
  }

  /** Trimming the spaced flags gives the flags back, when they were trimmed to begin with. */
  lemma TrimSpaced(flags: seq<string>)
    requires |flags| > 0
    requires forall k | 0 <= k < |flags| :: IsTrimmed(flags[k])
    ensures TrimAll(Spaced(flags)) == flags
  {
    SpacedShape(flags);
    AllSpaceOfBlank();
    forall k | 0 <= k < |flags| ensures TrimAll(Spaced(flags))[k] == flags[k] {
      if k == 0 {
        TrimOfTrimmed(flags[0]);
      } else {
        TrimDropsLeadingSpace(" ", flags[k]);
      }
    }
  }

  /**
   * Flags that are non-empty, trimmed and free of commas come back unchanged
   * from formatting for the edit dialog and parsing on save.
   */
  lemma FlagsRoundTrip(flags: seq<string>)
    requires forall k | 0 <= k < |flags| :: flags[k] != "" && IsTrimmed(flags[k]) && ',' !in flags[k]
    ensures ParseFlags(FormatFlags(Some(flags))) == flags
  {
    if flags != [] {
      JoinCommaSpace(flags);
      var spaced := Spaced(flags);
      SpacedShape(flags);
      assert forall k | 0 <= k < |spaced| :: ',' !in spaced[k] by {
        forall k | 1 <= k < |spaced| ensures ',' !in spaced[k] {
          assert spaced[k] == " " + flags[k];
        }
      }
      JoinNonEmpty(spaced, ",");
      SplitJoin(spaced, ',');
      TrimSpaced(flags);
    }
  }

  /** Parsing, formatting and parsing again gives the first parse: saving an unedited room keeps its flags. */
  lemma FlagsParseIsStable(text: string)
    ensures ParseFlags(FormatFlags(Some(ParseFlags(text)))) == ParseFlags(text)
  {
    ParsedFlagsAreClean(text);
    FlagsRoundTrip(ParseFlags(text));
  }

  /**
   * Tasks whose descriptions are non-empty, trimmed and free of newlines come
   * back in order as description-only tasks: any title is dropped.
   */
  lemma TasksRoundTrip(tasks: seq<TaskValue>)
    requires forall k | 0 <= k < |tasks| :: tasks[k].TaskObj? && tasks[k].description.Some?
    requires forall k | 0 <= k < |tasks| :: var d := tasks[k].description.value;
      d != "" && IsTrimmed(d) && '\n' !in d
    ensures ParseTasks(FormatTasks(Some(tasks))) ==
      seq(|tasks|, k requires 0 <= k < |tasks| => TaskObj(None, tasks[k].description))
  {
    var lines := TaskLines(tasks);
    if tasks != [] {
      assert forall k | 0 <= k < |lines| :: lines[k] == tasks[k].description.value;
      ParseJoinedLines(lines);
    }
  }

  /** Non-empty, trimmed, newline-free lines joined by newlines parse back to one task per line. */
  lemma ParseJoinedLines(lines: seq<string>)
    requires |lines| > 0
    requires forall k | 0 <= k < |lines| :: lines[k] != "" && IsTrimmed(lines[k]) && '\n' !in lines[k]
    ensures ParseTasks(Join(lines, "\n")) == DescriptionTasks(lines)
  {
    JoinNonEmpty(lines, "\n");
    SplitJoin(lines, '\n');
    TrimAllOfTrimmed(lines);
  }

  // ---------------------------------------------------------------------------
  // The form

  /** The empty form: strings for every text field, as the page starts. */
  const EmptyForm: FormData :=
    FormData("", "", "Beginner", "General", "", 100, false, "ubuntu:20.04", Str(""), Str(""))

  /** The room data `handleSubmit` sends, or `None` when building it throws. */
  function Payload(form: FormData): Option<RoomPayload> {
    match (form.flags, form.tasks)
    case (Str(flags), Str(tasks)) =>
      Some(RoomPayload(form.title, form.description, form.difficulty, form.category, form.content,
                       form.xpReward, form.hasLab, form.dockerImage, ParseFlags(flags), ParseTasks(tasks)))
    case _ => None
  }

  /** The form `handleEdit` fills from a room. */
  function FormOf(room: RoomDoc): FormData {
    FormData(room.title, room.description, room.difficulty, room.category, room.content,
             room.xpReward, room.hasLab, room.dockerImage,
             Str(FormatFlags(room.flags)), Str(FormatTasks(room.tasks)))
  }

  /** Opening a room and saving it unedited sends its own flags back when they are clean. */
  lemma EditSaveKeepsFlags(room: RoomDoc)
    requires room.flags.Some?
    requires forall k | 0 <= k < |room.flags.value| ::
      var f := room.flags.value[k]; f != "" && IsTrimmed(f) && ',' !in f
    ensures Payload(FormOf(room)).Some?
    ensures Payload(FormOf(room)).value.flags == room.flags.value
  {
    FlagsRoundTrip(room.flags.value);
  }

  /** The form `resetForm` leaves, as written: the flags and tasks fields hold `[]`. */
  const ResetFormAsWritten: FormData :=
    FormData("", "", "Beginner", "General", "", 100, false, "ubuntu:20.04", EmptyArray, EmptyArray)

  /**
   * After the reset as written, saving throws: `[]` is truthy, and an array
   * has no `split`. The dialog has no flags or tasks inputs, so a room can
   * never be created from it.
   */
  lemma SaveAfterResetAsWrittenThrows(title: string, description: string, difficulty: string, xp: int, content: string)
    ensures Payload(ResetFormAsWritten.(title := title, description := description, difficulty := difficulty,
                                         xpReward := xp, content := content)) == None
  {
  }

  /** With the reset corrected to empty strings, the same form saves with no flags and no tasks. */
  lemma SaveAfterResetSucceeds(title: string, description: string, difficulty: string, xp: int, content: string)
    ensures var p := Payload(EmptyForm.(title := title, description := description, difficulty := difficulty,
                                        xpReward := xp, content := content));
      p.Some? && p.value.flags == [] && p.value.tasks == [] && p.value.title == title && p.value.xpReward == xp
  {
  }

  /** The room management page's dialog state and the save calls it has made. */
  class AdminRooms {
    var form: FormData
    var editingRoom: Option<RoomDoc>
    var dialogOpen: bool
    var calls: seq<SaveCall>

    constructor ()
      ensures form == EmptyForm && editingRoom == None && !dialogOpen && calls == []
    {
      form, editingRoom, dialogOpen, calls := EmptyForm, None, false, [];
    }

    /** `resetForm`, with the flags and tasks fields reset to '' (see the finding). */
    method ResetForm()
      modifies this`form
      ensures form == EmptyForm
    {
      form := EmptyForm;
    }

    /** The "Create Room" button: no room being edited, a reset form, the dialog open. */
    method OpenCreate()
      modifies this`form, this`editingRoom, this`dialogOpen
      ensures editingRoom == None && form == EmptyForm && dialogOpen
    {
      editingRoom := None;
      ResetForm();
      dialogOpen := true;
    }

    /** `handleEdit`: the room remembered, its lists formatted into the form, the dialog opened. */
    method HandleEdit(room: RoomDoc)
      modifies this`form, this`editingRoom, this`dialogOpen
      ensures editingRoom == Some(room) && form == FormOf(room) && dialogOpen
    {
      editingRoom := Some(room);
      form := FormOf(room);
      dialogOpen := true;
    }

    /**
     * `handleSubmit`. A form whose data cannot be built makes no call. Otherwise
     * one update (with the edited room's id) or one create is made; when it
     * succeeds the dialog closes, nothing is being edited and the form is
     * reset; when it fails, only the call is new.
     */
    method HandleSubmit(saveOk: bool)
      modifies this`form, this`editingRoom, this`dialogOpen, this`calls
      ensures Payload(old(form)).None? ==>
        form == old(form) && editingRoom == old(editingRoom) && dialogOpen == old(dialogOpen) && calls == old(calls)
      ensures Payload(old(form)).Some? ==>
        var data := Payload(old(form)).value;
        && calls == old(calls) + [if old(editingRoom).Some? then Update(old(editingRoom).value.id, data) else Create(data)]
        && (saveOk ==> !dialogOpen && editingRoom == None && form == EmptyForm)
        && (!saveOk ==> dialogOpen == old(dialogOpen) && editingRoom == old(editingRoom) && form == old(form))
    {
      var data := Payload(form);
      if data.None? {
        return;   // the TypeError lands in the catch: a toast, nothing else
      }
      match editingRoom {
        case Some(room) => calls := calls + [Update(room.id, data.value)];
        case None => calls := calls + [Create(data.value)];
      }
      if saveOk {
        dialogOpen := false;
        editingRoom := None;
        ResetForm();
      }
    }
  }
}
