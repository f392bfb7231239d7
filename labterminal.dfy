/**
 * The lab page's terminal line editor: a keystroke state machine over a line
 * buffer, a command history and its recall index, writing to an append-only
 * terminal. The terminal is the sequence of `write`/`writeln` calls made on it.
 * Calls to the lab's execute and stop endpoints resolve at once; their
 * responses are parameters.
 */
module LabTerminal {
  import opened JsText

  /** One call on the terminal: `terminal.write(s)` or `terminal.writeln(s)`. */
  datatype TermEvent = Write(text: string) | WriteLn(text: string)

  /** What the execute endpoint answered, or the transport error the call raised. */
  datatype ExecReply =
    | Reply(output: string, exitCode: Option<int>)  // a missing `output` is ""
    | TransportError(message: string)

  const Prompt: string := "\U{1b}[1;32mhacker@lab\U{1b}[0m:\U{1b}[1;34m~\U{1b}[0m$ "
  const Erase: string := "\U{08} \U{08}"
  const NewLine: string := "\r\n"
  const TerminatedBanner: string := "\U{1b}[31m=== Lab session terminated ===\U{1b}[0m"

  /** What the mount effect writes: three banner lines, a blank line, then the prompt. */
  const Banner: seq<TermEvent> := [
    WriteLn("\U{1b}[1;32m=== HackLidoLearn Lab Terminal ===\U{1b}[0m"),
    WriteLn("\U{1b}[36mConnected to lab environment\U{1b}[0m"),
    WriteLn("\U{1b}[33mType commands below and press Enter to execute\U{1b}[0m"),
    WriteLn(""),
    Write(Prompt)
  ]

  const KeyEnter := 13
  const KeyBackspace := 127
  const KeyEscape := 27

  /** `data.charCodeAt(0)`; the NaN of an empty string matches no branch, like -1. */
  function CharCode(data: string): int {
    if data == [] then -1 else data[0] as int
  }

  predicate IsPrintable(code: int) {
    32 <= code <= 126
  }

  /** `"x\nx".split('\n')` rendered line by line with `writeln`. */
  function Lines(lines: seq<string>): (r: seq<TermEvent>)
    ensures |r| == |lines|
    ensures forall k | 0 <= k < |r| :: r[k] == WriteLn(lines[k])
  {
    if lines == [] then [] else [WriteLn(lines[0])] + Lines(lines[1..])
  }

  function ExitCodeText(code: Option<int>): string {
    match code
    case Some(n) => IntToString(n)
    case None => "undefined"
  }

  function ExitLine(code: Option<int>): string {
    "\U{1b}[31mExit code: " + ExitCodeText(code) + "\U{1b}[0m"
  }

  function ErrorLine(message: string): string {
    "\U{1b}[31mError executing command: " + message + "\U{1b}[0m"
  }

  /** The lines an output string contributes: none for "", else one per '\n'-separated piece. */
  function OutputLines(output: string): seq<string> {
    if output == "" then [] else Split(output, '\n')
  }

  /** Everything `executeCommand` writes once the call has resolved. */
  function Transcript(reply: ExecReply): seq<TermEvent> {
    match reply
    case Reply(output, exitCode) =>
      Lines(OutputLines(output))
      + (if exitCode != Some(0) then [WriteLn(ExitLine(exitCode))] else [])
      + [Write(Prompt)]
    case TransportError(message) =>
      [WriteLn(ErrorLine(message)), Write(Prompt)]
  }

  /**
   * The effect of one `onData` event. `seen` is the value of `currentCommand`
   * the handler reads; `prev` is the value React's functional updates
   * (`prev => ...`) start from. A fresh closure has `seen == prev`.
   */
  datatype KeyEffect = KeyEffect(
    buffer: string,            // the new currentCommand
    recorded: seq<string>,     // appended to commandHistory
    resetsIndex: bool,         // historyIndex set to -1
    writes: seq<TermEvent>,    // written by the handler itself
    command: Option<string>)   // the one execute call issued, if any

  function Keystroke(seen: string, prev: string, data: string): KeyEffect {
    var code := CharCode(data);
    if code == KeyEnter then
      if !AllSpace(seen) then KeyEffect("", [seen], true, [Write(NewLine)], Some(Trim(seen)))
      else KeyEffect(prev, [], false, [Write(NewLine), Write(Prompt)], None)
    else if code == KeyBackspace then
      if |seen| > 0 then KeyEffect(if prev == [] then [] else prev[..|prev| - 1], [], false, [Write(Erase)], None)
      else KeyEffect(prev, [], false, [], None)
    else if code == KeyEscape then
      KeyEffect(prev, [], false, [], None)
    else if IsPrintable(code) then
      KeyEffect(prev + data, [], false, [Write(data)], None)
    else
      KeyEffect(prev, [], false, [], None)
  }

  /** The effect with today's buffer read, as the handler is evidently meant to run. */
  function Key(buffer: string, data: string): KeyEffect {
    Keystroke(buffer, buffer, data)
  }

  /** How many times `e` occurs in `s`. */
  function Count(s: seq<TermEvent>, e: TermEvent): nat {
    if s == [] then 0 else (if s[0] == e then 1 else 0) + Count(s[1..], e)
  }

  lemma {:induction false} CountAppend(a: seq<TermEvent>, b: seq<TermEvent>, e: TermEvent)
    ensures Count(a + b, e) == Count(a, e) + Count(b, e)
  {
    if a == [] {
      assert a + b == b;
    } else {
      assert (a + b)[0] == a[0];
      assert (a + b)[1..] == a[1..] + b;
      CountAppend(a[1..], b, e);
    }
  }

  lemma {:induction false} CountLines(lines: seq<string>, text: string)
    ensures Count(Lines(lines), Write(text)) == 0
  {
    if lines != [] {
      assert Lines(lines)[1..] == Lines(lines[1..]);
      CountLines(lines[1..], text);
    }
  }

  // ---------------------------------------------------------------------------
  // Keystroke properties

  /** A printable first character appends the whole data string and echoes it unchanged. */
  lemma PrintableAppends(buffer: string, data: string)
    requires data != [] && IsPrintable(data[0] as int)
    ensures var e := Key(buffer, data);
      && e.buffer == buffer + data && e.writes == [Write(data)]
      && e.recorded == [] && !e.resetsIndex && e.command == None
  {
  }

  /** Backspace drops exactly the last character and erases one column; on "" it does nothing. */
  lemma BackspaceErases(buffer: string, data: string)
    requires CharCode(data) == KeyBackspace
    ensures var e := Key(buffer, data);
      && (buffer != [] ==> e.buffer + [buffer[|buffer| - 1]] == buffer && e.writes == [Write(Erase)])
      && (buffer == [] ==> e.buffer == [] && e.writes == [])
      && e.recorded == [] && e.command == None
  {
  }

  /** Escape and every code outside 13, 127 and 32..126 leave everything alone. */
  lemma OtherKeysIgnored(buffer: string, data: string)
    requires var c := CharCode(data); c != KeyEnter && c != KeyBackspace && !IsPrintable(c)
    ensures Key(buffer, data) == KeyEffect(buffer, [], false, [], None)
  {
  }

  /**
   * Enter on a non-blank buffer: one execute call with the trimmed text, the
   * untrimmed buffer recorded, the index reset, the buffer cleared.
   */
  lemma EnterSubmits(buffer: string, data: string)
    requires CharCode(data) == KeyEnter && !AllSpace(buffer)
    ensures var e := Key(buffer, data);
      && e.command == Some(Trim(buffer)) && e.command.value != ""
      && e.recorded == [buffer] && e.resetsIndex && e.buffer == ""
      && e.writes == [Write(NewLine)]
  {
  }

  /** Enter on an empty or blank buffer: no call, a new prompt, buffer and history kept. */
  lemma EnterOnBlank(buffer: string, data: string)
    requires CharCode(data) == KeyEnter && AllSpace(buffer)
    ensures Key(buffer, data) == KeyEffect(buffer, [], false, [Write(NewLine), Write(Prompt)], None)
  {
  }

  /** Under the handler's stale read of the initial '' the Enter key never executes anything. */
  lemma StaleEnterNeverExecutes(prev: string, data: string)
    ensures Keystroke("", prev, data).command == None
    ensures Keystroke("", prev, data).recorded == []
  {
  }

  /** Under the stale read Backspace never erases, whatever has been typed. */
  lemma StaleBackspaceNeverErases(prev: string, data: string)
    requires CharCode(data) == KeyBackspace
    ensures Keystroke("", prev, data).buffer == prev
    ensures Keystroke("", prev, data).writes == []
  {
  }

  /** Typing still accumulates under the stale read: the functional update sees `prev`. */
  lemma StaleTypingAccumulates(prev: string, data: string)
    requires data != [] && IsPrintable(data[0] as int)
    ensures Keystroke("", prev, data) == Key(prev, data)
  {
  }

  // ---------------------------------------------------------------------------
  // Transcript properties

  /** In every outcome the prompt is written exactly once, and last. */
  lemma PromptOnceAndLast(reply: ExecReply)
    ensures var t := Transcript(reply); |t| > 0 && t[|t| - 1] == Write(Prompt) && Count(t, Write(Prompt)) == 1
  {
    match reply
    case Reply(output, exitCode) =>
      var lines := Lines(OutputLines(output));
      var exit: seq<TermEvent> := if exitCode != Some(0) then [WriteLn(ExitLine(exitCode))] else [];
      CountLines(OutputLines(output), Prompt);
      CountAppend(lines, exit, Write(Prompt));
      CountAppend(lines + exit, [Write(Prompt)], Write(Prompt));
    case TransportError(message) =>
      var t := Transcript(reply);
      assert t[1..] == [Write(Prompt)] && [Write(Prompt)][1..] == [];
      assert Count(t, Write(Prompt)) == Count(t[1..], Write(Prompt));
  }

  /**
   * A reply's output comes out as `writeln` lines that, joined with '\n', are
   * exactly the output; a non-zero exit code adds exactly one line after them.
   */
  lemma ReplyRendersOutput(output: string, exitCode: Option<int>)
    ensures var t := Transcript(Reply(output, exitCode));
      var n := |OutputLines(output)|;
      && n <= |t|
      && (forall k | 0 <= k < n :: t[k].WriteLn?)
      && Join(seq(n, k requires 0 <= k < n => t[k].text), "\n") == output
      && |t| == n + (if exitCode == Some(0) then 1 else 2)
      && (exitCode != Some(0) ==> t[n] == WriteLn(ExitLine(exitCode)))
  {
    var lines := OutputLines(output);
    var t := Transcript(Reply(output, exitCode));
    assert seq(|lines|, k requires 0 <= k < |lines| => t[k].text) == lines;
    if output != "" {
      JoinSplit(output, '\n');
    }
  }

  /** A transport failure writes one error line carrying the failure's message, then the prompt. */
  lemma FailureRendersError(message: string)
    ensures Transcript(TransportError(message)) == [WriteLn(ErrorLine(message)), Write(Prompt)]
    ensures ErrorLine(message)[|ErrorLine(message)| - |message| - 4..|ErrorLine(message)| - 4] == message
  {
  }

  /** The terminal of the lab page, bound to one session id. */
  class Terminal {
    const sessionId: string
    var buffer: string            // currentCommand
    var history: seq<string>      // commandHistory
    var historyIndex: int
    var screen: seq<TermEvent>    // every write made on the terminal, in order
    var executed: seq<string>     // the commands sent to the execute endpoint, in order

    /** Mounting: the banner and the first prompt; no network call. */
    constructor (sessionId: string)
      ensures this.sessionId == sessionId
      ensures buffer == "" && history == [] && historyIndex == -1
      ensures screen == Banner && executed == []
    {
      this.sessionId := sessionId;
      buffer, history, historyIndex := "", [], -1;
      screen := [
        WriteLn("\U{1b}[1;32m=== HackLidoLearn Lab Terminal ===\U{1b}[0m"),
        WriteLn("\U{1b}[36mConnected to lab environment\U{1b}[0m"),
        WriteLn("\U{1b}[33mType commands below and press Enter to execute\U{1b}[0m"),
        WriteLn("")
      ];
      executed := [];
      new;
      WritePrompt();
    }

    method WritePrompt()
      modifies this`screen
      ensures screen == old(screen) + [Write(Prompt)]
    {
      screen := screen + [Write(Prompt)];
    }

    /** The `forEach` over the output's lines. */
    method WriteLines(output: string)
      modifies this`screen
      ensures screen == old(screen) + Lines(Split(output, '\n'))
    {
      var lines := Split(output, '\n');
      var i := 0;
      while i < |lines|
        invariant 0 <= i <= |lines|
        invariant screen == old(screen) + Lines(lines[..i])
      {
        assert Lines(lines[..i + 1]) == Lines(lines[..i]) + [WriteLn(lines[i])];
        screen := screen + [WriteLn(lines[i])];
        i := i + 1;
      }
      assert lines[..i] == lines;
    }

    /** `executeCommand`: one call to the execute endpoint, then its rendering and a prompt. */
    method ExecuteCommand(command: string, reply: ExecReply)
      modifies this`screen, this`executed
      ensures executed == old(executed) + [command]
      ensures screen == old(screen) + Transcript(reply)
    {
      executed := executed + [command];
      match reply {
        case Reply(output, exitCode) =>
          if output != "" {
            WriteLines(output);
          }
          if exitCode != Some(0) {
            screen := screen + [WriteLn(ExitLine(exitCode))];
          }
        case TransportError(message) =>
          screen := screen + [WriteLn(ErrorLine(message))];
      }
      WritePrompt();
    }

    /** `handleTerminalInput` with the closure reading the current buffer. */
    method HandleInput(data: string, reply: ExecReply)
      modifies this`buffer, this`history, this`historyIndex, this`screen, this`executed
      ensures var e := Key(old(buffer), data);
        && buffer == e.buffer
        && history == old(history) + e.recorded
        && historyIndex == (if e.resetsIndex then -1 else old(historyIndex))
        && executed == old(executed) + (if e.command.Some? then [e.command.value] else [])
        && screen == old(screen) + e.writes + (if e.command.Some? then Transcript(reply) else [])
    {
      if CharCode(data) == KeyEnter {
        // `trim()` gives the empty string exactly on a blank line
        if AllSpace(buffer) {
          EnterOnBlank(buffer, data);
          BlankEnter();
        } else {
          EnterSubmits(buffer, data);
          SubmitLine(Trim(buffer), reply);
        }
      } else {
        HandleEditKey(data);
      }
    }

    /** Enter on a non-blank line whose trimmed text is `line`: the line is executed and the raw buffer goes to the history. */
    method SubmitLine(line: string, reply: ExecReply)
      modifies this`buffer, this`history, this`historyIndex, this`screen, this`executed
      ensures buffer == "" && history == old(history) + [old(buffer)] && historyIndex == -1
      ensures executed == old(executed) + [line]
      ensures screen == old(screen) + [Write(NewLine)] + Transcript(reply)
    {
      var current := buffer;
      screen := screen + [Write(NewLine)];
      ExecuteCommand(line, reply);
      history := history + [current];
      historyIndex := -1;
      buffer := "";
    }

    /** Enter on a blank line: only a line break and a fresh prompt. */
    method BlankEnter()
      requires AllSpace(buffer)
      modifies this`screen
      ensures screen == old(screen) + [Write(NewLine), Write(Prompt)]
    {
      screen := screen + [Write(NewLine)];
      WritePrompt();
    }

    /** Every other key edits the buffer at most; none records, resets or executes. */
    method HandleEditKey(data: string)
      requires CharCode(data) != KeyEnter
      modifies this`buffer, this`screen
      ensures var e := Key(old(buffer), data);
        && e.command == None && e.recorded == [] && !e.resetsIndex
        && buffer == e.buffer && screen == old(screen) + e.writes
    {
      var current := buffer;
      var code := CharCode(data);
      if code == KeyBackspace {
        BackspaceErases(current, data);
        if |current| > 0 {
          buffer := current[..|current| - 1];
          screen := screen + [Write(Erase)];
        }
      } else if code == KeyEscape {
        // arrow-key sequences are not handled
        OtherKeysIgnored(current, data);
      } else if IsPrintable(code) {
        PrintableAppends(current, data);
        buffer := current + data;
        screen := screen + [Write(data)];
      } else {
        OtherKeysIgnored(current, data);
      }
    }

    /** `handleStopLab`: a blank line and the banner on success, nothing written on failure. */
    method HandleStopLab(stopped: bool)
      modifies this`screen
      ensures screen == old(screen) + (if stopped then [WriteLn(""), WriteLn(TerminatedBanner)] else [])
    {
      if stopped {
        screen := screen + [WriteLn("")];
        screen := screen + [WriteLn(TerminatedBanner)];
      }
    }
  }

  /** The buffer after typing each character of `word` as a keystroke of its own. */
  function TypeAll(buffer: string, word: string): string
    decreases |word|
  {
    if word == [] then buffer else TypeAll(Key(buffer, [word[0]]).buffer, word[1..])
  }

  /** Printable characters typed one by one accumulate in order. */
  lemma {:induction false} TypingAccumulates(buffer: string, word: string)
    requires forall k | 0 <= k < |word| :: IsPrintable(word[k] as int)
    ensures TypeAll(buffer, word) == buffer + word
    decreases |word|
  {
    if word != [] {
      PrintableAppends(buffer, [word[0]]);
      TypingAccumulates(buffer + [word[0]], word[1..]);
      assert buffer + [word[0]] + word[1..] == buffer + word;
    }
  }

  /** Typing a line that is not blank and pressing Enter runs exactly that line, trimmed. */
  lemma TypedLineRuns(word: string)
    requires forall k | 0 <= k < |word| :: IsPrintable(word[k] as int)
    requires !AllSpace(word)
    ensures Key(TypeAll("", word), "\r").command == Some(Trim(word))
    ensures Key(TypeAll("", word), "\r").recorded == [word]
  {
    TypingAccumulates("", word);
    assert "" + word == word;
    EnterSubmits(word, "\r");
  }
}
