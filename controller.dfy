/** The Bubble Tea Update function: how each message changes the model. */
module Controller {
  import opened Wrappers
  import opened Types
  import opened Executor

  /** What Update does with a message, decided by the message's string form. */
  datatype KeyAction = QuitOrDismiss | CursorUp | CursorDown | Execute | Ignore

  function Action(msg: Msg): KeyAction {
    match msg
    case OtherMsg => Ignore
    case KeyMsg(k) =>
      if k == "ctrl+c" || k == "q" then QuitOrDismiss
      else if k == "up" || k == "k" then CursorUp
      else if k == "down" || k == "j" then CursorDown
      else if k == "enter" || k == " " then Execute
      else Ignore
  }

  /** What Update demands of its caller: an executing key indexes the
      command list at the cursor, so the cursor must be a valid index. */
  predicate CanHandle(m: Model, msg: Msg) {
    Action(msg) == Execute ==> 0 <= m.cursor < |m.config.commands|
  }

  /** The run the executing keys start: the shell command if set, else the
      script if set, else nothing (empty text, no error). */
  function Invoke(c: Command, host: Host): Outcome {
    if c.shellCmd != "" then host.runShell(c.shellCmd)
    else if c.script != "" then ExecuteScript(c.script, host)
    else Outcome("", None)
  }

  /** The text the output screen shows for an outcome: the error message when
      the run failed, the captured text otherwise. */
  function Shown(o: Outcome): string {
    match o.err
    case Some(e) => "Error: " + e
    case None => o.text
  }

  /** The output screen's title after running c; a command with neither a
      shell command nor a script keeps the previous title. */
  function TitleFor(c: Command, previous: string): string {
    if c.shellCmd != "" then "Command Output: " + c.shellCmd
    else if c.script != "" then "Script Output: " + c.script
    else previous
  }

  /** The model after the executing keys. */
  function Executed(m: Model, host: Host): Model
    requires 0 <= m.cursor < |m.config.commands|
  {
    var c := m.config.commands[m.cursor];
    m.(selected := m.cursor,
       outputTitle := TitleFor(c, m.outputTitle),
       output := Shown(Invoke(c, host)),
       showOutput := true)
  }

  /** The specification of Update: the new model and the returned command. */
  function Transition(m: Model, msg: Msg, host: Host): (Model, TeaCmd)
    requires CanHandle(m, msg)
  {
    match Action(msg)
    case QuitOrDismiss =>
      if m.showOutput then (m.(showOutput := false), NoCmd) else (m, Quit)
    case CursorUp =>
      (if m.cursor > 0 then m.(cursor := m.cursor - 1) else m, NoCmd)
    case CursorDown =>
      (if m.cursor < |m.config.commands| - 1 then m.(cursor := m.cursor + 1) else m, NoCmd)
    case Execute =>
      (Executed(m, host), NoCmd)
    case Ignore =>
      (m, NoCmd)
  }

  /** Update, step by step on its copy of the model, as the program does it. */
  method Update(m: Model, msg: Msg, host: Host) returns (m': Model, cmd: TeaCmd)
    requires CanHandle(m, msg)
    ensures (m', cmd) == Transition(m, msg, host)
  {
    m', cmd := m, NoCmd;
    match msg {
      case OtherMsg =>
      case KeyMsg(k) =>
        if k == "ctrl+c" || k == "q" {
          if m'.showOutput {
            m' := m'.(showOutput := false);
            return;
          }
          cmd := Quit;
          return;
        } else if k == "up" || k == "k" {
          if m'.cursor > 0 {
            m' := m'.(cursor := m'.cursor - 1);
          }
        } else if k == "down" || k == "j" {
          if m'.cursor < |m'.config.commands| - 1 {
            m' := m'.(cursor := m'.cursor + 1);
          }
        } else if k == "enter" || k == " " {
          m' := m'.(selected := m'.cursor);
          var c := m'.config.commands[m'.selected];
          var output: string := "";
          var err: Option<string> := None;
          if c.shellCmd != "" {
            var o := host.runShell(c.shellCmd);
            output, err := o.text, o.err;
            m' := m'.(outputTitle := "Command Output: " + c.shellCmd);
          } else if c.script != "" {
            var o := ExecuteScript(c.script, host);
            output, err := o.text, o.err;
            m' := m'.(outputTitle := "Script Output: " + c.script);
          }
          if err.Some? {
            output := "Error: " + err.value;
          }
          m' := m'.(output := output, showOutput := true);
        }
    }
  }

  /** Every message keeps the cursor in [0, max(0, |commands| - 1)] and the
      command list unchanged. */
  lemma TransitionKeepsCursorInRange(m: Model, msg: Msg, host: Host)
    requires CursorInRange(m) && CanHandle(m, msg)
    ensures CursorInRange(Transition(m, msg, host).0)
    ensures Transition(m, msg, host).0.config == m.config
  {
  }

  /** On a non-empty list up moves the cursor to max(0, i - 1) and down to
      min(N - 1, i + 1); on an empty list both leave it at 0. */
  lemma CursorKeysMoveWithinBounds(m: Model, msg: Msg, host: Host)
    requires CursorInRange(m)
    requires Action(msg) == CursorUp || Action(msg) == CursorDown
    ensures var (m', cmd) := Transition(m, msg, host);
      && cmd == NoCmd
      && m' == m.(cursor := m'.cursor)
      && (|m.config.commands| == 0 ==> m'.cursor == 0)
      && (|m.config.commands| > 0 && Action(msg) == CursorUp ==> m'.cursor == Max(0, m.cursor - 1))
      && (|m.config.commands| > 0 && Action(msg) == CursorDown
          ==> m'.cursor == Min(|m.config.commands| - 1, m.cursor + 1))
  {
  }

  /** The quit keys dismiss the output screen and change nothing else, or,
      on the menu, return tea.Quit with the model unchanged. Quit is returned
      for no other message. */
  lemma QuitKeysDismissOrQuit(m: Model, msg: Msg, host: Host)
    requires CanHandle(m, msg)
    ensures var (m', cmd) := Transition(m, msg, host);
      && (cmd == Quit <==> Action(msg) == QuitOrDismiss && !m.showOutput)
      && (Action(msg) == QuitOrDismiss && m.showOutput ==> m' == m.(showOutput := false) && cmd == NoCmd)
      && (Action(msg) == QuitOrDismiss && !m.showOutput ==> m' == m)
  {
  }

  /** The executing keys select the entry under the cursor and show the
      output screen. The shown text is the captured text, or "Error: " and
      the error's text when the run failed. The title comes from the shell
      command if set, else from the script. With neither set, the title is
      kept and the text is empty. The cursor and the list are unchanged. */
  lemma ExecuteShowsOutcome(m: Model, msg: Msg, host: Host)
    requires Action(msg) == Execute && CanHandle(m, msg)
    ensures var (m', cmd) := Transition(m, msg, host);
      var c := m.config.commands[m.cursor];
      var o := Invoke(c, host);
      && cmd == NoCmd
      && m'.showOutput && m'.selected == m.cursor
      && m'.cursor == m.cursor && m'.config == m.config
      && (o.err.None? ==> m'.output == o.text)
      && (o.err.Some? ==> m'.output == "Error: " + o.err.value)
      && (c.shellCmd != "" ==> o == host.runShell(c.shellCmd) && m'.outputTitle == "Command Output: " + c.shellCmd)
      && (c.shellCmd == "" && c.script != "" ==> o == ExecuteScript(c.script, host) && m'.outputTitle == "Script Output: " + c.script)
      && (c.shellCmd == "" && c.script == "" ==> m'.outputTitle == m.outputTitle && m'.output == "")
  {
  }

  /** The cursor keys and the executing keys do not look at the screen flag:
      with the flag set either way, they produce the same model apart from
      that flag, which the cursor keys keep and the executing keys set. */
  lemma KeysIgnoreScreen(m: Model, msg: Msg, host: Host, onOutput: bool)
    requires Action(msg) in {CursorUp, CursorDown, Execute} && CanHandle(m, msg)
    ensures var (a, ca) := Transition(m.(showOutput := onOutput), msg, host);
      var (b, cb) := Transition(m, msg, host);
      && ca == cb == NoCmd
      && (Action(msg) == Execute ==> a == b && a.showOutput)
      && (Action(msg) != Execute ==> a == b.(showOutput := onOutput))
  {
  }

  /** Any other key, and any message that is not a key press, leaves the
      model as it is and returns no command. */
  lemma OtherMessagesChangeNothing(m: Model, msg: Msg, host: Host)
    requires Action(msg) == Ignore
    ensures Transition(m, msg, host) == (m, NoCmd)
    ensures msg.KeyMsg? ==> msg.key !in {"ctrl+c", "q", "up", "k", "down", "j", "enter", " "}
  {
  }
}
