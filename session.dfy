/** Update driven by a sequence of messages, and what the screens show
    across several steps. */
module Session {
  import opened Types
  import opened Executor
  import opened Controller
  import opened Screens

  /** A message sequence on which every step of `Run` meets Update's demand,
      starting from a model whose cursor is in range: no executing key at all
      when the list is empty. This is stronger than needed, since keys after
      a quit are never delivered, but it excludes no message the program
      acts on: on an empty list an executing key makes the program panic. */
  predicate Handleable(config: Config, msgs: seq<Msg>) {
    |config.commands| > 0 || forall i :: 0 <= i < |msgs| ==> Action(msgs[i]) != Execute
  }

  /** The event loop: Update on each message in turn until it returns
      tea.Quit. Gives the last model and whether the program quit. */
  function Run(m: Model, msgs: seq<Msg>, host: Host): (r: (Model, bool))
    requires CursorInRange(m) && Handleable(m.config, msgs)
    ensures CursorInRange(r.0) && r.0.config == m.config
    ensures r.1 ==> !r.0.showOutput
    decreases |msgs|
  {
    if msgs == [] then (m, false)
    else
      TransitionKeepsCursorInRange(m, msgs[0], host);
      var (m1, cmd) := Transition(m, msgs[0], host);
      if cmd == Quit then (m1, true)
      else Run(m1, msgs[1..], host)
  }

  /** Without the executing keys, no message changes what the last run left
      behind (selection, title, text), and the output screen can only be
      dismissed, never opened. */
  lemma {:induction false} RunWithoutExecuteKeepsOutput(m: Model, msgs: seq<Msg>, host: Host)
    requires CursorInRange(m)
    requires forall i :: 0 <= i < |msgs| ==> Action(msgs[i]) != Execute
    ensures var r := Run(m, msgs, host).0;
      && r.selected == m.selected && r.output == m.output && r.outputTitle == m.outputTitle
      && (r.showOutput ==> m.showOutput)
    decreases |msgs|
  {
    if msgs != [] {
      TransitionKeepsCursorInRange(m, msgs[0], host);
      var (m1, cmd) := Transition(m, msgs[0], host);
      if cmd != Quit {
        assert forall i :: 0 <= i < |msgs[1..]| ==> Action(msgs[1..][i]) != Execute by {
          forall i | 0 <= i < |msgs[1..]| ensures Action(msgs[1..][i]) != Execute {
            assert msgs[1..][i] == msgs[i + 1];
          }
        }
        RunWithoutExecuteKeepsOutput(m1, msgs[1..], host);
      }
    }
  }

  /** After a run, the output screen shows the title picked for the entry,
      then the text shown for the outcome; a shell command titles it
      "Command Output: " and the command, whatever the run's exit status. */
  lemma ViewAfterExecute(m: Model, msg: Msg, host: Host, st: Styles)
    requires Action(msg) == Execute && CanHandle(m, msg)
    ensures var m' := Transition(m, msg, host).0;
      var c := m.config.commands[m.cursor];
      && View(m', st) == st.title(TitleFor(c, m.outputTitle)) + "\n\n" + Shown(Invoke(c, host)) + "\n\n" + OutputFooter
      && (c.shellCmd != "" ==> TitleFor(c, m.outputTitle) == "Command Output: " + c.shellCmd)
      && (c.shellCmd == "" && c.script != "" ==> TitleFor(c, m.outputTitle) == "Script Output: " + c.script)
  {
  }

  /** Running an entry and then dismissing its output returns to the menu
      screen exactly as it was drawn before the run: same list, same cursor. */
  lemma DismissRestoresMenu(m: Model, run: Msg, dismiss: Msg, host: Host, st: Styles)
    requires Action(run) == Execute && CanHandle(m, run)
    requires Action(dismiss) == QuitOrDismiss
    ensures var m1 := Transition(m, run, host).0;
      var (m2, cmd) := Transition(m1, dismiss, host);
      && cmd == NoCmd
      && !m2.showOutput && m2.cursor == m.cursor && m2.config == m.config
      && View(m2, st) == MenuView(m, st)
  {
    var m1 := Transition(m, run, host).0;
    var m2 := Transition(m1, dismiss, host).0;
    assert Entries(m2, st) == Entries(m, st);
  }
}
