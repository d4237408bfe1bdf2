# Dynamic command menu — a verified model

The program is a terminal menu built on Bubble Tea. It reads a list of
commands from `config.json`. Each command has a name, a description and
either an inline shell command or a script path. The user moves a cursor
over the list and runs the entry under it. The program then shows the
entry's captured output on a second screen, until the user dismisses it.

This project models the program's state machine in Dafny:

- `Types`: the `Command`, `Config` and `model` records, the messages and the
  returned command (none or `tea.Quit`), and the cursor invariant.
- `Executor`: running an entry. Process execution, `os.Stat` and `os.Getwd`
  are oracle fields of `Host`. Script-path resolution is modelled exactly.
- `Controller`: `Update` as a method that updates its copy of the model step
  by step, as the Go code does. It is proved equal to the specification
  function `Transition`, and the lemmas about `Transition` state how each key
  behaves.
- `Screens`: `View`, `renderOutput` and `renderMenu`. `renderMenu` is a
  method with a loop, proved against `MenuView`. The lipgloss styles are
  uninterpreted string functions.
- `Session`: `Update` applied to a sequence of messages until it returns
  `tea.Quit`, and properties that span several steps.

Some behaviours of the code worth noting, which the model reproduces:

- The cursor keys and `enter`/space act on either screen. They are not
  ignored while the output screen is shown.
- A failed run shows only `"Error: " + <error text>`. The captured text is
  dropped.
- A missing script is reported with the prefixed path
  (`"script not found: " + cwd + "/" + path`), not the path as configured.
- An entry with neither a shell command nor a script keeps the previous
  output title and shows empty text.
- `enter` on an empty list indexes out of range. `Update` therefore requires
  the cursor to be a valid index when the key is `enter` or space
  (`Controller.CanHandle`).

## Model

| member | source | states |
|---|---|---|
| `Types.Initial` | main.go:204-209 | the program starts on the menu screen with the cursor on entry 0, which is in range for any list |
| `Executor.ResolveScript` | main.go:152-160 | the configured path is used unless `os.Stat` reports it missing. Otherwise `cwd + "/" + path` is used unless that is missing too. Otherwise the result is the error `"script not found: " + cwd + "/" + path`. A resolved path is never one reported missing |
| `Executor.ExecuteScript` | main.go:152-165 | the script runs from the first path that exists. When neither exists, the outcome is empty text with the not-found error |
| `Controller.Update` | main.go:60-106 | the step-by-step update of the model copy yields exactly the new model and command of `Transition` |
| `Controller.TransitionKeepsCursorInRange` | main.go:71-79 | every message keeps the cursor in `[0, max(0, len-1)]` and leaves the command list unchanged |
| `Controller.CursorKeysMoveWithinBounds` | main.go:71-79 | up gives `max(0, i-1)` and down gives `min(N-1, i+1)`. On an empty list the cursor stays at 0. Nothing but the cursor changes, and no command is returned |
| `Controller.QuitKeysDismissOrQuit` | main.go:64-69 | `q`/`ctrl+c` on the output screen clears the flag, changes nothing else and returns no command. On the menu they return `tea.Quit` with the model unchanged. `tea.Quit` is returned in no other case |
| `Controller.ExecuteShowsOutcome` | main.go:81-101 | `enter`/space selects the cursor entry and shows the output screen. The text is the captured text, or `"Error: " + err` on failure. The title is `"Command Output: "` plus the shell command if set, else `"Script Output: "` plus the script. With neither set, the old title is kept and the text is empty |
| `Controller.KeysIgnoreScreen` | main.go:71-101 | up, down and enter give the same model whether or not the output screen is shown, apart from the screen flag itself |
| `Controller.OtherMessagesChangeNothing` | main.go:61-105 | any other key string, and any message that is not a key, leaves the model unchanged with no command |
| `Screens.RenderMenu` | main.go:117-134 | the loop builds exactly the header, one entry per command in list order and the footer |
| `Screens.EntryInPlace` | main.go:120-130 | entry `i` sits after the header and entries `0..i-1` and before the later entries. It is drawn marked exactly when `i` is the cursor |
| `Screens.OnlyCursorEntryMarked` | main.go:121-128 | drawn without styling, an entry begins with `>` exactly when it is under the cursor |
| `Screens.EmptyMenu` | main.go:117-133 | an empty list gives a menu of only the header and the footer |
| `Screens.OutputViewShowsOutput` | main.go:137-142 | the output screen is the title, then after a blank line the shown text verbatim, then the footer `Press q to go back to menu`. Each part can be cut back out of the screen |
| `Session.Run` | main.go:60-106 | over any message sequence that `Update` can be given, the cursor stays in range and the list never changes. Quitting happens only from the menu screen |
| `Session.RunWithoutExecuteKeepsOutput` | main.go:63-80 | without `enter`/space, no message changes the selection, output text or title, and the output screen is never opened |
| `Session.ViewAfterExecute` | main.go:109-114 | after a run the view is the output screen showing the picked title and the shown text. A shell command is titled `"Command Output: "` plus the command, whatever its exit status |
| `Session.DismissRestoresMenu` | main.go:64-67 | running an entry and then dismissing it returns to the menu, drawn exactly as before the run, with the cursor unchanged |

## Left out

- Process execution (`bash -c` and `bash <path>` with combined output): an oracle field of `Executor.Host` giving text and an optional error. The interleaving of standard output and standard error is up to that oracle. The host is one fixed oracle for the whole session: the same command gives the same outcome each time, and the file system does not change between runs.
- `os.Stat` and `os.Getwd`: the `notExist` predicate and the `workDir` option of `Executor.Host`. A `Stat` failure other than "does not exist" counts as existing, as in the code.
- Lipgloss styles and their rendering: uninterpreted string functions (`Screens.Styles`). Colours, padding and bold are not modelled.
- `loadConfig` and JSON decoding: the command list is taken as a given `Config`. A field absent from the file is the empty string.
- `main`, `tea.NewProgram` and `p.Run`: the runtime loop is represented only by `Session.Run`, which applies `Update` in order and stops at `tea.Quit`.
- `Init`: it always returns no command.
- Controller.Update: requires a valid cursor when the key is `enter` or space (`Controller.CanHandle`). On an empty list the program indexes out of range there and panics (main.go:83); the model does not represent that crash.
- Go's fixed-width `int` for the cursor: the cursor stays between 0 and the list length, so it never overflows.
