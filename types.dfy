/** The records of the menu program: the configured commands and the Bubble Tea model. */
module Types {

  /** One configured menu entry. `shellCmd` and `script` are the JSON fields
      `command` and `script`; a field absent from the file is the empty string. */
  datatype Command = Command(name: string, description: string, shellCmd: string, script: string)

  /** The loaded configuration; its command list is never changed after loading. */
  datatype Config = Config(commands: seq<Command>)

  /** The Bubble Tea model. It is a value: Update works on a copy and returns it. */
  datatype Model = Model(
    config: Config,
    cursor: int,
    selected: int,
    output: string,
    showOutput: bool,
    outputTitle: string)

  /** A message delivered to Update: a key press, known by its string form
      ("q", "ctrl+c", "up", "enter", " ", ...), or any other kind of message. */
  datatype Msg = KeyMsg(key: string) | OtherMsg

  /** The command Update hands back to the runtime: none, or tea.Quit. */
  datatype TeaCmd = NoCmd | Quit

  function Max(a: int, b: int): int { if a < b then b else a }

  function Min(a: int, b: int): int { if a < b then a else b }

  /** The cursor lies in [0, max(0, |commands| - 1)]. */
  predicate CursorInRange(m: Model) {
    0 <= m.cursor <= Max(0, |m.config.commands| - 1)
  }

  /** The model main builds before starting the program: the menu screen with the cursor on the first entry. */
  function Initial(config: Config): (m: Model)
    ensures m.config == config && m.cursor == 0 && !m.showOutput
    ensures CursorInRange(m)
  {
    Model(config, 0, 0, "", false, "")
  }
}
