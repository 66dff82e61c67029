/** The protocol messages as the external UCI parser delivers them. Only the
    variants the reader loop distinguishes are spelled out; payloads the loop
    ignores are kept as plain text. */
module Messages {
  import opened Wrappers

  datatype UciMessage =
    | Uci
    | Debug(on: bool)
    | IsReady
    | Position(startpos: bool, fen: Option<string>, moves: seq<string>)
    | SetOption(optionName: string, value: Option<string>)
    | UciNewGame
    | Stop
    | PonderHit
    | Quit
    | Go(timeControl: Option<string>, searchControl: Option<string>)
    | Id(name: Option<string>, author: Option<string>)
    | UciOk
    | ReadyOk
    | Unknown(text: string)
      /** Every other variant of the parser's vocabulary (register, bestmove, info, ...). */
    | Other(text: string)

  /** Which way a message flows; the parser's classification is taken as given. */
  datatype Direction = GuiToEngine | EngineToGui

  /** One result of reading standard input: a parsed line with its direction,
      or a read error. The end of the input is the end of the sequence. */
  datatype Input = Line(message: UciMessage, direction: Direction) | ReadError

  /** `UciMessage::id_name`. */
  function IdName(name: string): (m: UciMessage)
  {
    Id(Some(name), None)
  }

  /** `UciMessage::id_author`. */
  function IdAuthor(author: string): (m: UciMessage)
  {
    Id(None, Some(author))
  }
}
