/** The engine's identity constants and its settings record (src/lib.rs). */
module Settings {
  import opened Wrappers

  /** Name and author reported in the reply to the `uci` handshake. */
  const ENGINE_NAME: string := "Hyōga"
  const ENGINE_AUTHOR: string := "MythicalEngineer"

  /** Engine-wide settings: the debug flag and the named string options.
      A map holds at most one value per option name. */
  datatype EngineSettings = EngineSettings(debug: bool, options: map<string, string>)

  /** `EngineSettings::default()`: debugging off, no option set. */
  function Default(): (s: EngineSettings)
    ensures !s.debug
    ensures s.options == map[]
    ensures forall name :: GetOption(s, name) == None
  {
    EngineSettings(false, map[])
  }

  /** The value stored for `name`, as `HashMap::get` reports it. */
  function GetOption(s: EngineSettings, name: string): (value: Option<string>)
  {
    if name in s.options then Some(s.options[name]) else None
  }

  /** `options.insert(name, value)`: afterwards `name` maps to `value`, an older
      value for `name` is replaced rather than kept beside it, every other
      option and the debug flag are untouched, and the map grows by one entry
      exactly when `name` was not yet present. */
  function InsertOption(s: EngineSettings, name: string, value: string): (t: EngineSettings)
    ensures t.debug == s.debug
    ensures t.options.Keys == s.options.Keys + {name}
    ensures GetOption(t, name) == Some(value)
    ensures forall other :: other != name ==> GetOption(t, other) == GetOption(s, other)
    ensures |t.options| == if name in s.options then |s.options| else |s.options| + 1
  {
    s.(options := s.options[name := value])
  }

  /** Setting the same option twice keeps only the second value, and the
      number of options is what the first insert left. */
  lemma InsertTwice(s: EngineSettings, name: string, first: string, second: string)
    ensures InsertOption(InsertOption(s, name, first), name, second) == InsertOption(s, name, second)
    ensures |InsertOption(InsertOption(s, name, first), name, second).options|
         == |InsertOption(s, name, first).options|
  {
  }
}
