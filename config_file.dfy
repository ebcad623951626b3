/**
 * `PyProject._parse_config_file`: the reader a configuration file is handed
 * to is chosen by the file name's suffix.
 */
module ConfigFile {
  import opened Wrappers
  import opened Toml

  /** The reader `_parse_config_file` hands a file to. */
  datatype Reader = TomlLoader | IniReader | LineReader

  /** The exceptions `_parse_config_file` lets escape. */
  datatype ConfigError =
    | UnknownConfigType(suffix: string)  // the ValueError for an unsupported suffix
    | TomlDecodeError                    // raised by the TOML loader
    | IniParseError                      // raised by the INI reader

  /** What `_parse_config_file` returns. */
  datatype Config =
    | TomlConfig(table: seq<(string, Value)>)  // the dictionary the TOML loader decodes
    | IniConfig(source: seq<string>)           // a ConfigParser that has read the file
    | LineConfig(lines: seq<string>)           // the file's lines

  /**
   * The two foreign parsers, as functions of a file's contents: the TOML
   * decoder (None when it raises) and whether ConfigParser accepts the file.
   */
  datatype Loaders = Loaders(
    tomlLoad: seq<string> -> Option<seq<(string, Value)>>,
    iniAccepts: seq<string> -> bool)

  /** `s.rfind(c)`: the index of the last `c` in `s`, or -1. */
  function RFind(s: string, c: char): (i: int)
    ensures -1 <= i < |s|
    ensures i >= 0 ==> s[i] == c
    ensures forall j :: i < j < |s| ==> s[j] != c
  {
    if s == [] then -1
    else if s[|s| - 1] == c then |s| - 1
    else RFind(s[..|s| - 1], c)
  }

  /**
   * `PurePath.suffix` of a file name: from its last dot on, provided that dot
   * is neither the first nor the last character; otherwise empty.
   */
  function Suffix(name: string): (ext: string)
    ensures ext != "" ==> 2 <= |ext| < |name| && ext[0] == '.'
  {
    var i := RFind(name, '.');
    if 0 < i < |name| - 1 then name[i..] else ""
  }

  /** The suffixes `_parse_config_file` accepts. */
  const KnownSuffixes: set<string> := {".toml", ".ini", ".cfg", ".in"}

  /** The suffix dispatch of `_parse_config_file`. */
  function ReaderFor(suffix: string): (r: Result<Reader, ConfigError>)
    ensures r.Success? <==> suffix in KnownSuffixes
    ensures r.Failure? ==> r.error == UnknownConfigType(suffix)
    ensures r == Success(TomlLoader) <==> suffix == ".toml"
    ensures r == Success(IniReader) <==> suffix == ".ini" || suffix == ".cfg"
    ensures r == Success(LineReader) <==> suffix == ".in"
  {
    if suffix == ".toml" then Success(TomlLoader)
    else if suffix == ".ini" || suffix == ".cfg" then Success(IniReader)
    else if suffix == ".in" then Success(LineReader)
    else Failure(UnknownConfigType(suffix))
  }

  /** `_parse_config_file`: read the file `name` with the reader its suffix selects. */
  function ParseConfigFile(name: string, contents: seq<string>, loaders: Loaders): (r: Result<Config, ConfigError>)
    ensures Suffix(name) !in KnownSuffixes ==> r == Failure(UnknownConfigType(Suffix(name)))
    ensures r.Success? && r.value.TomlConfig? <==> Suffix(name) == ".toml" && loaders.tomlLoad(contents).Some?
    ensures r.Success? && r.value.IniConfig? <==>
      (Suffix(name) == ".ini" || Suffix(name) == ".cfg") && loaders.iniAccepts(contents)
    ensures r.Success? && r.value.LineConfig? <==> Suffix(name) == ".in"
    ensures r.Success? && r.value.LineConfig? ==> r.value.lines == contents
    ensures r.Success? && r.value.TomlConfig? ==> loaders.tomlLoad(contents) == Some(r.value.table)
    ensures r.Success? && r.value.IniConfig? ==> r.value.source == contents
    ensures r.Failure? && Suffix(name) == ".toml" ==> r.error == TomlDecodeError
    ensures r.Failure? && (Suffix(name) == ".ini" || Suffix(name) == ".cfg") ==> r.error == IniParseError
  {
    match ReaderFor(Suffix(name))
    case Failure(e) => Failure(e)
    case Success(TomlLoader) =>
      (match loaders.tomlLoad(contents)
       case Some(table) => Success(TomlConfig(table))
       case None => Failure(TomlDecodeError))
    case Success(IniReader) =>
      if loaders.iniAccepts(contents) then Success(IniConfig(contents)) else Failure(IniParseError)
    case Success(LineReader) => Success(LineConfig(contents))
  }

  /**
   * Python truthiness of a parsed file as `_build_toml` tests it (None for a
   * file that is not there): a ConfigParser is always true, a dictionary or a
   * list of lines is true when it is not empty.
   */
  function Truthy(c: Option<Config>): (b: bool)
    ensures c.None? ==> !b
    ensures c.Some? && c.value.IniConfig? ==> b
    ensures c.Some? && c.value.TomlConfig? ==> (b <==> c.value.table != [])
    ensures c.Some? && c.value.LineConfig? ==> (b <==> c.value.lines != [])
  {
    match c
    case None => false
    case Some(TomlConfig(table)) => |table| > 0
    case Some(IniConfig(_)) => true
    case Some(LineConfig(lines)) => |lines| > 0
  }

  /**
   * Which names have suffix `ext`: exactly those ending in `ext`, where `ext`
   * is a dot followed by at least one character and no further dot, and
   * something precedes it.
   */
  lemma SuffixIs(name: string, ext: string)
    requires ext != ""
    ensures Suffix(name) == ext <==>
      |ext| >= 2 && ext[0] == '.' && '.' !in ext[1..] &&
      |ext| < |name| && name[|name| - |ext|..] == ext
  {
  }

  /** The three file names `migrate` hands to `_parse_config_file`, and their suffixes. */
  lemma ConfigFileSuffixes()
    ensures Suffix("setup.cfg") == ".cfg"
    ensures Suffix("MANIFEST.in") == ".in"
    ensures Suffix("pyproject.toml") == ".toml"
  {
    assert '.' !in "cfg" && "setup.cfg"[5..] == ".cfg";
    SuffixIs("setup.cfg", ".cfg");
    assert '.' !in "in" && "MANIFEST.in"[8..] == ".in";
    SuffixIs("MANIFEST.in", ".in");
    assert '.' !in "toml" && "pyproject.toml"[9..] == ".toml";
    SuffixIs("pyproject.toml", ".toml");
  }

  /** A name without a dot after its first character has no suffix, so it is rejected. */
  lemma NoDotRejected(name: string, contents: seq<string>, loaders: Loaders)
    requires forall j :: 0 < j < |name| ==> name[j] != '.'
    ensures ParseConfigFile(name, contents, loaders) == Failure(UnknownConfigType(""))
  {
  }

  /** setup.cfg goes to the INI reader: it yields the parser, or the reader's error. */
  lemma ParseSetupCfg(contents: seq<string>, loaders: Loaders)
    ensures ParseConfigFile("setup.cfg", contents, loaders) ==
      if loaders.iniAccepts(contents) then Success(IniConfig(contents)) else Failure(IniParseError)
  {
    ConfigFileSuffixes();
  }

  /** MANIFEST.in goes to the line reader, which always yields the file's lines. */
  lemma ParseManifestIn(contents: seq<string>, loaders: Loaders)
    ensures ParseConfigFile("MANIFEST.in", contents, loaders) == Success(LineConfig(contents))
  {
    ConfigFileSuffixes();
  }
}
