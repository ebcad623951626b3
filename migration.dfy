/**
 * `PyProject.migrate`: the checks and reads that decide whether, and from
 * what, a pyproject.toml is generated for a package directory.
 */
module Migration {
  import opened Wrappers
  import opened Toml
  import opened ConfigFile
  import opened Template
  import opened Build

  /** A package directory: the names of the files present, each with its lines. */
  type Directory = map<string, seq<string>>

  const SetupPy: string := "setup.py"
  const SetupCfg: string := "setup.cfg"
  const ManifestIn: string := "MANIFEST.in"
  const Pyproject: string := "pyproject.toml"

  /** How a migration ends. */
  datatype Outcome =
    | FileNotFound               // no setup.py: FileNotFoundError is raised
    | SkippedExisting            // pyproject.toml is already there and is left alone
    | ParseFailed(error: ConfigError)  // a configuration file could not be parsed
    | Written(document: Value)   // the document saved as pyproject.toml

  /**
   * `migrate` on the directory `dir`. Besides the outcome it reports the
   * files read, in the order they are read. The `_has_*` checks are
   * membership tests on the file names.
   */
  method Migrate(dir: Directory, loaders: Loaders) returns (outcome: Outcome, read: seq<string>)
    ensures outcome == FileNotFound <==> SetupPy !in dir
    ensures outcome == SkippedExisting <==> SetupPy in dir && Pyproject in dir
    ensures outcome.FileNotFound? || outcome.SkippedExisting? ==> read == []
    ensures outcome.ParseFailed? <==>
      SetupPy in dir && Pyproject !in dir && SetupCfg in dir && !loaders.iniAccepts(dir[SetupCfg])
    ensures outcome.ParseFailed? ==> outcome.error == IniParseError && read == [SetupPy, SetupCfg]
    ensures outcome.Written? <==>
      SetupPy in dir && Pyproject !in dir && (SetupCfg in dir ==> loaders.iniAccepts(dir[SetupCfg]))
    ensures outcome.Written? ==>
      read == [SetupPy] + (if SetupCfg in dir then [SetupCfg] else [])
                        + (if ManifestIn in dir then [ManifestIn] else []) &&
      outcome.document == ExpectedDocument(SetupCfg in dir, ManifestIn in dir && dir[ManifestIn] != [])
  {
    read := [];
    if SetupPy !in dir {
      return FileNotFound, read;
    }
    if Pyproject in dir {
      return SkippedExisting, read;
    }

    // `_parse_setup_py` returns the file's lines; `_build_toml` never looks at them.
    var setupPy := dir[SetupPy];
    read := read + [SetupPy];

    var setupCfg: Option<Config> := None;
    if SetupCfg in dir {
      read := read + [SetupCfg];
      ParseSetupCfg(dir[SetupCfg], loaders);
      var parsed := ParseConfigFile(SetupCfg, dir[SetupCfg], loaders);
      if parsed.Failure? {
        return ParseFailed(parsed.error), read;
      }
      setupCfg := Some(parsed.value);
    }

    var manifestIn: Option<Config> := None;
    if ManifestIn in dir {
      read := read + [ManifestIn];
      // The line reader behind the `.in` suffix cannot fail.
      ParseManifestIn(dir[ManifestIn], loaders);
      var parsed := ParseConfigFile(ManifestIn, dir[ManifestIn], loaders);
      manifestIn := Some(parsed.value);
    }

    assert Truthy(setupCfg) == (SetupCfg in dir);
    assert Truthy(manifestIn) == (ManifestIn in dir && dir[ManifestIn] != []);
    var pyproject := BuildToml(setupPy, setupCfg, manifestIn);
    outcome := Written(pyproject);
  }
}
