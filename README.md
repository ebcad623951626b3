# pyprojectify, modelled in Dafny

pyprojectify migrates a setuptools project to a `pyproject.toml`. Its
`PyProject` class does three things this model covers:

- `migrate` looks at a package directory. It refuses one without
  `setup.py` and leaves one that already has a `pyproject.toml` alone.
  Otherwise it reads `setup.py`, then `setup.cfg` and `MANIFEST.in` when they
  are present, builds the document and saves it.
- `_parse_config_file` chooses a reader by the file's suffix: TOML for
  `.toml`, `ConfigParser` for `.ini` and `.cfg`, and the file's lines for
  `.in`. Any other suffix is refused.
- `_build_toml` fills a fixed `OrderedDict` template by successive key
  assignments. Two branches change it: one taken when the parsed setup.cfg is
  truthy, one when the parsed MANIFEST.in is truthy. The contents of setup.py
  are never consulted.

The modules:

- `Wrappers` holds `Option` and `Result`.
- `OrderedDict` models a dictionary as its entries in insertion order.
  `d[k] = v` (`Assign`) overwrites a present key where it stands and appends a
  new one. The module proves the laws of that assignment.
- `Toml` holds the values the document is made of: strings, booleans, arrays,
  and tables whose entries keep their order.
- `ConfigFile` holds the suffix dispatch, Python's `PurePath.suffix`, and the
  truthiness of a parsed file.
- `Template` holds the document `_build_toml` returns for each truthiness of
  setup.cfg and MANIFEST.in, with the facts proved about it.
- `Build` holds `_build_toml` as methods that make the source's assignments
  one by one. Each is proved to end in the template document.
- `Migration` holds `migrate` as a method with early returns. The directory is
  a map from file name to lines, and the `_has_*` checks are membership tests
  on it.

## Model

| member | source | states |
|---|---|---|
| OrderedDict.Find | pyprojectify/pyprojectify.py:120 | A key's position is its first occurrence, and it is -1 exactly when the key is absent. |
| OrderedDict.Get | pyprojectify/pyprojectify.py:120-122 | A read finds nothing exactly when the key is absent; otherwise it returns a value stored under that key. |
| OrderedDict.Assign | pyprojectify/pyprojectify.py:93-136 | `d[k] = v` adds at most one entry. Its full behaviour is stated by KeysAfterAssign (key order), AssignInPlace (a present key is overwritten where it stands) and GetAfterAssign (read after write). |
| OrderedDict.AssignAll | pyprojectify/pyprojectify.py:97-119 | The assignments `d[k1] = v1`, `d[k2] = v2`, ... made in order. AssignAllFresh states its behaviour here: distinct keys that are all absent are appended in assignment order. |
| OrderedDict.KeysAfterAssign | pyprojectify/pyprojectify.py:92-126 | An assignment never reorders keys. A new key goes last, and a present key keeps its slot. |
| OrderedDict.AssignInPlace | pyprojectify/pyprojectify.py:123-126 | Assigning a key whose first occurrence is at `i` replaces entry `i` and nothing else. |
| OrderedDict.AssignExisting | pyprojectify/pyprojectify.py:128-136 | In a dictionary, assigning a present key replaces its entry in place, and the keys stay distinct. |
| OrderedDict.AssignKeepsUnique | pyprojectify/pyprojectify.py:92-136 | Assignment keeps keys distinct. |
| OrderedDict.FindInDictionary | pyprojectify/pyprojectify.py:120-136 | In a dictionary, entry `i`'s key is found at `i`, and reading it yields entry `i`'s value. |
| OrderedDict.SameKeysUnique | pyprojectify/pyprojectify.py:128-136 | Whether keys are distinct depends only on the key sequence. |
| OrderedDict.FindSameKeys | pyprojectify/pyprojectify.py:128-136 | Two dictionaries with the same key sequence locate every key at the same index. |
| OrderedDict.GetAfterAssign | pyprojectify/pyprojectify.py:120-136 | After `d[k] = v`, reading `k` gives `v`, and reading any other key gives what it gave before. |
| OrderedDict.AssignTwice | pyprojectify/pyprojectify.py:123-126 | Of two assignments to one key, the later value wins, in the slot of the first. |
| OrderedDict.AssignCommutes | pyprojectify/pyprojectify.py:128-136 | Assignments to two different keys commute when one of the keys is already present. |
| OrderedDict.AssignFresh | pyprojectify/pyprojectify.py:93-119 | Assigning an absent key appends exactly that entry, and the key sequence grows by exactly that key. |
| OrderedDict.AssignAllFresh | pyprojectify/pyprojectify.py:97-119 | Assigning distinct keys that are all absent appends them in assignment order. |
| ConfigFile.RFind | pyprojectify/pyprojectify.py:62-67 | The result is the last index of the character, or -1 when the string does not contain it. |
| ConfigFile.Suffix | pyprojectify/pyprojectify.py:62-67 | `PurePath.suffix`: empty, or a dot and at least one more character ending the name, with something before it. SuffixIs characterises it exactly: the last dot, neither first nor last. |
| ConfigFile.Truthy | pyprojectify/pyprojectify.py:128-136 | The truth test of `if setup_cfg:` and `if manifest_in:`. None is false. A ConfigParser is always true. A TOML dictionary or a list of lines is true iff it is non-empty. |
| ConfigFile.ReaderFor | pyprojectify/pyprojectify.py:62-71 | `.toml` selects the TOML loader, `.ini` and `.cfg` the INI reader, and `.in` the line reader, each if and only if. Any other suffix is a ValueError naming the suffix. |
| ConfigFile.ParseConfigFile | pyprojectify/pyprojectify.py:58-76 | The result has the form of the selected reader exactly when that reader succeeds. It holds what the reader produced: the table the TOML loader decoded, the INI file's contents, or the file's lines unchanged. A failing reader's own error escapes: TomlDecodeError for `.toml`, IniParseError for `.ini` and `.cfg`. An unknown suffix fails with that suffix. |
| ConfigFile.SuffixIs | pyprojectify/pyprojectify.py:62-67 | A name has suffix `ext` iff it ends in `ext` with something before it, and `ext` is a dot followed by at least one non-dot character. |
| ConfigFile.ConfigFileSuffixes | pyprojectify/pyprojectify.py:170-184 | `setup.cfg`, `MANIFEST.in` and `pyproject.toml` have the suffixes `.cfg`, `.in` and `.toml`. |
| ConfigFile.NoDotRejected | pyprojectify/pyprojectify.py:70-71 | A name with no dot after its first character has an empty suffix and is refused. |
| ConfigFile.ParseSetupCfg | pyprojectify/pyprojectify.py:170-171 | setup.cfg is read by the INI reader. The result is the parser, or the reader's error. |
| ConfigFile.ParseManifestIn | pyprojectify/pyprojectify.py:176-177 | MANIFEST.in is read by the line reader, which always succeeds with the file's lines. |
| Template.TopLevel | pyprojectify/pyprojectify.py:92-96 | The document's keys are `tool`, `build-backend`, `requires`, `metadata`, in that order. Their values are `setuptools`, `setuptools.build_meta`, `[setuptools, wheel]` and the metadata table. |
| Template.MetadataDefaultsUnique | pyprojectify/pyprojectify.py:97-119 | The 23 metadata defaults have distinct keys. |
| Template.ExpectedMetadataKeys | pyprojectify/pyprojectify.py:97-136 | For every flag combination the metadata has the defaults' keys in the defaults' order, and they are distinct. |
| Template.SetupRequires | pyprojectify/pyprojectify.py:118-130 | `setup_requires` is `[setuptools_scm]` iff setup.cfg is truthy, and `[]` otherwise. It stays in the slot of its default. |
| Template.ManifestEntries | pyprojectify/pyprojectify.py:108-136 | With MANIFEST.in truthy: `packages = [name]`, `package_dir = {name: ''}` and `package_data = {name: ['*']}`. Otherwise they are `[]`, `{}` and `{}`. All stay in their default slots. |
| Template.FlagsChangeOnlyTheirKeys | pyprojectify/pyprojectify.py:128-136 | Any two flag combinations give the same keys. An entry differs only if it is `setup_requires` and the setup.cfg flag differs, or a package entry and the MANIFEST.in flag differs. |
| Template.ScmVersionLayout | pyprojectify/pyprojectify.py:119-126 | `use_scm_version` has six distinct keys in assignment order. `local_scheme` is `dirty-tag` in the fourth slot, between `relative_to` and `fallback_version`. `write_to` is `<name>/version.py`, and `relative_to` is `<name>`. |
| Template.ScmVersionPaths | pyprojectify/pyprojectify.py:120-122 | For the template's package name, `write_to` is `name/version.py` and `relative_to` is `name`. |
| Template.ScmVersionWellFormed | pyprojectify/pyprojectify.py:119-126 | The `use_scm_version` table satisfies the representation invariant: its keys are distinct and its values are strings. |
| Template.MetadataWellFormed | pyprojectify/pyprojectify.py:96-136 | The metadata table satisfies the representation invariant for every flag combination: no table in it, at any depth, repeats a key. |
| Template.DocumentWellFormed | pyprojectify/pyprojectify.py:90-138 | The model's representation invariant holds for the whole document: no table, at any depth, repeats a key, as is true of any Python dictionary. |
| Build.BuildScmVersion | pyprojectify/pyprojectify.py:119-126 | The source's seven assignments to `use_scm_version`, including the overwrite of `local_scheme`, end in the expected six-entry table. |
| Build.AssignDefaults | pyprojectify/pyprojectify.py:96-118 | The 23 default assignments into the fresh metadata dictionary end in the defaults, in assignment order. |
| Build.BuildMetadata | pyprojectify/pyprojectify.py:96-136 | Defaults, `use_scm_version` and the two branches end in the expected metadata for the two flags. |
| Build.BuildToml | pyprojectify/pyprojectify.py:90-138 | The result is the expected document for the truthiness of the parsed setup.cfg and MANIFEST.in. It does not depend on setup.py. |
| Migration.Migrate | pyprojectify/pyprojectify.py:151-193 | Without setup.py: FileNotFound, nothing read. With pyproject.toml: skipped, nothing read or written. A setup.cfg the INI reader rejects: that error, after reading setup.py and setup.cfg. Otherwise the document is written, built from whether setup.cfg exists and whether MANIFEST.in exists non-empty, after reading setup.py, then setup.cfg and MANIFEST.in when present. Each outcome is stated as an if-and-only-if. |

## Left out

- Reading and writing files, the file-existence checks, `toml.load`,
  `toml.dump` and `ConfigParser` are left out as I/O and foreign code.
  - A directory is a map from file name to lines.
  - The TOML decoder and whether ConfigParser accepts a file are parameters (`Loaders`).
  - Saving is the `Written` outcome carrying the document.
- `_parse_setup_py` returns the file's lines, which `_build_toml` never reads. Its read errors are not modelled.
- Errors raised while reading MANIFEST.in are not modelled: the line reader is taken to succeed.
- Migrate does not model the re-load of the saved file after writing (pyprojectify/pyprojectify.py:186-191). It compares nothing and only re-raises whatever `toml.load` raises.
- The fallback to the current working directory (pyprojectify/pyprojectify.py:153-156) is not modelled. It is unreachable, because a `Path` is always truthy.
- Logging, `__str__`/`__repr__`, `pyprojectify/cli.py` (a greeting placeholder) and `setup.py` (the repository's own packaging metadata) are not part of this model.
- Build.AssignDefaults makes the 23 default assignments as one fold (`AssignAll`) over the (key, value) pairs in source order, not as 23 separate statements. Each step of the fold is the same `Assign`.
- Build.BuildMetadata and Build.BuildToml model aliasing through values.
  - The source mutates the nested dictionaries through `pyproject['metadata']`.
  - The model builds each nested dictionary by its own method, then stores it back under its key.
  - Re-assigning a present key keeps its slot (`AssignInPlace`), so the final document is the same.
