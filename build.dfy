/**
 * `PyProject._build_toml`, statement by statement. Each nested dictionary
 * (`use_scm_version`, `metadata`, the document itself) is filled by its own
 * method, in the order the source assigns its keys.
 */
module Build {
  import opened Wrappers
  import opened OrderedDict
  import opened Toml
  import opened ConfigFile
  import opened Template

  /**
   * The `use_scm_version` dictionary: six new keys, then a second assignment
   * to `local_scheme`, which changes its value and not its place.
   */
  method BuildScmVersion(name: string) returns (scm: seq<(string, Value)>)
    ensures scm == ExpectedScmVersion(name)
  {
    scm := [];
    scm := Assign(scm, "write_to", Str(name + "/version.py"));
    scm := Assign(scm, "write_to_template", Str("{version}"));
    scm := Assign(scm, "relative_to", Str(name));
    scm := Assign(scm, "local_scheme", Str("no-local-version"));
    scm := Assign(scm, "fallback_version", Str("0.0.0"));
    scm := Assign(scm, "version_scheme", Str("guess-next-dev"));
    AssignInPlace(scm, 3, "local_scheme", Str("dirty-tag"));
    scm := Assign(scm, "local_scheme", Str("dirty-tag"));
  }

  /**
   * The fresh `metadata` dictionary receiving its 23 defaults, one
   * assignment after another: every key is new, so each lands at the end.
   */
  method AssignDefaults() returns (metadata: seq<(string, Value)>)
    ensures metadata == MetadataDefaults()
  {
    metadata := [];
    metadata := AssignAll(metadata, MetadataDefaults());
    MetadataDefaultsUnique();
    AssignAllFresh([], MetadataDefaults());
  }

  /**
   * The `metadata` dictionary: the defaults, then `use_scm_version` and the
   * two branches, each of which overwrites keys the defaults put in place.
   */
  method BuildMetadata(setupCfg: bool, manifestIn: bool) returns (metadata: seq<(string, Value)>)
    ensures metadata == ExpectedMetadata(setupCfg, manifestIn)
  {
    metadata := AssignDefaults();
    MetadataDefaultsUnique();
    MetadataDefaultsLayout();
    // Every later `metadata['name']` reads this same, never reassigned, entry.
    var name := Get(metadata, "name");
    assert name == Some(Str(PackageName));

    var scm := BuildScmVersion(name.value.s);
    AssignExisting(metadata, 22, "use_scm_version", Table(scm));
    metadata := Assign(metadata, "use_scm_version", Table(scm));

    if setupCfg {
      AssignExisting(metadata, 21, "setup_requires", List([Str("setuptools_scm")]));
      metadata := Assign(metadata, "setup_requires", List([Str("setuptools_scm")]));
    }

    if manifestIn {
      AssignExisting(metadata, 11, "packages", List([Str(name.value.s)]));
      metadata := Assign(metadata, "packages", List([Str(name.value.s)]));
      AssignExisting(metadata, 12, "package_dir", Table([(name.value.s, Str(""))]));
      metadata := Assign(metadata, "package_dir", Table([(name.value.s, Str(""))]));
      AssignExisting(metadata, 13, "package_data", Table([(name.value.s, List([Str("*")]))]));
      metadata := Assign(metadata, "package_data", Table([(name.value.s, List([Str("*")]))]));
    }
    ExpectedMetadataInPlace(setupCfg, manifestIn);
  }

  /**
   * `_build_toml`: the document's four top-level keys, the third a fresh
   * dictionary that is then filled through the key `metadata`. The contents
   * of setup.py are not consulted, and of setup.cfg and MANIFEST.in only
   * their truthiness.
   */
  method BuildToml(setupPy: seq<string>, setupCfg: Option<Config>, manifestIn: Option<Config>)
    returns (pyproject: Value)
    ensures pyproject == ExpectedDocument(Truthy(setupCfg), Truthy(manifestIn))
  {
    var top: seq<(string, Value)> := [];
    top := Assign(top, "tool", Str("setuptools"));
    top := Assign(top, "build-backend", Str("setuptools.build_meta"));
    top := Assign(top, "requires", List([Str("setuptools"), Str("wheel")]));
    top := Assign(top, "metadata", Table([]));
    // The dictionary under "metadata" is filled in place; storing its final
    // entries back through the same key leaves its slot where it is.
    var metadata := BuildMetadata(Truthy(setupCfg), Truthy(manifestIn));
    AssignInPlace(top, 3, "metadata", Table(metadata));
    top := Assign(top, "metadata", Table(metadata));
    pyproject := Table(top);
  }
}
