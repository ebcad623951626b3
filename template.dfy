/**
 * The document `PyProject._build_toml` produces: a fixed template in which
 * only four entries depend on whether setup.cfg and MANIFEST.in are truthy.
 */
module Template {
  import opened Wrappers
  import opened OrderedDict
  import opened Toml

  /** The package name `_build_toml` fills in: the placeholder it stores under `name`. */
  const PackageName: string := "name"

  /** The final `use_scm_version` table, for the package name read back from `metadata`. */
  function ExpectedScmVersion(name: string): (scm: seq<(string, Value)>)
  {
    [ ("write_to", Str(name + "/version.py")),
      ("write_to_template", Str("{version}")),
      ("relative_to", Str(name)),
      ("local_scheme", Str("dirty-tag")),
      ("fallback_version", Str("0.0.0")),
      ("version_scheme", Str("guess-next-dev")) ]
  }

  /**
   * The defaults `_build_toml` assigns into the fresh `metadata` dictionary,
   * one assignment per entry, in the order the assignments are made.
   */
  function MetadataDefaults(): (defaults: seq<(string, Value)>)
  {
    [ ("name", Str(PackageName)),
      ("version", Str("version")),
      ("author", Str("author")),
      ("author_email", Str("author_email")),
      ("url", Str("url")),
      ("description", Str("description")),
      ("long_description", Str("long_description")),
      ("long_description_content_type", Str("text/markdown")),
      ("classifiers", List([Str("Programming Language :: Python :: 3.6")])),
      ("keywords", List([])),
      ("license", Str("license")),
      ("packages", List([])),
      ("package_dir", Table([])),
      ("package_data", Table([])),
      ("install_requires", List([])),
      ("extras_require", Table([])),
      ("python_requires", Str(">=3.6")),
      ("zip_safe", Bool(false)),
      ("entry_points", Table([])),
      ("test_suite", Str("tests")),
      ("tests_require", List([])),
      ("setup_requires", List([])),
      ("use_scm_version", Table([])) ]
  }

  /** The final `metadata` table, given the truthiness of setup.cfg and MANIFEST.in. */
  function ExpectedMetadata(setupCfg: bool, manifestIn: bool): (metadata: seq<(string, Value)>)
  {
    [ ("name", Str(PackageName)),
      ("version", Str("version")),
      ("author", Str("author")),
      ("author_email", Str("author_email")),
      ("url", Str("url")),
      ("description", Str("description")),
      ("long_description", Str("long_description")),
      ("long_description_content_type", Str("text/markdown")),
      ("classifiers", List([Str("Programming Language :: Python :: 3.6")])),
      ("keywords", List([])),
      ("license", Str("license")),
      ("packages", List(if manifestIn then [Str(PackageName)] else [])),
      ("package_dir", Table(if manifestIn then [(PackageName, Str(""))] else [])),
      ("package_data", Table(if manifestIn then [(PackageName, List([Str("*")]))] else [])),
      ("install_requires", List([])),
      ("extras_require", Table([])),
      ("python_requires", Str(">=3.6")),
      ("zip_safe", Bool(false)),
      ("entry_points", Table([])),
      ("test_suite", Str("tests")),
      ("tests_require", List([])),
      ("setup_requires", List(if setupCfg then [Str("setuptools_scm")] else [])),
      ("use_scm_version", Table(ExpectedScmVersion(PackageName))) ]
  }

  /** The whole document `_build_toml` returns. */
  function ExpectedDocument(setupCfg: bool, manifestIn: bool): (document: Value)
  {
    Table([ ("tool", Str("setuptools")),
            ("build-backend", Str("setuptools.build_meta")),
            ("requires", List([Str("setuptools"), Str("wheel")])),
            ("metadata", Table(ExpectedMetadata(setupCfg, manifestIn))) ])
  }

  /** The defaults have distinct keys. */
  lemma MetadataDefaultsUnique()
    ensures UniqueKeys(MetadataDefaults())
  {
    var t := MetadataDefaults();
    assert forall i, j :: 0 <= i < j < |t| ==> t[i].0 != t[j].0;
  }

  /** Where the entries `_build_toml` later overwrites, and the name it reads back, sit. */
  lemma MetadataDefaultsLayout()
    ensures |MetadataDefaults()| == 23
    ensures MetadataDefaults()[0] == ("name", Str(PackageName))
    ensures MetadataDefaults()[11].0 == "packages"
    ensures MetadataDefaults()[12].0 == "package_dir"
    ensures MetadataDefaults()[13].0 == "package_data"
    ensures MetadataDefaults()[21].0 == "setup_requires"
    ensures MetadataDefaults()[22].0 == "use_scm_version"
  {
  }

  /**
   * The expected metadata is the defaults with `use_scm_version` filled in
   * and, per flag, the branch entries replaced where they stand: no entry
   * moves, none is added.
   */
  lemma ExpectedMetadataInPlace(setupCfg: bool, manifestIn: bool)
    ensures
      var m := MetadataDefaults()[22 := ("use_scm_version", Table(ExpectedScmVersion(PackageName)))];
      var m := if setupCfg then m[21 := ("setup_requires", List([Str("setuptools_scm")]))] else m;
      ExpectedMetadata(setupCfg, manifestIn) ==
        if manifestIn then
          m[11 := ("packages", List([Str(PackageName)]))]
           [12 := ("package_dir", Table([(PackageName, Str(""))]))]
           [13 := ("package_data", Table([(PackageName, List([Str("*")]))]))]
        else m
  {
  }

  /**
   * The document's top level: `tool`, `build-backend`, `requires` and
   * `metadata`, in that order, whatever the flags.
   */
  lemma TopLevel(setupCfg: bool, manifestIn: bool)
    ensures ExpectedDocument(setupCfg, manifestIn).Table?
    ensures var top := ExpectedDocument(setupCfg, manifestIn).entries;
      Keys(top) == ["tool", "build-backend", "requires", "metadata"] &&
      Get(top, "tool") == Some(Str("setuptools")) &&
      Get(top, "build-backend") == Some(Str("setuptools.build_meta")) &&
      Get(top, "requires") == Some(List([Str("setuptools"), Str("wheel")])) &&
      Get(top, "metadata") == Some(Table(ExpectedMetadata(setupCfg, manifestIn)))
  {
    var top := ExpectedDocument(setupCfg, manifestIn).entries;
    assert Keys(top) == ["tool", "build-backend", "requires", "metadata"];
  }

  /** The flags change values only: the metadata keys are those of the defaults, all distinct. */
  lemma ExpectedMetadataKeys(setupCfg: bool, manifestIn: bool)
    ensures Keys(ExpectedMetadata(setupCfg, manifestIn)) == Keys(MetadataDefaults())
    ensures UniqueKeys(ExpectedMetadata(setupCfg, manifestIn))
  {
    var m, d := ExpectedMetadata(setupCfg, manifestIn), MetadataDefaults();
    assert forall j :: 0 <= j < |d| ==> m[j].0 == d[j].0;
    MetadataDefaultsUnique();
    SameKeysUnique(d, m);
  }

  /**
   * `setup_requires` is `['setuptools_scm']` exactly when setup.cfg is
   * truthy, and `[]` otherwise; either way it keeps the slot its default took.
   */
  lemma SetupRequires(setupCfg: bool, manifestIn: bool)
    ensures var m := ExpectedMetadata(setupCfg, manifestIn);
      (Get(m, "setup_requires") == Some(List([Str("setuptools_scm")])) <==> setupCfg) &&
      (!setupCfg ==> Get(m, "setup_requires") == Some(List([]))) &&
      Find(m, "setup_requires") == Find(MetadataDefaults(), "setup_requires") == 21
  {
    var m := ExpectedMetadata(setupCfg, manifestIn);
    ExpectedMetadataKeys(setupCfg, manifestIn);
    MetadataDefaultsUnique();
    FindInDictionary(m, 21);
    FindInDictionary(MetadataDefaults(), 21);
  }

  /** The keys the MANIFEST.in branch assigns. */
  const ManifestKeys: set<string> := {"packages", "package_dir", "package_data"}

  /**
   * With MANIFEST.in truthy, `packages`, `package_dir` and `package_data`
   * name the package; otherwise they keep their empty defaults. Either way
   * they stay in their default slots.
   */
  lemma ManifestEntries(setupCfg: bool, manifestIn: bool)
    ensures var m := ExpectedMetadata(setupCfg, manifestIn);
      Get(m, "packages") == Some(List(if manifestIn then [Str(PackageName)] else [])) &&
      Get(m, "package_dir") == Some(Table(if manifestIn then [(PackageName, Str(""))] else [])) &&
      Get(m, "package_data") == Some(Table(if manifestIn then [(PackageName, List([Str("*")]))] else [])) &&
      Find(m, "packages") == 11 && Find(m, "package_dir") == 12 && Find(m, "package_data") == 13
  {
    var m := ExpectedMetadata(setupCfg, manifestIn);
    ExpectedMetadataKeys(setupCfg, manifestIn);
    FindInDictionary(m, 11);
    FindInDictionary(m, 12);
    FindInDictionary(m, 13);
  }

  /**
   * Between any two flag combinations the metadata differs only in the
   * entries of the branches whose flag differs: the setup.cfg branch owns
   * `setup_requires`, the MANIFEST.in branch the three package entries.
   */
  lemma FlagsChangeOnlyTheirKeys(setupCfg: bool, manifestIn: bool, setupCfg': bool, manifestIn': bool)
    ensures var m, m' := ExpectedMetadata(setupCfg, manifestIn), ExpectedMetadata(setupCfg', manifestIn');
      Keys(m) == Keys(m') &&
      forall i :: 0 <= i < |m| && m[i] != m'[i] ==>
        (m[i].0 == "setup_requires" && setupCfg != setupCfg') ||
        (m[i].0 in ManifestKeys && manifestIn != manifestIn')
  {
  }

  /**
   * `use_scm_version`: six keys in assignment order, `local_scheme` ending
   * as `dirty-tag` in the slot of its first assignment, between
   * `relative_to` and `fallback_version`; the paths derive from the name.
   */
  lemma ScmVersionLayout(name: string)
    ensures var scm := ExpectedScmVersion(name);
      Keys(scm) == ["write_to", "write_to_template", "relative_to", "local_scheme", "fallback_version", "version_scheme"] &&
      UniqueKeys(scm) &&
      Get(scm, "local_scheme") == Some(Str("dirty-tag")) &&
      Get(scm, "write_to") == Some(Str(name + "/version.py")) &&
      Get(scm, "relative_to") == Some(Str(name))
  {
    var scm := ExpectedScmVersion(name);
    assert Keys(scm) == ["write_to", "write_to_template", "relative_to", "local_scheme", "fallback_version", "version_scheme"];
    assert UniqueKeys(scm);
    FindInDictionary(scm, 0);
    FindInDictionary(scm, 2);
    FindInDictionary(scm, 3);
  }

  /** For the placeholder name the template uses, the version file is `name/version.py`. */
  lemma ScmVersionPaths()
    ensures Get(ExpectedScmVersion(PackageName), "write_to") == Some(Str("name/version.py"))
    ensures Get(ExpectedScmVersion(PackageName), "relative_to") == Some(Str("name"))
  {
    ScmVersionLayout(PackageName);
    assert PackageName + "/version.py" == "name/version.py";
  }

  /** The `use_scm_version` table holds only strings under distinct keys. */
  lemma ScmVersionWellFormed(name: string)
    ensures WellFormed(Table(ExpectedScmVersion(name)))
  {
  }

  /** Every value stored in `metadata` is well formed. */
  lemma MetadataWellFormed(setupCfg: bool, manifestIn: bool)
    ensures WellFormed(Table(ExpectedMetadata(setupCfg, manifestIn)))
  {
    var m := ExpectedMetadata(setupCfg, manifestIn);
    ExpectedMetadataKeys(setupCfg, manifestIn);
    ScmVersionWellFormed(PackageName);
    forall i | 0 <= i < |m|
      ensures WellFormed(m[i].1)
    {
      var v := m[i].1;
      if i == 22 {
        assert v == Table(ExpectedScmVersion(PackageName));
      } else if i == 12 || i == 13 {
        assert UniqueKeys(v.entries) && |v.entries| <= 1;
      } else {
        assert v.Str? || v.Bool? || v == Table([]) || (v.List? && forall j :: 0 <= j < |v.items| ==> v.items[j].Str?);
      }
    }
  }

  /** The document is one TOML can hold: no table, at any depth, repeats a key. */
  lemma DocumentWellFormed(setupCfg: bool, manifestIn: bool)
    ensures WellFormed(ExpectedDocument(setupCfg, manifestIn))
  {
    MetadataWellFormed(setupCfg, manifestIn);
    var top := ExpectedDocument(setupCfg, manifestIn).entries;
    assert Keys(top) == ["tool", "build-backend", "requires", "metadata"];
    assert forall i :: 0 <= i < |top| ==> WellFormed(top[i].1);
  }
}
