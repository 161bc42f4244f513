/** Configuration lookup and option precedence (lib/core/config.ts, class Config).
    The file system is a map from file name to what reading that file as JSON
    gives, for the files present in the (already resolved) base directory. */
module Config {
  import opened Wrappers
  import opened Types

  const ConfigFileNames: seq<string> := ["codemerge.json", "codemerge.config.json"]

  const DefaultIgnorePatterns: seq<string> := [
    "node_modules/**",
    ".git/**",
    "dist/**",
    "build/**",
    "**/*.log",
    ".env*",
    "**/.DS_Store",
    "coverage/**",
    ".next/**",
    ".nuxt/**"
  ]

  const DefaultIncludePatterns: seq<string> := [
    "**/*.ts",
    "**/*.js",
    "**/*.tsx",
    "**/*.jsx",
    "**/*.json",
    "**/*.md"
  ]

  const DefaultOutputPath := "merged-output.txt"

  /** What `readJson` makes of a file: it throws, or it yields an object whose
      settings and `codemergeConfig` property are read out. */
  datatype JsonDoc =
    | Unparsable
    | Parsed(settings: ConfigFile, codemergeConfig: Option<ConfigFile>)

  /** The files of the base directory, by name. */
  type Directory = map<string, JsonDoc>

  // ---------------------------------------------------------------------------
  // Loading
  // ---------------------------------------------------------------------------

  /** `parseConfigFile`: the parsed settings, or `{}` when parsing throws. */
  function ParseConfigFile(doc: JsonDoc): (r: ConfigFile)
    ensures doc.Unparsable? ==> r == EmptyConfig
    ensures doc.Parsed? ==> r == doc.settings
  {
    match doc
    case Unparsable => EmptyConfig
    case Parsed(settings, _) => settings
  }

  /** `loadPackageJsonConfig`: `pkg.codemergeConfig || {}`, and `{}` when
      package.json is missing or does not parse. */
  function LoadPackageJsonConfig(dir: Directory): (r: ConfigFile)
    ensures "package.json" !in dir ==> r == EmptyConfig
    ensures "package.json" in dir && dir["package.json"].Parsed? && dir["package.json"].codemergeConfig.Some?
            ==> r == dir["package.json"].codemergeConfig.value
    ensures r != EmptyConfig ==> "package.json" in dir && dir["package.json"].Parsed? && dir["package.json"].codemergeConfig == Some(r)
  {
    if "package.json" !in dir then EmptyConfig
    else match dir["package.json"]
      case Unparsable => EmptyConfig
      case Parsed(_, cfg) => if cfg.Some? then cfg.value else EmptyConfig
  }

  /** The loop over the candidate names: the first one present decides. */
  function SearchConfig(dir: Directory, names: seq<string>): (r: ConfigFile)
  {
    if names == [] then LoadPackageJsonConfig(dir)
    else if names[0] in dir then ParseConfigFile(dir[names[0]])
    else SearchConfig(dir, names[1..])
  }

  /** `load`: `codemerge.json` first, then `codemerge.config.json`, then the
      `codemergeConfig` of package.json. */
  function Load(dir: Directory): (r: ConfigFile)
    ensures "codemerge.json" in dir ==> r == ParseConfigFile(dir["codemerge.json"])
    ensures "codemerge.json" !in dir && "codemerge.config.json" in dir
            ==> r == ParseConfigFile(dir["codemerge.config.json"])
    ensures "codemerge.json" !in dir && "codemerge.config.json" !in dir
            ==> r == LoadPackageJsonConfig(dir)
  {
    var second := ConfigFileNames[1..];
    assert second == ["codemerge.config.json"] && second[1..] == [];
    assert SearchConfig(dir, second)
        == if "codemerge.config.json" in dir then ParseConfigFile(dir["codemerge.config.json"])
           else SearchConfig(dir, []);
    SearchConfig(dir, ConfigFileNames)
  }

  /** A present but unparsable configuration file gives `{}`: the search does
      not fall through to the next name or to package.json. */
  lemma NoFallThrough(dir: Directory)
    requires "codemerge.json" in dir && dir["codemerge.json"] == Unparsable
    ensures Load(dir) == EmptyConfig
  {
  }

  /** Nothing found anywhere: `{}`. */
  lemma NothingFound(dir: Directory)
    requires forall name :: name in dir ==> name != "codemerge.json" && name != "codemerge.config.json" && name != "package.json"
    ensures Load(dir) == EmptyConfig
  {
  }

  /** Files other than the three looked at never matter. */
  lemma OnlyThreeNamesMatter(dir: Directory, name: string, doc: JsonDoc)
    requires name != "codemerge.json" && name != "codemerge.config.json" && name != "package.json"
    ensures Load(dir[name := doc]) == Load(dir)
  {
  }

  // ---------------------------------------------------------------------------
  // Precedence
  // ---------------------------------------------------------------------------

  /** `a || b` on an optional string: `undefined`, `null` and `""` are falsy. */
  function OrString(a: Option<string>, b: string): string
  {
    if a.Some? && a.value != "" then a.value else b
  }

  /** `a || b` on an optional array: any array, even `[]`, is truthy. */
  function OrList(a: Option<seq<string>>, b: seq<string>): seq<string>
  {
    if a.Some? then a.value else b
  }

  /** `a ?? b`: only `undefined` and `null` are replaced. */
  function Coalesce(a: Option<bool>, b: bool): bool
  {
    if a.Some? then a.value else b
  }

  /** `merge`: each setting is explicit, else from the configuration file, else
      the built-in default; `cwd` stands for `process.cwd()`. */
  function Merge(config: ConfigFile, options: PartialOptions, cwd: string): (r: MergeOptions)
    ensures options.inputPath.Some? && options.inputPath.value != "" ==> r.inputPath == options.inputPath.value
    ensures options.outputPath.Some? && options.outputPath.value != "" ==> r.outputPath == options.outputPath.value
    ensures options.watch.Some? ==> r.watch == options.watch.value
    ensures options.ignorePatterns.Some? ==> r.ignorePatterns == options.ignorePatterns.value
    ensures options.includePatterns.Some? ==> r.includePatterns == options.includePatterns.value
    ensures r.outputPath != ""
  {
    MergeOptions(
      OrString(options.inputPath, cwd),
      OrString(options.outputPath, OrString(config.outputPath, DefaultOutputPath)),
      Coalesce(options.watch, Coalesce(config.watch, false)),
      OrList(options.ignorePatterns, OrList(config.ignorePatterns, DefaultIgnorePatterns)),
      OrList(options.includePatterns, OrList(config.includePatterns, DefaultIncludePatterns)))
  }

  /** `inputPath`: the explicit value unless it is missing or empty, else the
      current directory. */
  lemma InputPathRule(config: ConfigFile, options: PartialOptions, cwd: string)
    ensures Merge(config, options, cwd).inputPath
         == if options.inputPath == None || options.inputPath == Some("") then cwd else options.inputPath.value
  {
  }

  /** `outputPath`: the first non-empty of explicit and configured, else
      `merged-output.txt`; an empty string counts as absent at both levels. */
  lemma OutputPathRule(config: ConfigFile, options: PartialOptions, cwd: string)
    ensures var o := Merge(config, options, cwd).outputPath;
      && (options.outputPath.Some? && options.outputPath.value != "" ==> o == options.outputPath.value)
      && ((options.outputPath == None || options.outputPath == Some("")) && config.outputPath.Some? && config.outputPath.value != ""
          ==> o == config.outputPath.value)
      && ((options.outputPath == None || options.outputPath == Some("")) && (config.outputPath == None || config.outputPath == Some(""))
          ==> o == DefaultOutputPath)
  {
  }

  /** `watch` uses `??`: an explicit `false` beats a configured `true`, and the
      default is `false`. */
  lemma WatchRule(config: ConfigFile, options: PartialOptions, cwd: string)
    ensures options.watch == Some(false) ==> !Merge(config, options, cwd).watch
    ensures Merge(config, options, cwd).watch <==> options.watch == Some(true) || (options.watch == None && config.watch == Some(true))
  {
  }

  /** Pattern lists: a present list wins even when it is empty. */
  lemma PatternListRule(config: ConfigFile, options: PartialOptions, cwd: string)
    ensures var m := Merge(config, options, cwd);
      && m.ignorePatterns
         == (if options.ignorePatterns.Some? then options.ignorePatterns.value
             else if config.ignorePatterns.Some? then config.ignorePatterns.value
             else DefaultIgnorePatterns)
      && m.includePatterns
         == (if options.includePatterns.Some? then options.includePatterns.value
             else if config.includePatterns.Some? then config.includePatterns.value
             else DefaultIncludePatterns)
    ensures options.includePatterns == Some([]) ==> Merge(config, options, cwd).includePatterns == []
  {
  }

  /** With nothing given and nothing configured, every default applies. */
  lemma AllDefaults(cwd: string)
    ensures Merge(EmptyConfig, PartialOptions(None, None, None, None, None), cwd)
         == MergeOptions(cwd, DefaultOutputPath, false, DefaultIgnorePatterns, DefaultIncludePatterns)
  {
  }
}
