/** The records the merge pipeline passes around (lib/types.ts). Optional
    properties are `Option`s: `None` stands for `undefined` (and for a JSON
    `null`, which every consumer treats the same way). */
module Types {
  import opened Wrappers

  /** `ConfigFile`: the contents of a configuration file. */
  datatype ConfigFile = ConfigFile(
    outputPath: Option<string>,
    watch: Option<bool>,
    ignorePatterns: Option<seq<string>>,
    includePatterns: Option<seq<string>>)

  /** `{}` */
  const EmptyConfig := ConfigFile(None, None, None, None)

  /** `MergeOptions`: the fully resolved settings of one merge. */
  datatype MergeOptions = MergeOptions(
    inputPath: string,
    outputPath: string,
    watch: bool,
    ignorePatterns: seq<string>,
    includePatterns: seq<string>)

  /** `Partial<MergeOptions>`: the settings given on the command line. */
  datatype PartialOptions = PartialOptions(
    inputPath: Option<string>,
    outputPath: Option<string>,
    watch: Option<bool>,
    ignorePatterns: Option<seq<string>>,
    includePatterns: Option<seq<string>>)

  /** `FileData`: one collected file. */
  datatype FileData = FileData(path: string, content: string, relativePath: string)

  /** `MergeResult`: what a merge run reports. */
  datatype MergeResult = MergeResult(
    success: bool,
    outputPath: string,
    filesProcessed: nat,
    errors: seq<string>)
}
