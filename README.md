# codemerge-cli in Dafny

A model of the core of codemerge-cli, a command-line tool that merges the text
files of a project into one document for language models, and can serve that
document over HTTP while watching the project for changes.

The model covers:

- **Ignore-pattern translation** (`PatternUtils`):
  - gitignore lines become glob excludes;
  - excludes are trimmed, stripped of `./` and `/`, and deduplicated in first-seen order;
  - pattern groups are merged;
  - built-in defaults and the output file are added.
- **Text-file filter** (`FileUtils`): a case-insensitive suffix test against
  the 26 binary extensions.
- **Configuration** (`Config`):
  - the search for `codemerge.json`, then `codemerge.config.json`, then the
    `codemergeConfig` field of `package.json`, over an abstract directory;
  - the precedence of explicit options over the config file over built-in
    defaults. Some fields use JavaScript's `||` (an empty string falls through);
    others use `??` (only a missing value falls through).
- **The merge run** (`CodeMerger`, with the report pieces in `MergeReport`,
  `Breakdown` and `ProjectTree`):
  - collection of the files the include globs match, filtered and sorted;
  - the header with its totals;
  - the per-extension breakdown, sorted by count with ties in first-seen order;
  - the directory tree;
  - the numbered file index;
  - the framed file blocks and the final document;
  - the result of `execute`.
- **The earlier merge run** (`LegacyCodeMerger`): the same collection loops
  (over the file helpers of lib/utils, see "## Left out"), the same blocks and
  a four-line header.
- **Watch mode**:
  - the single-slot `MergeCache`;
  - the debounced `FileWatcher`, as a state machine over a logical clock;
  - the routing decision of the `HttpServer`;
  - the project-name derivation and the success-gated cache refresh of the
    watch command (`WatchCommand`).
- **Release helper**: the version bump of the publish script (`Publish`).

The file system, globbing, the clock, locale formatting and `localeCompare`
are parameters of the model:
- the `FileSystem` value's `glob`, `fileExists`, `read` and `write`;
- the `timestamp` and `now` values;
- the number formatter `fmt` that stands for `toLocaleString`;
- the comparator `pathLeq`.

Numbers in templates are rendered by `Decimal.Format` (JavaScript's `String(n)`).

Behaviours of the source that the model makes explicit:

- `normalizePatterns` tests for emptiness before it strips `./` and `/`. So `./` and `/` survive
  as the empty pattern (`PatternUtils.DotSlashKeptAsEmpty`).
- `collectFiles` does not deduplicate:
  - a file matched by two include patterns is merged twice (`CodeMerger.RepeatedPatternCollectsTwice`);
  - the directory tree counts such a file once (`ProjectTree.RepeatedFileCountedOnce`).
- The health endpoint reports `mergeReady` when the cache holds anything, even the empty
  string, while the merge endpoint answers 503 for the empty string
  (`HttpServer.EmptyCacheDisagreement`).
- The project's url is tried before `/health` and `/`:
  - an output file named `health.txt` hides the health report (`WatchCommand.HealthNamedOutputShadowsHealth`);
  - one named only by an extension, such as `.txt`, gives the empty project name, which takes over `/` (`WatchCommand.BareExtensionTakesRoot`).
- `bumpVersion` carries a minor already above 9 into the major even without a patch
  overflow (`Publish.BumpProperties`). A version with fewer than three parts
  produces `NaN` and empty components (`Publish.MissingComponents`).
- A debounce timer that has run stays in its slot until the next event or `stop`
  (`FileWatcher.Timer`).

## Model

| member | source | states |
|---|---|---|
| `PatternUtils.Convert` | lib/utils/patternUtils.ts:17-46 | every converted rule yields between one and three patterns |
| `PatternUtils.ConvertGitignorePattern` | lib/utils/patternUtils.ts:17-46 | the pushes of the conversion produce exactly `Convert(pattern)`, one to three patterns |
| `PatternUtils.DirectoryRule` | lib/utils/patternUtils.ts:21-32 | a directory rule gives `name/**`, `**/name/**`, `**/name`; root-relative, only `name/**` |
| `PatternUtils.PathRule` | lib/utils/patternUtils.ts:33-35 | a rule containing `/` gives itself and `**/` + itself; root-relative, only itself |
| `PatternUtils.WildcardRule` | lib/utils/patternUtils.ts:36-38 | a bare wildcard name gives `[p, **/p]`, and a leading `/` changes nothing |
| `PatternUtils.PlainRule` | lib/utils/patternUtils.ts:39-43 | a plain name gives `[**/p, **/p/**, p]`, and a leading `/` changes nothing |
| `PatternUtils.LineRules` | lib/utils/patternUtils.ts:5-11 | a line contributes nothing exactly when, trimmed, it is empty or starts with `#` or `!`; otherwise at most three patterns |
| `PatternUtils.RulesAppend` | lib/utils/patternUtils.ts:5-14 | the patterns of a text are those of its lines, in line order |
| `PatternUtils.SkippedLinesContributeNothing` | lib/utils/patternUtils.ts:6-8 | blank lines, comments and negations yield no pattern |
| `PatternUtils.ParseGitignorePatterns` | lib/utils/patternUtils.ts:2-15 | the loop over the lines yields the conversions of the kept lines in order |
| `PatternUtils.NormalizeOne` | lib/utils/patternUtils.ts:52-56 | the trimmed pattern is the normal form behind at most one `./` and then at most one `/` |
| `PatternUtils.DotSlashStripped` | lib/utils/patternUtils.ts:55 | a leading `./` in front of a clean pattern is removed |
| `PatternUtils.SlashStripped` | lib/utils/patternUtils.ts:56 | a leading `/` in front of a clean pattern is removed |
| `PatternUtils.DotSlashSlashStripped` | lib/utils/patternUtils.ts:55-56 | `.//` in front of a clean pattern loses both the `./` and the `/` |
| `PatternUtils.Normalized` | lib/utils/patternUtils.ts:48-62 | the normalised list holds no duplicates |
| `PatternUtils.NormalizedMembers` | lib/utils/patternUtils.ts:48-62 | a string is in the output exactly when it is the normal form of a non-blank input |
| `PatternUtils.NormalizedPrefix` | lib/utils/patternUtils.ts:58-61 | first-occurrence order: normalising a longer list extends the output of its prefix |
| `PatternUtils.DotSlashKeptAsEmpty` | lib/utils/patternUtils.ts:48-62 | `./` or `/` alone is not blank before stripping, so it is kept as the empty pattern |
| `PatternUtils.NormalizePatterns` | lib/utils/patternUtils.ts:48-62 | the set-filling loop computes `Normalized` |
| `PatternUtils.UndefinedGroupSkipped` | lib/utils/patternUtils.ts:67-69 | an undefined group adds nothing to the concatenation |
| `PatternUtils.MergePatterns` | lib/utils/patternUtils.ts:64-72 | the result is the normalised concatenation of the defined groups in argument order |
| `PatternUtils.CleanIsNormal` | lib/utils/patternUtils.ts:52-56 | a trimmed pattern with no leading `./` or `/` is its own normal form |
| `PatternUtils.NormalizedClean` | lib/utils/patternUtils.ts:48-62 | a list of distinct clean patterns normalises to itself |
| `PatternUtils.DefaultsNormalized` | lib/utils/patternUtils.ts:75-86 | the ten defaults are already normal and distinct |
| `PatternUtils.DefaultsFirst` | lib/utils/patternUtils.ts:88-95 | whatever follows them, the ten defaults open the result |
| `PatternUtils.OutputPathExcluded` | lib/utils/patternUtils.ts:90-95 | a non-blank output path and its `**/` form both reach the result, normalised |
| `PatternUtils.AddDefaultPatterns` | lib/utils/patternUtils.ts:74-96 | the result starts with the ten defaults and excludes a non-blank output path |
| `FileUtils.SomeEndsWith` | lib/utils/fileUtils.ts:26 | `some(endsWith)` holds exactly when one listed suffix ends the string |
| `FileUtils.IsTextFile` | lib/utils/fileUtils.ts:24-27 | a path is not text exactly when its lower-cased form ends with one of the 26 extensions |
| `FileUtils.ExtensionShapeAt` | lib/utils/fileUtils.ts:4-10 | every listed extension is a dot followed by lower-case letters and digits |
| `FileUtils.LowerIdempotent` | lib/utils/fileUtils.ts:25 | lower-casing twice is lower-casing once |
| `FileUtils.CaseInsensitive` | lib/utils/fileUtils.ts:25 | the verdict is the same for a path and its lower-cased form |
| `FileUtils.ListedExtensionIsBinary` | lib/utils/fileUtils.ts:24-27 | a path ending in a listed extension, in any case, is rejected; `x.tar.gz` via `.gz`, a file named `.png` |
| `FileUtils.UnlistedExtensionIsText` | lib/utils/fileUtils.ts:24-27 | a path ending in a single unlisted extension such as `.ts`, `.json` or `.md` is text |
| `FileUtils.DirectoryPrefixIrrelevant` | lib/utils/fileUtils.ts:26 | putting a directory in front of a name does not change the verdict |
| `Config.ParseConfigFile` | lib/core/config.ts:49-55 | a config file that does not parse reads as `{}` |
| `Config.LoadPackageJsonConfig` | lib/core/config.ts:57-67 | `codemergeConfig` of package.json, or `{}` when the file is missing, unparsable or lacks it |
| `Config.Load` | lib/core/config.ts:36-47 | `codemerge.json` first, then `codemerge.config.json`, then package.json |
| `Config.NoFallThrough` | lib/core/config.ts:39-44 | an existing but broken `codemerge.json` gives `{}` without trying the next file |
| `Config.NothingFound` | lib/core/config.ts:46 | with none of the three files the result is `{}` |
| `Config.OnlyThreeNamesMatter` | lib/core/config.ts:9-12 | files with other names never influence the result |
| `Config.Merge` | lib/core/config.ts:69-77 | explicit values win (non-empty strings, any given list or boolean) and the output path is never empty |
| `Config.InputPathRule` | lib/core/config.ts:71 | the input path is the explicit one when non-empty, else the current directory |
| `Config.OutputPathRule` | lib/core/config.ts:72 | explicit when non-empty, else the config's when non-empty, else `merged-output.txt` |
| `Config.WatchRule` | lib/core/config.ts:73 | `??`: an explicit `false` overrides a config `true`, and the default is `false` |
| `Config.PatternListRule` | lib/core/config.ts:74-75 | explicit lists win even when empty, then the config's, then the defaults |
| `Config.AllDefaults` | lib/core/config.ts:69-77 | with nothing given, the built-in defaults are used |
| `MergeReport.LineCount` | lib/core/codeMerger.ts:68 | a file's line count is its number of newlines plus one |
| `MergeReport.TotalLinesAtLeastFiles` | lib/core/codeMerger.ts:68 | the total line count is at least the number of files |
| `MergeReport.BlockLayout` | lib/core/codeMerger.ts:76-86 | a block is the start marker, dashes, the content, dashes, the end marker and an empty line |
| `MergeReport.ContentVerbatim` | lib/core/codeMerger.ts:81 | the file content appears unchanged at its place in the block |
| `MergeReport.BlockLineCount` | lib/core/codeMerger.ts:76-86 | a block spans five lines more than its content |
| `MergeReport.BodySnoc` | lib/core/codeMerger.ts:76-86 | blocks are joined by a newline in collection order |
| `MergeReport.DocumentLayout` | lib/core/codeMerger.ts:88 | the document is the header, a newline, 80 `=`, two newlines, then the body |
| `MergeReport.HeaderLines` | lib/core/codeMerger.ts:91-107 | the header's first seven lines are the title, timestamp, source path, the three totals and an empty line |
| `MergeReport.FileIndexLines` | lib/core/codeMerger.ts:157-164 | when no path or formatted count holds a newline, the index splits back into the title and one line per file in collection order, the i-th numbered `i + 1` |
| `MergeReport.IndexPositionReadsBack` | lib/core/codeMerger.ts:160 | the right-aligned number of an index line reads back as the file's position |
| `Breakdown.ExtensionOf` | lib/core/codeMerger.ts:113 | the key is never empty; apart from `unknown` it is a dot-free suffix of the path |
| `Breakdown.ExtensionCases` | lib/core/codeMerger.ts:113 | a dot-free path is its own key, a trailing dot gives `unknown`, `p.e` gives `e` |
| `Breakdown.Record` | lib/core/codeMerger.ts:115-116 | one map update adds at most one entry |
| `Breakdown.RecordTally` | lib/core/codeMerger.ts:115-116 | an update adds one file and its lines to its own key only |
| `Breakdown.RecordDistinct` | lib/core/codeMerger.ts:115-116 | the map keeps one entry per key |
| `Breakdown.TypeStatsCorrect` | lib/core/codeMerger.ts:110-117 | each key counts the files with that key and their lines; counts sum to the file count and lines to the total |
| `Breakdown.TypeStatsDistinct` | lib/core/codeMerger.ts:110-117 | the tally never holds two entries for one key |
| `Breakdown.TypeStatsCount` | lib/core/codeMerger.ts:110-117 | a key's count is the number of files with that key |
| `Breakdown.TypeStatsLines` | lib/core/codeMerger.ts:110-117 | a key's lines are the lines of the files with that key |
| `Breakdown.TypeStatsSums` | lib/core/codeMerger.ts:110-117 | the counts add up to the number of files and the lines to the total lines |
| `Breakdown.TallyKeys` | lib/core/codeMerger.ts:112-117 | the keys are exactly the extensions of the files |
| `Breakdown.ByCountDescTotalPreorder` | lib/core/codeMerger.ts:119 | the descending-count comparator is a total preorder |
| `Breakdown.RowsOrdered` | lib/core/codeMerger.ts:119 | rows are a permutation of the tally, by descending count, with ties in first-seen order |
| `Breakdown.RowLines` | lib/core/codeMerger.ts:120 | one rendered row per sorted entry, in order |
| `ProjectTree.Parts` | lib/core/codeMerger.ts:129 | splitting on `/` or `\` gives at least one part, none holding a separator |
| `ProjectTree.TouchFacts` | lib/core/codeMerger.ts:138 | registering a directory adds it once and leaves every name set as it was |
| `ProjectTree.AddNameFacts` | lib/core/codeMerger.ts:139 | adding a name changes only its directory's set |
| `ProjectTree.AddDirsFacts` | lib/core/codeMerger.ts:136-140 | the inner loop registers every proper prefix and adds the name to the deepest one |
| `ProjectTree.AddPathFacts` | lib/core/codeMerger.ts:128-141 | one file registers its ancestors and adds its name to its parent (`.` for a root file) |
| `ProjectTree.TreeCorrect` | lib/core/codeMerger.ts:126-141 | the map has one entry per distinct ancestor directory, holding the distinct names directly inside |
| `ProjectTree.RepeatedFileCountedOnce` | lib/core/codeMerger.ts:139 | a file collected twice is counted once in its directory |
| `ProjectTree.NameListed` | lib/core/codeMerger.ts:128-141 | every file's name is listed under its parent directory |
| `ProjectTree.TreeLines` | lib/core/codeMerger.ts:146-152 | one line per sorted directory with its name count |
| `ProjectTree.SortedDirsCorrect` | lib/core/codeMerger.ts:143 | the listed directories are exactly the ancestor directories, in code-unit order |
| `ProjectTree.DirLine` | lib/core/codeMerger.ts:149-151 | a directory at depth k is indented by 2k spaces and shows its last part |
| `Sorting.SortBySorted` | lib/core/codeMerger.ts:64 | `sort` with a total-preorder comparator yields an ordered list |
| `Sorting.SortByStable` | lib/core/codeMerger.ts:119 | `sort` keeps elements that compare equal in their input order |
| `Sorting.CodeUnitTotalPreorder` | lib/core/codeMerger.ts:143 | the default string order of `sort()` is a total preorder |
| `CodeMerger.ExecuteWith` | lib/core/codeMerger.ts:15-35 | success reports the file count and no errors; any throw gives failure, zero files and one message |
| `CodeMerger.ByRelativePathPreorder` | lib/core/codeMerger.ts:64 | comparing by relative path is a total preorder when the string comparison is |
| `CodeMerger.CollectedAdmitted` | lib/core/codeMerger.ts:37-65 | every collected file exists, is text, was read, and sits at its relative path |
| `CodeMerger.CollectedSorted` | lib/core/codeMerger.ts:64 | the collection is the matched files reordered, sorted by relative path |
| `CodeMerger.UnreadableSkipped` | lib/core/codeMerger.ts:51-59 | a match whose read throws is skipped and the rest still counts |
| `CodeMerger.RepeatedPatternCollectsTwice` | lib/core/codeMerger.ts:41-62 | a pattern listed twice collects its files twice |
| `CodeMerger.GatheredErrSticks` | lib/core/codeMerger.ts:41-47 | once a glob throws, later patterns change nothing |
| `CodeMerger.CodeMerger.constructor` | lib/core/codeMerger.ts:11-13 | the merger keeps its options |
| `CodeMerger.CodeMerger.CollectFiles` | lib/core/codeMerger.ts:37-65 | the loop over the patterns computes `Collected`, stopping at the first glob that throws |
| `CodeMerger.CodeMerger.ReadMatches` | lib/core/codeMerger.ts:48-61 | the loop over the matches keeps each existing, readable text file in match order |
| `CodeMerger.CodeMerger.GenerateBreakdown` | lib/core/codeMerger.ts:109-123 | the breakdown text of the files |
| `CodeMerger.CodeMerger.TallyTypes` | lib/core/codeMerger.ts:110-117 | the `forEach` over the files builds the tally |
| `CodeMerger.CodeMerger.RenderRows` | lib/core/codeMerger.ts:119-122 | one row per sorted entry |
| `CodeMerger.CodeMerger.GenerateProjectTree` | lib/core/codeMerger.ts:125-155 | the map-filling loops and the sorted rendering give the tree text |
| `CodeMerger.CodeMerger.BuildTree` | lib/core/codeMerger.ts:128-141 | the `forEach` over the files builds `Tree` |
| `CodeMerger.CodeMerger.AddFile` | lib/core/codeMerger.ts:129-140 | one file's step: its directories are registered and its name added to the deepest |
| `CodeMerger.CodeMerger.RenderTree` | lib/core/codeMerger.ts:146-152 | one line per sorted directory |
| `CodeMerger.CodeMerger.MergeFiles` | lib/core/codeMerger.ts:67-89 | the document is the full header over the framed blocks |
| `CodeMerger.CodeMerger.Execute` | lib/core/codeMerger.ts:15-35 | collect, merge, write; the result has the success/failure shape of `ExecuteWith` |
| `LegacyCodeMerger.HeaderLines` | src/core/codeMerger.ts:87-95 | the header is exactly four lines: title, timestamp, source path, file count |
| `LegacyCodeMerger.DocumentLines` | src/core/codeMerger.ts:68-85 | the document's first six lines are the header, 80 `=` and an empty line |
| `LegacyCodeMerger.NewerHeaderExtends` | src/core/codeMerger.ts:87-95 | the newer header starts with the same four lines |
| `LegacyCodeMerger.CodeMerger.constructor` | src/core/codeMerger.ts:12-14 | the merger keeps its options |
| `LegacyCodeMerger.CodeMerger.CollectFiles` | src/core/codeMerger.ts:38-66 | the same loops as the newer run, so the same collection: existing text files, read failures skipped, duplicates kept, sorted |
| `LegacyCodeMerger.CodeMerger.MergeFiles` | src/core/codeMerger.ts:68-85 | the four-line header, the rule, an empty line and the same framed blocks |
| `LegacyCodeMerger.CodeMerger.Execute` | src/core/codeMerger.ts:16-36 | the same success/failure shape as the newer run |
| `MergeCache.MergeCache.constructor` | lib/core/mergeCache.ts:2-3 | a fresh cache has no content and no update time |
| `MergeCache.MergeCache.Set` | lib/core/mergeCache.ts:5-8 | the new content replaces the old (last write wins) and the time is recorded |
| `MergeCache.MergeCache.Get` | lib/core/mergeCache.ts:10-12 | returns the content and changes nothing |
| `MergeCache.MergeCache.GetLastUpdate` | lib/core/mergeCache.ts:14-16 | returns the time, present exactly when content is, and changes nothing |
| `MergeCache.MergeCache.Clear` | lib/core/mergeCache.ts:18-21 | content and time are both reset |
| `MergeCache.MergeCache.HasContent` | lib/core/mergeCache.ts:23-25 | true exactly when content is present, the empty string included |
| `FileWatcher.Stopped` | lib/core/fileWatcher.ts:34-43 | after `stop` nothing is watched and no timer is held |
| `FileWatcher.Started` | lib/core/fileWatcher.ts:18-32 | `start` watches, dropping the timer of a watcher it stops first |
| `FileWatcher.Changed` | lib/core/fileWatcher.ts:45-57 | a file event replaces any timer with one due 300 ms later |
| `FileWatcher.Ticked` | lib/core/fileWatcher.ts:50-56 | the callback runs exactly when a pending timer is due; the watcher stays as it was |
| `FileWatcher.StepInv` | lib/core/fileWatcher.ts:18-57 | every operation keeps "not watching implies no timer" |
| `FileWatcher.RunInv` | lib/core/fileWatcher.ts:18-57 | the invariant holds along any run |
| `FileWatcher.StoppedStaysSilent` | lib/core/fileWatcher.ts:34-43 | after `stop`, events and time never run the callback |
| `FileWatcher.BurstFiresOnce` | lib/core/fileWatcher.ts:45-57 | events less than 300 ms apart run the callback once, 300 ms after the last |
| `FileWatcher.FileWatcher.constructor` | lib/core/fileWatcher.ts:7-16 | a new watcher watches nothing and holds no timer |
| `FileWatcher.FileWatcher.Start` | lib/core/fileWatcher.ts:18-32 | `start` stops a running watcher first, then watches |
| `FileWatcher.FileWatcher.Stop` | lib/core/fileWatcher.ts:34-43 | `stop` clears the watcher and the timer, idempotently |
| `FileWatcher.FileWatcher.HandleFileChange` | lib/core/fileWatcher.ts:45-57 | cancel and reschedule at now + 300 |
| `FileWatcher.FileWatcher.Tick` | lib/core/fileWatcher.ts:50-56 | the timer's callback runs when due; what it throws is caught |
| `HttpServer.MergeEndpoint` | lib/core/httpServer.ts:61-72 | 503 `Merge not ready yet` when the cache is null or empty, otherwise 200 plain text with the content verbatim |
| `HttpServer.HealthEndpoint` | lib/core/httpServer.ts:74-82 | 200 JSON with `mergeReady` exactly when the cache is not null |
| `HttpServer.NotFoundResponse` | lib/core/httpServer.ts:84-90 | 404 listing `/`, `/health` and the project's url |
| `HttpServer.Route` | lib/core/httpServer.ts:45-59 | the project's url (with or without a trailing slash) first, then `/health` and `/`, else 404 |
| `HttpServer.EmptyCacheDisagreement` | lib/core/httpServer.ts:61-82 | with an empty cached string, health says ready while the merge endpoint answers 503 |
| `HttpServer.ProjectNamedHealth` | lib/core/httpServer.ts:48-56 | a project called `health` takes `/health` |
| `HttpServer.EmptyProjectNameTakesRoot` | lib/core/httpServer.ts:48-56 | an empty project name takes `/` and `//` |
| `HttpServer.QueryStringNotFound` | lib/core/httpServer.ts:45-59 | `/health?…` is not found: query strings are not stripped |
| `HttpServer.HttpServer.constructor` | lib/core/httpServer.ts:12-16 | the server keeps its port, name and cache and is not running |
| `HttpServer.HttpServer.Start` | lib/core/httpServer.ts:18-36 | after `start` the server object exists |
| `HttpServer.HttpServer.Stop` | lib/core/httpServer.ts:38-43 | `stop` leaves no server, idempotently |
| `HttpServer.HttpServer.HandleRequest` | lib/core/httpServer.ts:45-59 | the response is `Route` of the url and the cache, and nothing changes |
| `WatchCommand.DropTrailingSlashes` | lib/commands/watch.ts:80 | trailing slashes go and nothing else does |
| `WatchCommand.BasenameIgnoresTrailingSlashes` | lib/commands/watch.ts:80 | `dir/name` followed by any number of `/` has basename `name` |
| `WatchCommand.Basename` | lib/commands/watch.ts:80 | the base name holds no `/` |
| `WatchCommand.BasenameAfterDir` | lib/commands/watch.ts:80 | the base name of `dir/name` is `name` |
| `WatchCommand.StripExtension` | lib/commands/watch.ts:81 | at most a final `.ext` (ext non-empty, no `.` or `/`) is cut off |
| `WatchCommand.StripFinalExtension` | lib/commands/watch.ts:81 | `stem.ext` loses exactly `.ext` |
| `WatchCommand.Sanitize` | lib/commands/watch.ts:81 | each character outside `[a-zA-Z0-9-_]` becomes `-`, one for one |
| `WatchCommand.GetProjectName` | lib/commands/watch.ts:79-82 | only `[a-z0-9_-]`, as long as the base name without its extension |
| `WatchCommand.GetProjectNameIdempotent` | lib/commands/watch.ts:79-82 | a project name is its own project name |
| `WatchCommand.PlainProjectName` | lib/commands/watch.ts:79-82 | `dir/stem.ext` with a plain lower-case stem gives `stem` |
| `WatchCommand.InnerDotsBecomeDashes` | lib/commands/watch.ts:79-82 | for names `a`, `b`, `c` of `[a-z0-9_-]`, `a.b.c` gives `a-b` |
| `WatchCommand.BareExtensionIsEmpty` | lib/commands/watch.ts:79-82 | a name that is only an extension, like `.txt`, gives the empty name |
| `WatchCommand.HealthNamedOutputShadowsHealth` | lib/commands/watch.ts:31-38 | an output whose project name is `health` makes `/health` serve the merge |
| `WatchCommand.BareExtensionTakesRoot` | lib/commands/watch.ts:31-38 | an output named only by an extension (`.txt`) makes `/` serve the merge |
| `WatchCommand.PerformInitialMerge` | lib/commands/watch.ts:59-72 | the cache is set to the output file's text only after a successful merge, else unchanged |
| `Publish.Inc` | publish.js:14 | adding one keeps numbers numbers and turns anything else into `NaN` |
| `Publish.Render` | publish.js:19 | a rendered component never holds a dot |
| `Publish.BumpVersion` | publish.js:12-20 | the output always has exactly three dot-separated components |
| `Publish.BumpProperties` | publish.js:14-19 | the result is strictly later, components at most 9 stay at most 9, carries reset to 0 |
| `Publish.BumpVersionText` | publish.js:12-20 | a written version bumps to the written bumped numbers |
| `Publish.Examples` | publish.js:12-20 | `1.9.9` becomes `2.0.0` and `1.2.3` becomes `1.2.4` |
| `Publish.MissingComponents` | publish.js:13 | a one-part version `n` becomes `n..NaN` |

## Left out

- Globbing, `existsSync`, `readFileSync` and `writeFileSync` are foreign calls. They are the oracle fields of `CodeMerger.FileSystem`. The model does not relate the output written by one run to a later read, so `WatchCommand.PerformInitialMerge` takes the text read back as a parameter.
- JSON parsing. A config file is either unparsable or a parsed `ConfigFile`; a document that parses to a non-object is not modelled.
- `path.resolve` and `path.relative`. The full path is `inputPath + "/" + match`, and the relative path is the glob's match unchanged. `path.basename` follows POSIX (only `/` separates).
- `new Date()`, `toISOString`, `toLocaleString` and `localeCompare` are parameters: `timestamp`, `now`, `fmt` and `pathLeq`.
- `toLowerCase` is modelled on ASCII letters. This is exact for the project name and for the extension test, for two different reasons:
  - The project name: non-ASCII characters are replaced by `-` before lower-casing.
  - The extension test: the only non-ASCII code units that JavaScript lower-cases to an ASCII letter are U+212A, which becomes `k`, and U+0130, which becomes `i` followed by a combining mark. No listed extension contains `k`, and an `i` followed by a mark cannot end an ASCII suffix. So no path changes its verdict.
- A `char` stands for one UTF-16 code unit. Text outside the Basic Multilingual Plane, which JavaScript stores as two code units, is not modelled. This affects:
  - the total characters (`content.length`);
  - the project name (`Sanitize` writes one `-` where the regular expression writes two);
  - the code-unit order of the tree's directories;
  - the suffix test of `FileUtils.IsTextFile`.
- `Publish.ToNumber`: `Number` of a part with white space, a sign, a hexadecimal or exponent form, or `Infinity` is treated as `NaN`. Numbers are unbounded: the precision lost above 2^53 and the exponent notation `String` uses from 1e21 are not modelled.
- chokidar's subscription is the `watching` flag, and `setTimeout`/`clearTimeout` are the timer slot over a logical clock. Which events chokidar reports is not modelled.
- `FileWatcher.FileWatcher.HandleFileChange` requires a live subscription, because the source only calls it through chokidar.
- `createServer`, `listen`, the `EADDRINUSE` and other server errors, sockets and the JSON text of the bodies. A response is its status, its content type and its body fields.
- `HttpServer.HttpServer.Start`: only states that the server object exists, not whether listening succeeded.
- The watch command's `execute`, its signal handlers, `process.exit` and its console output.
  - This includes the four-argument `HttpServer` constructor call at lib/commands/watch.ts:38. Its extra argument is ignored, and the constructor is modelled with its three parameters.
- Overlapping refreshes from the watcher callback are not modelled: they are concurrent and unguarded.
- `LegacyCodeMerger.CodeMerger.CollectFiles`: src/core/codeMerger.ts imports its file helpers from src/utils/fileUtils, which is not part of this model. Its `exists`, `isTextFile` and `read` are taken to be those of lib/utils/fileUtils.
- The git and npm steps of publish.js, the CLI command registration files, create.js, the file generator, the logger and the path helpers are not part of this model.
- `Array.prototype.sort` is modelled by a stable insertion sort over a comparator parameter. Its order is only proved for comparators that are total preorders.
