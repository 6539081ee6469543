# qark scanner core, modelled in Dafny

qark (Quick Android Review Kit) scans a decompiled Android application for
security issues. This project models its scanning core:

- **the `Scanner`** (`qark/scanner/scanner.py`). It gathers the files to
  scan and loads the plugins of eight categories in order. It updates the
  shared manifest attributes from the application's manifest. When the
  manifest parses, the manifest category's plugins run at once; otherwise
  they join the per-file checks. Every other plugin is registered with a
  `Subject`. For each file, the observers are notified, the coroutine
  plugins are fed the parsed Java tree node by node, and the per-file
  caches are reset. At the end, plugins with a `finalize` are finalized and
  every plugin's issues are collected in registration order.
- **the plugin base classes** (`qark/scanner/plugin.py`). The class-level
  caches of `FilePathPlugin`, `FileContentsPlugin` and `JavaASTPlugin` are
  one `FileCache` object. The class-level manifest attributes of
  `ManifestPlugin` are one `ManifestState` object. Plugin discovery is
  modelled with its denylist.
- **`Issue` and `Severity`** (`qark/issue.py`): severity normalisation and
  the hash key.
- **the ordering of the report** (`qark/report.py`).
- **the helpers**: `file_has_extension`/`is_java_file` (`qark/utils.py`),
  `qark/plugins/helpers.py` and `qark/plugins/manifest_helpers.py`.
- **six rules**: `exported_tags`, the webview helper
  `webview_default_vulnerable`, `send_broadcast_receiver_permission`,
  `dynamic_broadcast_receiver`, `android_logging` and `custom_permissions`.

Each plugin object is a `Rules.Rule` whose constant `kind` says which base
class it extends and holds the rule's own logic as functions:

- a path, contents or tree observer;
- a coroutine (node-stream) plugin, with its priming, its per-node step and
  an optional `finalize`;
- a manifest-only plugin.

Each stateful method is proved against a specification function on values
(`Updated`, `Primed`, `Received`, `Streamed`, `Finalized`, `ManifestRan`,
and in the scanner `NotifyAll`, `Cycle`, `ScanFiles`, `FinalizeAll`,
`Collect`, `ChecksIssues`, `RunIssues`). The source's promises are then
proved as lemmas about those functions.

The file system, the XML parser and the Java parser are parameters:

- a map from path to stored text;
- a map from path to parsed document;
- a function from text to an optional tree, `None` standing for a parse failure the source catches (see "## Left out").

The directory walk and each category's plugin listing are parameters too.

Where the code and its written description disagree, the model follows the
code. In particular:

- A manifest that does not parse leaves `min_sdk` and `target_sdk` at their
  class defaults of -1, not 1 (`qark/scanner/plugin.py:177-186`).
  `package_name` keeps its previous value, initially `"PACKAGE_NOT_FOUND"`.
- `get_min_sdk`, `get_target_sdk` and `get_package_from_manifest` never
  raise. So the two fallback `except` branches of `update_manifest` cannot
  be reached, and a manifest without a `package` attribute gives a
  package of None.

## Model

| member | source | states |
|---|---|---|
| Scanner.Gathered | qark/scanner/scanner.py:70-82 | a Java file as `path_to_source` is the only file; otherwise exactly the walked paths, each once |
| Scanner.GatherFiles | qark/scanner/scanner.py:70-82 | the file loop computes `Gathered` |
| Scanner.Dedup | qark/scanner/scanner.py:70-82 | the set of walked paths: same members as the walk, no repeats |
| Scanner.Scanner.constructor | qark/scanner/scanner.py:15-20 | stores both paths, starts with no issues and with the gathered files |
| Scanner.Subject.constructor | qark/scanner/scanner.py:84-86 | a new subject has no observers |
| Scanner.Subject.Register | qark/scanner/scanner.py:88-90 | the observer is appended to the list |
| Scanner.Subject.Notify | qark/scanner/scanner.py:96-98 | every observer is updated in order, each seeing the cache its predecessors left (`NotifyAll`) |
| Scanner.NotifyStep | qark/scanner/scanner.py:96-98 | one turn of the notify loop extends the `NotifyAll` prefix by one observer and leaves the rest untouched |
| Scanner.Subject.Reset | qark/scanner/scanner.py:100-103 | every observer resets its cache level in order (`ClearAll`) |
| Scanner.NotifyAll | qark/scanner/scanner.py:96-98 | reference definition of the notify loop; its own contract only keeps the number and kind of observers, their broadcast and logging state, and the cache coherent; its meaning is carried by `Subject.Notify`, `NotifyStep`, `NotifyStaysWithin` and `CycleEndsFresh` |
| Scanner.MaxLevel | qark/scanner/plugin.py:57-145 | the deepest cache level any observer uses is reached by one of them and bounds them all |
| Scanner.NotifyStaysWithin | qark/scanner/plugin.py:61-138 | updates by observers of at most a given level never fill a deeper cache level |
| Scanner.ClearsStayWithin | qark/scanner/plugin.py:74-145 | resets never fill a cache level |
| Scanner.ClearsRestore | qark/scanner/scanner.py:100-103 | when the deepest observer resets, the whole cache is back to its declared defaults |
| Scanner.CycleEndsFresh | qark/scanner/scanner.py:55-59 | after notify then reset for a file, the cache is back to its declared defaults, so no file sees its predecessor's cache |
| Scanner.PrimeAll | qark/scanner/scanner.py:105-115 | every coroutine plugin is asked `can_run_coroutine` and primed (`Primed`) |
| Scanner.SendNode | qark/scanner/scanner.py:105-115 | a node reaches exactly the coroutines that said they can run (`Received`) |
| Scanner.NotifyCoroutines | qark/scanner/scanner.py:105-115 | each coroutine plugin ends as `Streamed`: primed, then fed every node of the tree when it can run and a tree exists |
| Scanner.StreamAll | qark/scanner/scanner.py:105-115 | reference definition: `Streamed` applied to each plugin; its own contract only keeps their number; its meaning is carried by `StreamObservers`, `NotifyCoroutines` and the `Streamed` lemmas |
| Scanner.StreamObservers | qark/scanner/scanner.py:57 | after `notify_coroutines`, every observer holds `StreamAll` of its notified state: node-stream rules streamed, the rest untouched; the cache is unchanged |
| Scanner.ScanFile | qark/scanner/scanner.py:55-59 | one file: notify, stream, reset; the observers end as `Cycle` and the cache is fresh again |
| Scanner.Cycle | qark/scanner/scanner.py:55-59 | reference definition of one file's cycle (notify, stream, reset); its own contract only keeps every plugin's kind; its meaning is carried by `ScanFile` and `CycleEndsFresh` |
| Scanner.ScanAll | qark/scanner/scanner.py:55-59 | the loop over the files ends at `ScanFiles`, with a fresh cache |
| Scanner.ScanFiles | qark/scanner/scanner.py:55-59 | reference definition: `Cycle` over the files in order; its own contract only keeps the number and kind of plugins; its meaning is carried by `ScanAll` |
| Scanner.FinalizeLoop | qark/scanner/scanner.py:61-64 | every observer with a `finalize` is finalized (`Finalized`); the others are unchanged |
| Scanner.FinalizeOne | qark/scanner/scanner.py:61-64 | one plugin finalized |
| Scanner.FinalizeAll | qark/scanner/scanner.py:61-64 | reference definition: `Finalized` applied to each plugin; its own contract only keeps their number; its meaning is carried by `FinalizeLoop` and `Rules.FinalizeOnlyWithLogs` |
| Scanner.ObserverRules | qark/scanner/scanner.py:48-49 | the plugins that are observers, and all of them |
| Scanner.CoroutineRules | qark/scanner/scanner.py:48-49 | the plugins that are coroutine plugins, and all of them |
| Scanner.Observers | qark/scanner/scanner.py:48-49 | the filtered slots are observers drawn from the input |
| Scanner.ObserverValues | qark/scanner/scanner.py:48-49 | filtering the plugin objects and filtering their states agree element by element |
| Scanner.FilteredDistinct | qark/scanner/scanner.py:48-49 | filtering keeps plugins distinct objects |
| Scanner.RegisterAll | qark/scanner/scanner.py:52-53 | after registration the subject's observers are the observer plugins in order |
| Scanner.Scanner.RunChecks | qark/scanner/scanner.py:46-68 | the issues grow by exactly `ChecksIssues` (register, scan every file, finalize, collect), the files are unchanged and the cache is fresh |
| Scanner.Scanner.DriveObservers | qark/scanner/scanner.py:55-68 | the issues grow by the collected issues of the finalized, scanned observers |
| Scanner.Scanner.CollectIssues | qark/scanner/scanner.py:66-68 | the issues grow by every observer's issues in registration order |
| Scanner.CollectAppend | qark/scanner/scanner.py:66-68 | collecting over two lists of plugins is collecting each in turn |
| Scanner.CollectPlaces | qark/scanner/scanner.py:66-68 | each plugin's issues appear in the collected list between those of the plugins before and after it |
| Scanner.NoObservers | qark/scanner/scanner.py:48-49 | manifest-only plugins are never observers |
| Scanner.ObserversSkip | qark/scanner/scanner.py:48-49 | manifest-only plugins in front do not change which plugins observe |
| Scanner.Scanner.RunManifestPlugins | qark/scanner/scanner.py:29-38 | with a parsed manifest, each manifest plugin runs and the issues grow by their issues in order (`ManifestRuns`) |
| Scanner.Scanner.Run | qark/scanner/scanner.py:22-44 | the manifest attributes become `ManifestAfter` for the manifest path, and the issues grow by exactly `RunIssues` |
| Scanner.Scanner.RunCategories | qark/scanner/scanner.py:29-44 | after loading, the issues grow by `RunIssues` |
| Scanner.Scanner.RunParsed | qark/scanner/scanner.py:29-44 | parsed manifest: the issues grow by `RunIssues`, which is the manifest plugins' issues, then those of the checks of the other categories |
| Scanner.Scanner.RunJoined | qark/scanner/scanner.py:36-44 | unparsed manifest: the manifest plugins join the checks |
| Scanner.UnparsedManifestRulesNeverRun | qark/scanner/scanner.py:29-44 | with an unparsed manifest, the manifest-only plugins contribute nothing: the run's issues are the checks of the other plugins |
| Scanner.LoadCategory | qark/scanner/scanner.py:40-41 | the plugins loaded for one category are `LoadPlugins` of its listing |
| Scanner.LoadRest | qark/scanner/scanner.py:25-41 | the categories after the manifest one are loaded in order (`LoadAll`) |
| Scanner.LoadPlugins | qark/scanner/plugin.py:29-33 | loaded plugins are the kept listed modules' plugins, in order |
| Scanner.LoadAll | qark/scanner/scanner.py:25-41 | every loaded plugin comes from some category |
| Scanner.LoadAllSnoc | qark/scanner/scanner.py:25-41 | loading one more category appends its plugins |
| Scanner.LoadedAreGetPlugins | qark/scanner/plugin.py:29-33 | the modules loaded are exactly those `get_plugins` names, in order |
| Scanner.Names | qark/scanner/plugin.py:29-33 | the module names of a listing, in order |
| ScannerPlugin.GetPlugins | qark/scanner/plugin.py:15-33 | the listed modules minus the denylisted `helpers`, and nothing else |
| ScannerPlugin.GetPluginsKeepsListing | qark/scanner/plugin.py:29-33 | a listing with no denylisted module is returned unchanged |
| ScannerPlugin.ReadText | qark/scanner/plugin.py:89-104 | a missing file gives no text; UTF-8 text when it decodes; otherwise the ISO-8859-1 reading |
| ScannerPlugin.PathStep | qark/scanner/plugin.py:61-72 | a non-empty path keeps the cache coherent and leaves a path set |
| ScannerPlugin.ContentsStep | qark/scanner/plugin.py:84-108 | loading contents keeps the cache coherent and never touches the tree level |
| ScannerPlugin.TreeStep | qark/scanner/plugin.py:121-138 | parsing keeps the cache coherent |
| ScannerPlugin.ParseLoaded | qark/scanner/plugin.py:125-132 | a parse attempt keeps the cache coherent |
| ScannerPlugin.Step | qark/scanner/plugin.py:61-138 | an update at any level keeps the cache coherent |
| ScannerPlugin.FileCache.constructor | qark/scanner/plugin.py:57-119 | the cache starts at the declared class defaults |
| ScannerPlugin.FileCache.UpdatePath | qark/scanner/plugin.py:61-72 | `FilePathPlugin.update` leaves the cache at `PathStep` |
| ScannerPlugin.FileCache.UpdateContents | qark/scanner/plugin.py:84-108 | `FileContentsPlugin.update` leaves the cache at `ContentsStep` |
| ScannerPlugin.FileCache.UpdateTree | qark/scanner/plugin.py:121-138 | `JavaASTPlugin.update` leaves the cache at `TreeStep` |
| ScannerPlugin.FileCache.ParseContents | qark/scanner/plugin.py:125-132 | the parse attempt leaves the cache at `ParseLoaded` |
| ScannerPlugin.FileCache.Update | qark/scanner/plugin.py:61-138 | the update of an observer's level leaves the cache at `Step` |
| ScannerPlugin.FileCache.ResetPath | qark/scanner/plugin.py:74-78 | the path level is back to its defaults |
| ScannerPlugin.FileCache.ResetContents | qark/scanner/plugin.py:110-115 | the contents and path levels are back to their defaults |
| ScannerPlugin.FileCache.ResetTree | qark/scanner/plugin.py:140-145 | all three levels are back to their defaults |
| ScannerPlugin.FileCache.Reset | qark/scanner/plugin.py:74-145 | the reset of an observer's level leaves the cache at `Clear` |
| ScannerPlugin.EmptyPathClears | qark/scanner/plugin.py:61-64 | an empty path clears the stored path and changes nothing else |
| ScannerPlugin.FirstPathSticks | qark/scanner/plugin.py:66-69 | once set, the path is not replaced by later updates; the first one wins |
| ScannerPlugin.ContentsFromFresh | qark/scanner/plugin.py:84-104 | from a fresh cache, contents are the text read, and readable exactly when it could be read |
| ScannerPlugin.ContentsLoadOnce | qark/scanner/plugin.py:88-89 | contents are loaded once: a second update changes nothing |
| ScannerPlugin.TreeLoadOnce | qark/scanner/plugin.py:125 | a second tree update for the same file changes nothing |
| ScannerPlugin.UnreadableIsFixed | qark/scanner/plugin.py:85-86 | an unreadable file stops every later update, and no contents or tree rule runs |
| ScannerPlugin.UnparsableIsFixed | qark/scanner/plugin.py:122-123 | an unparsable file stops every later tree update, and no tree rule runs |
| ScannerPlugin.TreeOnlyFromJavaText | qark/scanner/plugin.py:125-130 | a tree is only ever the parse of a Java file's non-empty contents |
| ScannerPlugin.NonJavaUntouched | qark/scanner/plugin.py:125 | a tree update for a non-Java path changes nothing |
| ScannerPlugin.StepStaysWithin | qark/scanner/plugin.py:61-138 | an update at a level no deeper than a bound fills nothing beyond it |
| ScannerPlugin.ClearRestores | qark/scanner/plugin.py:74-145 | a reset at the deepest filled level restores the defaults; resets never fill a level |
| ScannerPlugin.ClearTreeIsFresh | qark/scanner/plugin.py:140-145 | the tree reset, which chains to its parents' resets, restores every default |
| ScannerPlugin.ManifestAfter | qark/scanner/plugin.py:176-200 | the path is recorded; the document is kept exactly when it parses; unparsed keeps versions and package; parsed reads both versions and the package attribute |
| ScannerPlugin.ManifestState.constructor | qark/scanner/plugin.py:169-174 | the declared class defaults: no document, -1, -1, `"PACKAGE_NOT_FOUND"` |
| ScannerPlugin.ManifestState.UpdateManifest | qark/scanner/plugin.py:176-200 | the attributes become `ManifestAfter` |
| ScannerPlugin.UnparsedManifestKeepsDefaults | qark/scanner/plugin.py:177-186 | an unparsable first manifest leaves -1, -1 and `"PACKAGE_NOT_FOUND"` |
| Rules.AddIssues | qark/scanner/plugin.py:35-46 | appending issues changes nothing else about a plugin |
| Rules.RunOnUpdate | qark/scanner/plugin.py:70-72 | coroutine and manifest-only plugins report nothing on update; contents and tree rules report nothing when their level did not load |
| Rules.Primed | qark/scanner/plugin.py:148-149 | reference definition of `can_run_coroutine`; its own contract only keeps the plugin's kind; its meaning is carried by `Rule.CanRunCoroutine` and `BroadcastStreamPerNode` |
| Rules.Received | qark/scanner/plugin.py:151-155 | reference definition of one `send`; its own contract only keeps the plugin's kind; its meaning is carried by `Rule.Receive`, `ReceivedAllKeepsIssues` and `DynamicStreamPerNode` |
| Rules.ReceivedAll | qark/scanner/plugin.py:151-155 | reference definition of sending the nodes in order; its own contract only keeps the plugin's kind; its meaning is carried by `ReceivedAllKeepsIssues`, `DynamicStreamPerNode`, `BroadcastReceivedAll` and `LoggingStreamSilent` |
| Rules.Streamed | qark/scanner/plugin.py:151-155 | reference definition of one plugin's part of `notify_coroutines`; its own contract only keeps the plugin's kind; its meaning is carried by `StreamKeepsIssues`, `NoTreeNoStream`, `BroadcastStreamPerNode` and `BroadcastPreCheckGates` |
| Rules.Finalized | qark/scanner/scanner.py:61-64 | reference definition of `finalize`; its own contract only keeps the plugin's kind; its meaning is carried by `Rule.Finalize` and `FinalizeOnlyWithLogs` |
| Rules.ManifestRan | qark/scanner/scanner.py:31-33 | reference definition of a manifest plugin's `run`; its own contract only keeps its kind; its meaning is carried by `Rule.RunManifest` and `UnparsedManifestSilent` |
| Rules.Rule.constructor | qark/scanner/plugin.py:36-43 | a plugin starts with no issues and its rule's initial attributes |
| Rules.Rule.Assign | qark/scanner/plugin.py:36-43 | the plugin's attributes become the given values |
| Rules.Rule.Update | qark/scanner/plugin.py:61-167 | the cache moves by the plugin's level (`Step`) and the plugin's issues grow by its rule's check (`Updated`) |
| Rules.Rule.Reset | qark/scanner/plugin.py:74-145 | the cache is reset at the plugin's level |
| Rules.Rule.CanRunCoroutine | qark/scanner/plugin.py:148-149 | the plugin is primed and says whether it can run (`Primed`) |
| Rules.Rule.Receive | qark/scanner/plugin.py:151-155 | the plugin's coroutine takes one node (`Received`) |
| Rules.Rule.Finalize | qark/plugins/file/android_logging.py:39-62 | the plugin's `finalize` runs (`Finalized`) |
| Rules.Rule.RunManifest | qark/scanner/scanner.py:31-33 | the manifest plugin runs against the manifest attributes (`ManifestRan`) |
| Rules.CoroutinesSilentOnUpdate | qark/scanner/plugin.py:166-167 | a coroutine plugin's update never runs it |
| Rules.StreamKeepsIssues | qark/scanner/plugin.py:151-155 | streaming only appends issues; earlier ones are kept in order |
| Rules.ReceivedAllKeepsIssues | qark/scanner/plugin.py:153-155 | feeding nodes only appends issues |
| Rules.DynamicStreamPerNode | qark/plugins/broadcast/dynamic_broadcast_receiver.py:36-57 | the dynamic receiver rule appends exactly each node's issues, in walk order |
| Rules.LoggingStreamSilent | qark/plugins/file/android_logging.py:26-37 | the logging rule records lines but reports nothing while streaming |
| Rules.BroadcastPreCheckGates | qark/plugins/broadcast/send_broadcast_receiver_permission.py:94-98 | without a broadcast method name in the text, the send-broadcast rule only records its state and reports nothing |
| Rules.BroadcastReceivedAll | qark/plugins/broadcast/send_broadcast_receiver_permission.py:76-92 | feeding nodes to the broadcast rule keeps its fields and appends each node's `Receive` issues in walk order |
| Rules.BroadcastStreamPerNode | qark/plugins/broadcast/send_broadcast_receiver_permission.py:94-98 | with a tree, the rule is primed with `Prepare` of the manifest's minSdk, the file and its imports, and then reports each node's issues under those fields exactly when the text names a broadcast method, and nothing otherwise |
| Rules.NoTreeNoStream | qark/scanner/plugin.py:151-155 | without a parsed tree, streaming changes nothing |
| Rules.UnparsedManifestSilent | qark/plugins/manifest/custom_permissions.py:35-37 | the two manifest rules report nothing when the manifest did not parse |
| Rules.FinalizeOnlyWithLogs | qark/plugins/file/android_logging.py:39-62 | finalize adds exactly one issue when some log call was recorded, and nothing otherwise |
| Findings.ValueIdentifiesMember | qark/issue.py:70-74 | the enum values (`Value`: INFO 0, WARNING 1, ERROR 2, VULNERABILITY 3) are pairwise distinct, so a value identifies its member |
| Findings.Normalize | qark/issue.py:29-45 | a member is kept; a value that is neither member nor string becomes WARNING |
| Findings.NormalizeByName | qark/issue.py:31-39 | a string equal to a member's name ignoring case gives that member |
| Findings.NormalizeUnknownText | qark/issue.py:40-42 | any other string gives WARNING |
| Findings.LowerNames | qark/issue.py:32-38 | the names compared are the lower-case enum names |
| Findings.NewIssue | qark/issue.py:10-57 | the severity is normalised, a missing `owasp_refs` is the empty list, every other field is stored as given |
| Report.Priority | qark/report.py:47-52 | every severity has a priority from 1 to 4 |
| Report.SortByPriority | qark/report.py:54 | the result is sorted by priority, a permutation of the input, and stable: within a priority the input order is kept |
| Report.InsertKeepsOrder | qark/report.py:54 | one insertion step keeps the multiset, sortedness and the order within each priority |
| Report.InsertPermutes | qark/report.py:54 | inserting adds exactly the element |
| Report.InsertSorted | qark/report.py:54 | inserting into a sorted list keeps it sorted |
| Report.InsertStable | qark/report.py:54 | inserting keeps the order within each priority |
| Report.SortedIsBucketed | qark/report.py:54 | a sorted list is its priorities' groups in order |
| Report.StableOrderIsUnique | qark/report.py:54 | a sorted list with the input's order inside each priority is unique: the groups by priority in turn |
| Report.SortIsBucketed | qark/report.py:54 | the sort is exactly: priority 1 issues, then 2, 3 and 4, each group in input order |
| Report.ReportOrder | qark/report.py:30-31 | no issues give an empty report; otherwise the sorted issues are a permutation of them |
| Report.DisplayOrderExample | qark/report.py:47-54 | INFO, VULNERABILITY, ERROR, WARNING display as VULNERABILITY, WARNING, ERROR, INFO |
| Report.BucketsOfExample | qark/report.py:47-54 | the same order computed from the priority groups |
| Paths.LastIndex | qark/utils.py:14 | the last position of a character, or -1 when absent |
| Paths.FileHasExtension | qark/utils.py:12-14 | reference definition of `file_has_extension`: the lower-cased extension of the lower-cased path; its meaning is carried by `IsJavaFileIff` and the lemmas after it |
| Paths.IsJavaFile | qark/utils.py:16 | reference definition of `is_java_file`, characterised by `IsJavaFileIff` |
| Paths.SplitExt | qark/utils.py:14 | root and extension rebuild the path; the extension is empty or one dot then no dot or separator |
| Paths.IsJavaFileIff | qark/utils.py:12-16 | a path is a Java file exactly when its lower-cased last component has a non-dot character before a final `.java` |
| Paths.ExtensionJavaOnlyIfSuffix | qark/utils.py:14 | a `.java` extension implies that suffix shape |
| Paths.ExtensionJavaIfSuffix | qark/utils.py:14 | that suffix shape implies the `.java` extension |
| Paths.NoDotNoExtension | qark/utils.py:14 | a last component without a dot has no extension and is not a Java file |
| Paths.UpperCaseIsJava | qark/utils.py:13-16 | `A.JAVA` is a Java file (case-insensitive) |
| Paths.HiddenFileIsNotJava | qark/utils.py:14-16 | `.java` alone is not a Java file (a leading dot is not an extension) |
| Paths.JavaDirectoryIsNotJava | qark/utils.py:14-16 | a `.java` directory component does not make its files Java files |
| ManifestHelpers.GetPackage | qark/plugins/manifest_helpers.py:10-26 | the root element's `package` attribute exactly when the file parses and has one |
| ManifestHelpers.LeadingDigits | qark/plugins/manifest_helpers.py:29-44 | the longest digit prefix |
| ManifestHelpers.LeftmostMatch | qark/plugins/manifest_helpers.py:37 | a match with none before it is the one `re.search` returns |
| ManifestHelpers.FirstMatch | qark/plugins/manifest_helpers.py:37 | `re.search`: the pattern matches at the position returned and at no earlier one; None exactly when it matches nowhere |
| ManifestHelpers.ExtractSdkFromText | qark/plugins/manifest_helpers.py:29-44 | reference definition of `_extract_sdk_from_text`; its meaning is carried by `ExtractSdkRoundTrip` and `NoAttributeGivesOne` |
| ManifestHelpers.NoAttributeGivesOne | qark/plugins/manifest_helpers.py:41-44 | text without the attribute gives 1 |
| ManifestHelpers.ExtractSdkRoundTrip | qark/plugins/manifest_helpers.py:29-44 | any text in which the pattern has not matched yet, then `android:attr=`, an optional quote, a number and anything that does not continue it, reads back that number |
| ManifestHelpers.SdkFromDocumentReadsValue | qark/plugins/manifest_helpers.py:47-73 | the first `uses-sdk` element's numeric attribute is read back exactly |
| ManifestHelpers.SdkDefaultsToOne | qark/plugins/manifest_helpers.py:68-73 | no `uses-sdk`, no attribute, or a value `int()` rejects (underscore-separated digits are accepted, see `SdkFromDocumentUnderscored`) gives 1, for both versions |
| ManifestHelpers.UnparsableManifestFallsBack | qark/plugins/manifest_helpers.py:47-73 | a path that does not parse falls back to the text search, and to 1 when unreadable |
| ManifestHelpers.NoManifestGivesOne | qark/plugins/manifest_helpers.py:47-73 | no manifest at all gives 1 |
| ManifestHelpers.SdkFromDocument | qark/plugins/manifest_helpers.py:68-73 | reference definition of the `uses-sdk` lookup and its `int()`; its meaning is carried by `SdkFromDocumentReadsValue`, `SdkFromDocumentUnderscored` and `SdkDefaultsToOne` |
| ManifestHelpers.SdkFromDocumentUnderscored | qark/plugins/manifest_helpers.py:68-70 | a value with an underscore between digits reads as `int()` reads it: "1_9" gives 19 |
| ManifestHelpers.SdkVersion | qark/plugins/manifest_helpers.py:47-73 | reference definition of the shape `get_min_sdk` and `get_target_sdk` share: located manifest, parse, text fallback, 1; its meaning is carried by `UnparsableManifestFallsBack`, `NoManifestGivesOne`, `SdkDefaultsToOne` and `SdkFromDocumentReadsValue` |
| ManifestHelpers.GetMinSdk | qark/plugins/manifest_helpers.py:47-73 | reference definition: `SdkVersion` for `minSdkVersion` |
| ManifestHelpers.GetTargetSdk | qark/plugins/manifest_helpers.py:76-102 | reference definition: `SdkVersion` for `targetSdkVersion` |
| PluginHelpers.RunRegex | qark/plugins/helpers.py:24-46 | the result is the 1-based numbered, stripped lines that match and are not excluded (`Numbered`) |
| PluginHelpers.RunRegexResults | qark/plugins/helpers.py:24-46 | every result is a matching, non-excluded line with its number; numbers increase; every such line is reported |
| PluginHelpers.NumberedSound | qark/plugins/helpers.py:24-46 | each numbered entry is a kept line and its stripped text |
| PluginHelpers.ResultsSound | qark/plugins/helpers.py:24-46 | every result is a reported line, with its 1-based number and stripped text |
| PluginHelpers.ResultsComplete | qark/plugins/helpers.py:24-46 | every reported line appears among the results |
| PluginHelpers.NumberedIncreasing | qark/plugins/helpers.py:24-46 | line numbers increase |
| PluginHelpers.NumberedComplete | qark/plugins/helpers.py:24-46 | every kept line is listed |
| PluginHelpers.CommentsNeverReported | qark/plugins/helpers.py:13-21 | a `//` comment line is never reported |
| PluginHelpers.JavaFilesFromFiles | qark/plugins/helpers.py:49-51 | exactly the Java files of the input |
| PluginHelpers.JavaFilesAppend | qark/plugins/helpers.py:49-51 | filtering keeps the input order |
| PluginHelpers.RemoveDictEntryByValue | qark/plugins/helpers.py:54-59 | every entry sharing the key's value is dropped, and the others are kept unchanged |
| PluginHelpers.RemoveDropsSharedValue | qark/plugins/helpers.py:54-59 | the key and every alias of its value are gone |
| PluginHelpers.RemoveAbsentKeyKeepsAll | qark/plugins/helpers.py:54-59 | an absent key removes nothing |
| PluginHelpers.ValidMethodInvocationExact | qark/plugins/helpers.py:62-82 | a call matches exactly its own name and argument count; no other node of the model matches (the source's `getattr` also lets a member reference match with `num_arguments` 0, see "## Left out") |
| PluginHelpers.GetMinSdkFromFiles | qark/plugins/helpers.py:85-94 | the `min_sdk` constant when given; else the first manifest path's minSdkVersion; else 1 |
| WebView.ValidSetMethodBool | qark/plugins/webview/helpers.py:11-23 | defined only for calls; true exactly for a one-argument call of the name whose literal argument is the given value |
| WebView.AddNamesContents | qark/plugins/webview/helpers.py:79-93 | the declared names map to the declaration, and other entries are unchanged |
| WebView.AddWebViewToDict | qark/plugins/webview/helpers.py:79-93 | a declaration of the type adds its names; any other type leaves the map unchanged |
| WebView.VisitNode | qark/plugins/webview/helpers.py:45-63 | one node of the walk, as `NodeStep` |
| WebView.TrackMethod | qark/plugins/webview/helpers.py:39-63 | the walk of one method, as `Track` |
| WebView.TrackIsFromWalk | qark/plugins/webview/helpers.py:45-52 | every tracked webview is a declaration found in the method's walk |
| WebView.SelectorsShrink | qark/plugins/webview/helpers.py:53-60 | selectors only remove webviews |
| WebView.IssuesFor | qark/plugins/webview/helpers.py:65-74 | one issue per remaining webview (`IssuesOf`) |
| WebView.IssuesOfMembers | qark/plugins/webview/helpers.py:65-74 | each webview listed has its issue, and each issue comes from one |
| WebView.MethodIssues | qark/plugins/webview/helpers.py:39-74 | one method's report, as `MethodReport` |
| WebView.WebviewDefaultVulnerable | qark/plugins/webview/helpers.py:26-76 | the issues of every method declaration in turn, or failure (`ReportAll`) |
| WebView.ReportDecls | qark/plugins/webview/helpers.py:39-76 | the loop over the declarations computes `ReportAll` |
| WebView.Listing | qark/plugins/webview/helpers.py:65-66 | the distinct tracked webviews, each once |
| WebView.OneIssuePerWebView | qark/plugins/webview/helpers.py:65-74 | a method's report has one issue per distinct remaining webview, and no other issue |
| WebView.NoWebViewNoIssue | qark/plugins/webview/helpers.py:45-52 | a method declaring no WebView reports nothing |
| WebView.SetFalseStopsTracking | qark/plugins/webview/helpers.py:61-63 | `setX(false)` on a tracked webview stops tracking it and every alias |
| WebView.GetSettingsChainStopsTracking | qark/plugins/webview/helpers.py:53-60 | `w.getSettings().setX(false)` stops tracking `w` |
| WebView.SelectorsRemove | qark/plugins/webview/helpers.py:53-60 | a `setX(false)` selector removes the qualifier |
| WebView.SelectorsFailureSticks | qark/plugins/webview/helpers.py:53-60 | once a selector fails, the whole chain fails |
| WebView.TrackFailureSticks | qark/plugins/webview/helpers.py:39-63 | once a node fails, the method's walk fails |
| WebView.ReportFailureSticks | qark/plugins/webview/helpers.py:39-76 | once a method fails, the whole report fails |
| WebView.ReportAllFails | qark/plugins/webview/helpers.py:39-76 | the report fails exactly when some method's walk fails |
| WebView.ListingOfNothing | qark/plugins/webview/helpers.py:65-66 | nothing tracked, nothing listed |
| WebView.Track | qark/plugins/webview/helpers.py:40-63 | reference definition of one method's walk from an empty dictionary; its meaning is carried by `TrackMethod`, `TrackIsFromWalk`, `TrackFailureSticks` and `SetFalseStopsTracking` |
| WebView.MethodReport | qark/plugins/webview/helpers.py:39-74 | reference definition of one method's report; its meaning is carried by `MethodIssues`, `OneIssuePerWebView` and `NoWebViewNoIssue` |
| WebView.ReportAll | qark/plugins/webview/helpers.py:26-76 | reference definition of `webview_default_vulnerable`; its meaning is carried by `WebviewDefaultVulnerable`, `ReportFailureSticks` and `ReportAllFails` |
| SendBroadcast.Prepare | qark/plugins/broadcast/send_broadcast_receiver_permission.py:94-97 | below 21 exactly when minSdk < 21; the current file; the local-broadcast flag exactly when an import path is in the list |
| SendBroadcast.BroadcastIssue | qark/plugins/broadcast/send_broadcast_receiver_permission.py:108-120 | the issue carries the category, current file, line, standard id and given name, description and severity |
| SendBroadcast.InvocationIssues | qark/plugins/broadcast/send_broadcast_receiver_permission.py:100-106 | at most one issue per call, shaped as a broadcast issue |
| SendBroadcast.SetPackageIssues | qark/plugins/broadcast/send_broadcast_receiver_permission.py:82-92 | at most one issue per call, shaped as a broadcast issue; an issue exactly when the call is `setPackage` and some argument is the literal `null` |
| SendBroadcast.Receive | qark/plugins/broadcast/send_broadcast_receiver_permission.py:76-92 | non-calls report nothing; a call the handler table names reports only its handler's issues, any other call only the `setPackage` check's, so a node gives at most one issue |
| SendBroadcast.ReceivedIssuesShape | qark/plugins/broadcast/send_broadcast_receiver_permission.py:76-120 | every issue reported is shaped as a broadcast issue for this file and node |
| SendBroadcast.HandlerTable | qark/plugins/broadcast/send_broadcast_receiver_permission.py:15-26 | the table covers exactly the broadcast methods: the first four send, the last four sticky |
| SendBroadcast.HandlerTableSize | qark/plugins/broadcast/send_broadcast_receiver_permission.py:156-165 | eight handlers |
| SendBroadcast.LocalImportSuppressesSends | qark/plugins/broadcast/send_broadcast_receiver_permission.py:124-125 | a local-broadcast import silences the send handler |
| SendBroadcast.SendArgumentCount | qark/plugins/broadcast/send_broadcast_receiver_permission.py:127-134 | no argument: nothing; one argument: one VULNERABILITY without receiverPermission at the call's line |
| SendBroadcast.SendWithPermission | qark/plugins/broadcast/send_broadcast_receiver_permission.py:135-143 | two or more arguments: one WARNING whose description depends on minSdk < 21 |
| SendBroadcast.StickyAlwaysReported | qark/plugins/broadcast/send_broadcast_receiver_permission.py:146-153 | a sticky broadcast is always one VULNERABILITY, whatever the imports |
| SendBroadcast.SetPackageNullReported | qark/plugins/broadcast/send_broadcast_receiver_permission.py:82-92 | `setPackage` with a `null` argument reports exactly one WARNING |
| SendBroadcast.SetPackageWithoutNullSilent | qark/plugins/broadcast/send_broadcast_receiver_permission.py:82-85 | a `setPackage` call with no literal `null` argument reports nothing |
| SendBroadcast.OtherCallsIgnored | qark/plugins/broadcast/send_broadcast_receiver_permission.py:100-106 | other calls report nothing |
| SendBroadcast.PreCheck | qark/plugins/broadcast/send_broadcast_receiver_permission.py:98 | reference definition of the pre-check search; its effect is carried by `Rules.BroadcastStreamPerNode` and `Rules.BroadcastPreCheckGates` |
| SendBroadcast.SendIssues | qark/plugins/broadcast/send_broadcast_receiver_permission.py:123-144 | reference definition of `handler_send_broadcast`; its meaning is carried by `LocalImportSuppressesSends`, `SendArgumentCount` and `SendWithPermission` |
| SendBroadcast.StickyIssues | qark/plugins/broadcast/send_broadcast_receiver_permission.py:146-154 | reference definition of `handler_sticky`; its meaning is carried by `StickyAlwaysReported` |
| DynamicReceiver.Receive | qark/plugins/broadcast/dynamic_broadcast_receiver.py:36-70 | at most one issue, present exactly when the node classifies, carrying the rule's name, category, file, line, standard and the classification |
| DynamicReceiver.OtherNodesIgnored | qark/plugins/broadcast/dynamic_broadcast_receiver.py:39-42 | anything but a `registerReceiver` call reports nothing |
| DynamicReceiver.FewArgumentsVulnerable | qark/plugins/broadcast/dynamic_broadcast_receiver.py:45-46 | fewer than three arguments: one VULNERABILITY, no permission |
| DynamicReceiver.ThirdArgumentClassified | qark/plugins/broadcast/dynamic_broadcast_receiver.py:47-57 | a literal third argument: null or None is VULNERABILITY; system-like is INFO; other is WARNING |
| DynamicReceiver.ValuelessThirdArgumentIgnored | qark/plugins/broadcast/dynamic_broadcast_receiver.py:49 | a third argument that is not a literal (a variable, a field, a call) has no `value` and reports nothing; the assignment case is under "## Left out" |
| DynamicReceiver.BroadcastInAnyCase | qark/plugins/broadcast/dynamic_broadcast_receiver.py:54 | `BROADCAST` in any letter case makes a permission system-like |
| DynamicReceiver.QuotedPermissionNeedsBroadcast | qark/plugins/broadcast/dynamic_broadcast_receiver.py:54-57 | a quoted literal is INFO exactly when it contains `BROADCAST` in some case |
| DynamicReceiver.Classify | qark/plugins/broadcast/dynamic_broadcast_receiver.py:39-57 | reference definition of the per-node decision; its meaning is carried by `Receive` and the lemmas after it |
| AndroidLogging.AddLine | qark/plugins/file/android_logging.py:37 | adding a line keeps the set sorted and adds exactly that line |
| AndroidLogging.Record | qark/plugins/file/android_logging.py:26-37 | recording keeps the table well formed |
| AndroidLogging.OnlyLogCallsRecorded | qark/plugins/file/android_logging.py:30-31 | nodes other than `Log.<level>` calls change nothing |
| AndroidLogging.LogCallRecorded | qark/plugins/file/android_logging.py:31-37 | a log call registers its file, keeps the other files, and adds its non-zero line |
| AndroidLogging.AddLineAgain | qark/plugins/file/android_logging.py:37 | adding a line twice is adding it once |
| AndroidLogging.RecordTwiceIsOnce | qark/plugins/file/android_logging.py:26-37 | recording the same call twice is recording it once |
| AndroidLogging.Entries | qark/plugins/file/android_logging.py:42-44 | one entry per file, in insertion order |
| AndroidLogging.Finalize | qark/plugins/file/android_logging.py:39-62 | the loop computes `FinalIssues` |
| AndroidLogging.NothingRecordedNoIssue | qark/plugins/file/android_logging.py:40 | no recorded file, no issue |
| AndroidLogging.SummaryReportsEveryFile | qark/plugins/file/android_logging.py:40-62 | one WARNING whose fields are the number of files and then `Entries`, one per file; each file's lines are sorted |
| AndroidLogging.IsLogCall | qark/plugins/file/android_logging.py:30-31 | reference definition of the `Log.<method>` test; its meaning is carried by `OnlyLogCallsRecorded` and `LogCallRecorded` |
| AndroidLogging.FinalIssues | qark/plugins/file/android_logging.py:39-62 | reference definition of what `finalize` appends; its meaning is carried by `Finalize`, `NothingRecordedNoIssue` and `SummaryReportsEveryFile` |
| CustomPermissions.ElementIssues | qark/plugins/manifest/custom_permissions.py:39-78 | at most one issue per permission |
| CustomPermissions.Analyse | qark/plugins/manifest/custom_permissions.py:39-78 | one permission's issues, as `ElementIssues` |
| CustomPermissions.Run | qark/plugins/manifest/custom_permissions.py:35-80 | the loop computes `RunIssues` |
| CustomPermissions.ElementIssueShape | qark/plugins/manifest/custom_permissions.py:52-78 | an issue names the manifest, line, standard id and one of the two rule names |
| CustomPermissions.IssuesComeFromElements | qark/plugins/manifest/custom_permissions.py:39-78 | no more issues than permissions, each from one of them |
| CustomPermissions.WeakLevelsReported | qark/plugins/manifest/custom_permissions.py:46-78 | in range, every signatureOrSystem or dangerous permission is reported |
| CustomPermissions.OutsideRangeSilent | qark/plugins/manifest/custom_permissions.py:46-48 | targetSdk outside 21..34 reports nothing |
| CustomPermissions.NoDocumentSilent | qark/plugins/manifest/custom_permissions.py:36-37 | no parsed manifest reports nothing |
| CustomPermissions.SeverityByTarget | qark/plugins/manifest/custom_permissions.py:52-78 | signatureOrSystem is VULNERABILITY below 29 and INFO from 29; dangerous is WARNING to 28 and INFO from 29; other levels nothing |
| CustomPermissions.MissingLevelIsNormal | qark/plugins/manifest/custom_permissions.py:40-41 | a missing protection level reports nothing |
| CustomPermissions.PaddedLevelRecognised | qark/plugins/manifest/custom_permissions.py:41 | any whitespace before and after the level is stripped, so the level read is the one written |
| CustomPermissions.ProtectionValue | qark/plugins/manifest/custom_permissions.py:40-41 | reference definition of `protection_value`; its meaning is carried by `MissingLevelIsNormal` and `PaddedLevelRecognised` |
| CustomPermissions.RunIssues | qark/plugins/manifest/custom_permissions.py:35-80 | reference definition of `run`; its meaning is carried by `Run`, `IssuesComeFromElements`, `WeakLevelsReported`, `OutsideRangeSilent` and `NoDocumentSilent` |
| ExportedTags.AnalyseManifest | qark/plugins/manifest/exported_tags.py:120-140 | the manifest pass computes `ManifestIssues` |
| ExportedTags.AnalyseComponents | qark/plugins/manifest/exported_tags.py:130-131 | the component loop computes `ComponentsIssues` |
| ExportedTags.AnalyseComponent | qark/plugins/manifest/exported_tags.py:142-192 | one component's issues, as `ComponentIssues` |
| ExportedTags.AnalyseIntentFilters | qark/plugins/manifest/exported_tags.py:216-254 | the filter loop computes `FiltersIssues` |
| ExportedTags.AnalyseActions | qark/plugins/manifest/exported_tags.py:224-254 | the action loop computes `ActionsIssues` |
| ExportedTags.ExplicitAttributeDecides | qark/plugins/manifest/exported_tags.py:194-202 | an explicit `android:exported` decides, case-insensitively |
| ExportedTags.ProviderDefault | qark/plugins/manifest/exported_tags.py:204-208 | without the attribute a provider is exported when either SDK is at most 16 |
| ExportedTags.IntentFilterDefault | qark/plugins/manifest/exported_tags.py:210-214 | without the attribute another component is exported when it has an intent filter |
| ExportedTags.UnnamedOrHiddenSilent | qark/plugins/manifest/exported_tags.py:142-150 | an unnamed or unexported component reports nothing |
| ExportedTags.NoFilterClassification | qark/plugins/manifest/exported_tags.py:160-192 | without filters: permission and minSdk < 20 is INFO pre-5.0; no permission is WARNING unprotected; otherwise nothing |
| ExportedTags.ActionClassification | qark/plugins/manifest/exported_tags.py:226-254 | a protected broadcast is INFO; a permission with minSdk < 20 is INFO pre-5.0; otherwise WARNING unprotected; the action is recorded |
| ExportedTags.OneIssuePerNamedAction | qark/plugins/manifest/exported_tags.py:221-254 | exactly one issue per named action, in order |
| ExportedTags.NoNamedActionSilent | qark/plugins/manifest/exported_tags.py:216-254 | filters without named actions report nothing |
| ExportedTags.ManifestIssuesShaped | qark/plugins/manifest/exported_tags.py:256-266 | every issue carries the Manifest category and the manifest path, no line, INFO or WARNING, and the component's name and type in its exploit data; none is VULNERABILITY |
| ExportedTags.TagsShaped | qark/plugins/manifest/exported_tags.py:126-131 | every issue of the tag loop is shaped so |
| ExportedTags.ComponentsShaped | qark/plugins/manifest/exported_tags.py:142-192 | every component issue is shaped so |
| ExportedTags.FiltersShaped | qark/plugins/manifest/exported_tags.py:216-254 | every filter issue is shaped so |
| ExportedTags.ActionsShaped | qark/plugins/manifest/exported_tags.py:224-254 | every action issue is shaped so |
| ExportedTags.Run | qark/plugins/manifest/exported_tags.py:120-140 | the rule's run computes `RunIssues`: the manifest pass, then the Java enhancement |
| ExportedTags.AnalyseJavaCode | qark/plugins/manifest/exported_tags.py:268-283 | the enhancement loop computes `EnhanceAll` |
| ExportedTags.AnalyseIssue | qark/plugins/manifest/exported_tags.py:273-281 | one issue's enhancement, as `Enhance` |
| ExportedTags.EnhanceKeepsIssues | qark/plugins/manifest/exported_tags.py:268-283 | enhancing keeps every issue and its position, changing only the exploit data |
| ExportedTags.ExtractVulnerableParameters | qark/plugins/manifest/exported_tags.py:285-330 | the extraction computes `Extract` |
| ExportedTags.ScanTree | qark/plugins/manifest/exported_tags.py:308-323 | one file's tree scan, as `TreeScan` |
| ExportedTags.CollectParams | qark/plugins/manifest/exported_tags.py:317-323 | the call loop computes `CallParams` |
| ExportedTags.CollectArgs | qark/plugins/manifest/exported_tags.py:319-323 | the argument loop computes `ArgParams` |
| ExportedTags.ReplaceDots | qark/plugins/manifest/exported_tags.py:279 | every dot becomes a slash, nothing else changes |
| ExportedTags.StripQuotes | qark/plugins/manifest/exported_tags.py:321 | the result has no quote at either end |
| ExportedTags.StripQuotesIsSlice | qark/plugins/manifest/exported_tags.py:321 | the result is a slice of the input with only quotes before and after it |
| ExportedTags.StripQuotesSurrounding | qark/plugins/manifest/exported_tags.py:321 | any run of quotes around a text that neither starts nor ends with a quote is removed, and nothing else: `strip('"\'')` gives back the text |
| ExportedTags.AddParam | qark/plugins/manifest/exported_tags.py:322-323 | adding a parameter keeps the list distinct, keeps its prefix and adds exactly that value |
| ExportedTags.ArgParamsExtends | qark/plugins/manifest/exported_tags.py:319-323 | argument collection only appends, keeping distinctness |
| ExportedTags.ArgParamsMembers | qark/plugins/manifest/exported_tags.py:319-323 | collected values are the old ones plus exactly the literal arguments |
| ExportedTags.CallParamsExtends | qark/plugins/manifest/exported_tags.py:317-323 | call collection only appends, keeping distinctness |
| ExportedTags.CallParamsMembers | qark/plugins/manifest/exported_tags.py:317-323 | collected values are the old ones plus exactly the extras calls' literal arguments |
| ExportedTags.ArgParamsSaturated | qark/plugins/manifest/exported_tags.py:322-323 | nothing new is added when every argument value is already present |
| ExportedTags.CallParamsSaturated | qark/plugins/manifest/exported_tags.py:322-323 | nothing new is added when every call's values are already present |
| ExportedTags.RescanAddsNothing | qark/plugins/manifest/exported_tags.py:312-323 | scanning the same nodes again adds nothing |
| ExportedTags.DeclsScanDistinct | qark/plugins/manifest/exported_tags.py:312-323 | the declaration scan keeps parameters distinct |
| ExportedTags.FilesScanDistinct | qark/plugins/manifest/exported_tags.py:291-328 | the file scan keeps parameters distinct |
| ExportedTags.VulnerableParametersDistinct | qark/plugins/manifest/exported_tags.py:285-330 | `vulnerable_parameters` is a list of distinct strings |
| ExportedTags.NoMatchingFileEmpty | qark/plugins/manifest/exported_tags.py:291-293 | files whose path does not name the component add nothing |
| ExportedTags.IsExported | qark/plugins/manifest/exported_tags.py:194-214 | reference definition of `_is_component_exported`; its meaning is carried by `ExplicitAttributeDecides`, `ProviderDefault` and `IntentFilterDefault` |
| ExportedTags.ComponentIssues | qark/plugins/manifest/exported_tags.py:142-192 | reference definition of one component's analysis; its meaning is carried by `UnnamedOrHiddenSilent`, `NoFilterClassification`, `OneIssuePerNamedAction` and `ComponentsShaped` |
| ExportedTags.ActionIssue | qark/plugins/manifest/exported_tags.py:231-254 | reference definition of one action's issue; its meaning is carried by `ActionClassification` and `ActionIssueShaped` |
| ExportedTags.ActionIssueShaped | qark/plugins/manifest/exported_tags.py:231-266 | an action's issue has the manifest shape: the Manifest category and path, no line, INFO or WARNING, and the component's name and type in its exploit data |
| ExportedTags.FilesScan | qark/plugins/manifest/exported_tags.py:291-328 | reference definition of the file loop with its skips and early stop; its meaning is carried by `FilesScanDistinct` and `NoMatchingFileEmpty` |
| ExportedTags.Extract | qark/plugins/manifest/exported_tags.py:285-330 | reference definition of `_extract_vulnerable_parameters`; its meaning is carried by `ExtractVulnerableParameters` and `VulnerableParametersDistinct` |
| ExportedTags.Enhance | qark/plugins/manifest/exported_tags.py:273-281 | reference definition of one issue's enhancement; its meaning is carried by `AnalyseIssue` and `EnhanceKeepsIssues` |
| ExportedTags.EnhanceAll | qark/plugins/manifest/exported_tags.py:268-283 | reference definition of the Java pass; its meaning is carried by `AnalyseJavaCode` and `EnhanceKeepsIssues` |
| ExportedTags.RunIssues | qark/plugins/manifest/exported_tags.py:120-140 | reference definition of `run`; its meaning is carried by `Run`, `ManifestIssuesShaped`, `OneIssuePerNamedAction` and `EnhanceKeepsIssues` |
| JavaAst.Walk | qark/scanner/scanner.py:105-115 | the walk lists every top node and every child of a node it lists, so every descendant, and is at least as long as the list |
| JavaAst.OnlyMethodDecls | qark/plugins/webview/helpers.py:39 | exactly the method declarations of a list |
| Xml.ElementsByTag | qark/plugins/manifest/custom_permissions.py:37 | every element listed has the tag, and every top element with the tag is listed |
| Xml.NestedListed | qark/plugins/manifest/custom_permissions.py:37 | every element listed for a top element's children is listed for the forest, so nested elements with the tag are found at any depth |
| Xml.RootListedFirst | qark/plugins/manifest_helpers.py:10-26 | a root with the tag is the first element listed |
| Text.NatToStringRoundTrip | qark/plugins/file/android_logging.py:43 | the digits written for a number read back as that number |
| Text.ParseIntOfNatToString | qark/plugins/manifest_helpers.py:47-73 | `int(str(n)) == n` |
| Text.ParseInt | qark/plugins/manifest_helpers.py:70 | `int()` on a string: a result only for text that is not blank once stripped; digits may be grouped by single underscores |
| Text.UnderscoreIgnored | qark/plugins/manifest_helpers.py:70 | an underscore between two digit runs changes nothing: `int("1_9") == int("19") == 19` |
| Text.StripSurrounding | qark/plugins/manifest/custom_permissions.py:41 | `strip()` removes exactly the whitespace around a text that neither starts nor ends with whitespace |

## Left out

- Reading files, parsing XML and Java, and walking directories are parameters. The file system is a map from path to stored text, so an I/O error is a missing entry and there is no retry.
- `javalang`, `minidom` and `re` are not modelled as code. The tree is a small datatype whose node kinds are the ones the modelled rules inspect. `getElementsByTagName` and the exclusion regexes are written out as functions and predicates. The regex that `run_regex` takes is a string predicate.
- Plugin loading through `pluginbase`, and each module's `plugin = …` singleton, are not modelled. A category's listing comes with its plugin objects already built.
- The rule plugins other than the six named above, and `exported_pending_intent`, are not part of this model. `Rules.RuleKind` gives the scanner the kinds of observer they are (path, contents, tree or stream observer, manifest plugin), with rule functions that cannot raise; what such a rule checks is not modelled.
- `Subject.unregister` (`qark/scanner/scanner.py:92-94`) is not modelled, because the scanner never calls it.
- Report generation is not modelled: file writing, timestamps, Jinja templates and the JSON encoder (`IssueEncoder`, `issue_json`). Only the ordering of the issues is. The `Report` singleton is not modelled either.
- Report.SortByPriority: the default priority 5 that `priority_order.get` gives is never used, because the severity is always one of the four members.
- Report.ReportOrder: an empty list and `None` are treated alike, as the source's `issues if issues else []` does.
- Python sets have no defined order. The scanner's `files` set is listed in first-seen walk order. `set(webviews.values())` is listed in walk order. The set of logged lines is kept sorted, as it is printed sorted.
- Rules.RunOnUpdate, Rules.Received: in the source, the run of a path or contents rule (`qark/scanner/plugin.py:71-72`, `qark/scanner/plugin.py:107-108`) and a coroutine's `send` (`qark/scanner/scanner.py:113-115`) are unguarded, and nothing wraps `notify` or `notify_coroutines` (`qark/scanner/scanner.py:57-58`), so one rule that raises ends the whole scan. The model's rule functions cannot raise, so `ScanAll` and `ChecksIssues` describe runs in which no rule raises. Only the run in `JavaASTPlugin.update` is guarded (`qark/scanner/plugin.py:134-138`); a tree rule that raises there is modelled as one that returns no result, which adds no issue.
- DynamicReceiver.Classify: a third argument that is an assignment, as in `registerReceiver(r, f, p = "x")`, has a `value` in javalang, so the source reads `str(arg.value)` (a node's text, never "null"/"None" nor an `android.permission.` name) and reports a weak permission: INFO when that text contains "broadcast" in any case, WARNING otherwise. The model has no assignment node (it is an `Other`), so it reports nothing there.
- PluginHelpers.RunRegex: the I/O errors `run_regex` logs and turns into an empty result are not modelled; the lines are given.
- PluginHelpers.GetMinSdkFromFiles: `apk_constants` is a map to integers, so the `int()` conversion and its errors are not modelled.
- Paths are separated by `/`, which stands for `os.sep`.
- Text: `str.lower`, `str.upper`, `str.strip` and `int()` are modelled on ASCII. `int()` reads an optional sign and decimal digits, with single underscores allowed between digits, as Python's does without a base. Unicode case mappings, Unicode whitespace and Unicode digits are not modelled.
- Findings.Description: message wording and its `str.format` substitution are abstract. A description is a message key with the values substituted in order.
- Logging calls (`log.debug`, `log.exception`) have no effect on the model and are left out.
- `Issue.__repr__` and the `Issue` equality Python derives from object identity are not modelled. `__hash__` is modelled only as its key, `Findings.KeyOf` (name, file and line). Since `Issue` defines no `__eq__`, the hash decides no result of the core, so no property is stated about it.
- PluginHelpers.ValidMethodInvocation: a node that is not a call never matches. In the source, `getattr` lets a node that has a `member` but is not a call (a javalang `MemberReference`, here an `Other` node, which carries no member name) match when `num_arguments` is 0, because its missing `arguments` default to `[]`. The only caller in this model passes 1 (`qark/plugins/webview/helpers.py:22`), and there the two agree.
- SendBroadcast.Prepare: the model's imports are javalang's `Import.path` strings, which leave out a wildcard's `.*` (wildcard-ness is a separate flag, not modelled). Each path is compared literally against `LOCAL_BROADCAST_IMPORTS`, as the code does, so the four entries ending in `.*` (`qark/plugins/broadcast/send_broadcast_receiver_permission.py:29-32`) never match; only `android.support.v4.content.LocalBroadcastManager` can.
- ScannerPlugin.ParseLoaded: the Java parser parameter returns `None` only for the failures the source catches (`JavaSyntaxError` and `IndexError`, `qark/scanner/plugin.py:131`). javalang's tokenizer raises `LexerError` (for example on an unterminated string literal), which is not caught there, escapes `JavaASTPlugin.update` and, with no `try` around the notify in `qark/scanner/scanner.py:57`, ends the scan. The model does not capture that abort: `UnparsableIsFixed`, `ScanAll` and `ChecksIssues` describe runs in which every file either parses or fails in a caught way.
- ExportedTags.FilesScan, ExportedTags.Extract: the same `LexerError` from `javalang.parse.parse` (`qark/plugins/manifest/exported_tags.py:303`) is not caught by the handler for `JavaSyntaxError` and `IndexError` (`qark/plugins/manifest/exported_tags.py:304`) but by the outer `except Exception` (`qark/plugins/manifest/exported_tags.py:329`), which ends that issue's file search with the entry points and parameters collected so far. The model's parser can only return `None`, which skips the file and goes on, so after such a file it may collect parameters the source does not.
