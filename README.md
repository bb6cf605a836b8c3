# 7-Zip Explorer menu: command model

A Dafny model of the command core of the 7-Zip Windows Explorer
context-menu extension (`7Zip.ShellExtension.cpp`). The extension shows a
"7-Zip" flyout with twelve entries (open, extract three ways, test, add
three ways, compress-and-email three ways, and a "CRC SHA" submenu with
four hash leaves). For a selection of files and folders it decides which
entries are shown, what their titles say, and which 7-Zip tool each entry
launches with which command line.

The model is organised as the source is:

- `sequences.dfy` (`Sequences`): generic facts about sequences (a scan
  that stops at the first failing element, regrouping, where pieces of a
  concatenation sit) that the menu proofs use.
- `paths.dfy` (`Paths`): the Windows path decomposition the extension uses
  through `std::filesystem` — file name, parent directory, stem, extension.
- `naming.dfy` (`Naming`): archive-extension recognition, the display name
  of one item, and the default archive name for a selection.
- `catalog.dfy` (`Catalog`): the command identities, the menu tree, and the
  per-command visibility, title, flags and sub-command rules.
- `selection.dfy` (`Selection`): collecting the selection into a path list.
- `planner.dfy` (`Planner`): tool lookup, quoting of paths, and the launches
  each command issues; `Shell` is the log of launched processes and
  `Invoke` appends to it.
- `enumeration.dfy` (`Enumeration`): the sub-command enumerator, a cursor
  class with `Next`, `Skip`, `Reset` and `Clone`.

Environment queries are parameters: `isDir` answers whether a path is a
directory, `ToolEnv` gives the extension module's directory and the
file-existence query. A selection is given as the path the shell resolves
for each item, `""` for an item without a file-system path.

The code keeps duplicate paths in a selection and has no "disabled" state:
an entry is either shown enabled or hidden. The model follows the code on
both points (`Selection.ResolvedMultiplicity`, `Catalog.State`).

## Model

| member | source | states |
|---|---|---|
| Paths.LastSeparator | 7Zip.ShellExtension.cpp:109-110 | the index of the last path separator, or -1; no separator follows it |
| Paths.LastDot | 7Zip.ShellExtension.cpp:110 | the index of the last dot, or -1; no dot follows it |
| Paths.ExtensionStart | 7Zip.ShellExtension.cpp:110 | the extension starts at a dot that is not the first character and has no dot after it, or the file name has no extension |
| Paths.Filename | 7Zip.ShellExtension.cpp:109-110 | the file name is a separator-free suffix of the path, preceded by a separator unless it is the whole path |
| Paths.ParentPath | 7Zip.ShellExtension.cpp:117-120 | the parent is a prefix of the path and the path is the parent, at most one separator, then the file name |
| Paths.Stem | 7Zip.ShellExtension.cpp:110 | the stem is a prefix of the file name |
| Paths.FileExtension | 7Zip.ShellExtension.cpp:259 | the extension of a file name is empty or starts with its only dot, and completes the stem to the file name |
| Paths.Extension | 7Zip.ShellExtension.cpp:259 | the extension is empty or starts with its only dot, and stem followed by extension is the file name |
| Naming.FoldCase | 7Zip.ShellExtension.cpp:105 | case folding keeps the length and folds each character on its own |
| Naming.MatchesAny | 7Zip.ShellExtension.cpp:105-106 | the scan succeeds exactly when some table entry equals the extension ignoring case |
| Naming.MatchesLowerCaseTable | 7Zip.ShellExtension.cpp:105-106 | against a lower-case table the scan is membership of the folded extension |
| Naming.ArchiveTableLowerCase | 7Zip.ShellExtension.cpp:102-104 | every entry of the extension table is written in lower case |
| Naming.IsArchiveExt | 7Zip.ShellExtension.cpp:101-107 | an extension is an archive extension exactly when its lower-case form is one of the twelve listed |
| Naming.LowerCaseFolds | 7Zip.ShellExtension.cpp:103 | folding leaves an all-lower-case table entry unchanged |
| Naming.FoldCaseIdempotent | 7Zip.ShellExtension.cpp:105 | folding twice is folding once |
| Naming.ArchiveExtIgnoresCase | 7Zip.ShellExtension.cpp:105 | extensions equal up to case are classified alike |
| Naming.ArchiveExtShape | 7Zip.ShellExtension.cpp:102-104 | every recognised extension is a dot and two to four non-dot characters |
| Naming.BaseName | 7Zip.ShellExtension.cpp:108-111 | a directory shows its whole file name, anything else its file name minus the extension; never a separator |
| Naming.ParentName | 7Zip.ShellExtension.cpp:122-123 | the parent's name is a single component, shorter than any non-empty path |
| Naming.AllSameParent | 7Zip.ShellExtension.cpp:117-121 | the early-exit scan is true exactly when every path has the first path's parent |
| Naming.AllSameParentPairwise | 7Zip.ShellExtension.cpp:117-121 | comparing every parent to the first one's means all parents are pairwise equal |
| Naming.DefaultArchiveName | 7Zip.ShellExtension.cpp:112-127 | the name ends with the extension; "Archive" for nothing, the item's name for one item, the common named parent for several, "Archive" otherwise; no separator when the extension has none |
| Naming.DefaultArchiveNameIgnoresOrder | 7Zip.ShellExtension.cpp:112-127 | selections with the same paths in any order get the same name |
| Naming.FilenameChars | 7Zip.ShellExtension.cpp:110 | the file name uses only characters of the path |
| Naming.ParentNameChars | 7Zip.ShellExtension.cpp:122-123 | the parent's name uses only characters of the path |
| Naming.DefaultArchiveNameChars | 7Zip.ShellExtension.cpp:112-127 | a character absent from the paths, the extension and "Archive" is absent from the name |
| Paths.ParentOfChild | 7Zip.ShellExtension.cpp:117 | the parent of a named directory's child is that directory |
| Paths.LastSeparatorAt | 7Zip.ShellExtension.cpp:109 | a separator with none after it is the last separator |
| Paths.LastDotAt | 7Zip.ShellExtension.cpp:110 | a non-leading dot with none after it starts the extension |
| Paths.ParentPathAt | 7Zip.ShellExtension.cpp:117 | a path whose last separator follows a named directory has everything before it as parent |
| Naming.SharedParentName | 7Zip.ShellExtension.cpp:116-123 | several paths all in one directory with a name are named after that directory |
| Naming.MixedParentsFallBack | 7Zip.ShellExtension.cpp:116-126 | several paths, one of them in another directory than the first, get "Archive" |
| Naming.NamelessParentFallBack | 7Zip.ShellExtension.cpp:122-126 | several paths whose first parent has no name get "Archive" |
| Naming.SingleFileExample | 7Zip.ShellExtension.cpp:114 | one file `C:\a\report.txt` proposes `report.7z` |
| Naming.SameFolderExample | 7Zip.ShellExtension.cpp:116-123 | any two items directly in `C:\a` propose `a.7z` |
| Naming.DifferentFoldersExample | 7Zip.ShellExtension.cpp:125-126 | an item in `C:\a` and one in `C:\b` propose `Archive.7z` |
| Naming.DriveRootExample | 7Zip.ShellExtension.cpp:122-126 | any two items directly under `C:\` propose `Archive.zip`, since the root has no name |
| Catalog.RootChildren | 7Zip.ShellExtension.cpp:407-421 | the flyout holds twelve entries, each command identity at its on-screen position |
| Catalog.HashChildren | 7Zip.ShellExtension.cpp:391-396 | the hash submenu's four leaves, each at its catalogue position |
| Catalog.CatalogTree | 7Zip.ShellExtension.cpp:389-421 | every identity except None occurs exactly once in the tree; hash leaves only in the submenu |
| Catalog.AllArchives | 7Zip.ShellExtension.cpp:257-261 | the early-exit scan is true exactly when every path's extension is a recognised archive extension |
| Catalog.GetState | 7Zip.ShellExtension.cpp:251-278 | empty selection hides an entry; Open shown iff one archive; test/extract shown iff all archives; the rest iff something is selected |
| Catalog.StateIgnoresOrder | 7Zip.ShellExtension.cpp:257-261 | visibility does not depend on the order of the selection |
| Catalog.GetTitle | 7Zip.ShellExtension.cpp:201-233 | root "7-Zip"; named add/email titles quote the default archive name; extract-to names the first item's folder or shows the placeholder; the rest keep their static title |
| Catalog.ArchiveExtFor | 7Zip.ShellExtension.cpp:210 | ".zip" exactly for the Zip variants, ".7z" exactly for the others |
| Catalog.ArchiveExtForIsArchive | 7Zip.ShellExtension.cpp:102-104 | the proposed archive extension is one the menu itself recognises as an archive |
| Catalog.NamedAddExtension | 7Zip.ShellExtension.cpp:210-211 | the proposed archive ends in .zip exactly for the Zip variants and in .7z exactly for the others |
| Catalog.NamedAddTitleIgnoresOrder | 7Zip.ShellExtension.cpp:207-219 | archive-naming titles do not depend on the order of the selection |
| Catalog.ExtractToTitleFollowsFirst | 7Zip.ShellExtension.cpp:222-227 | the extract-to title names the first item only: swapping two differently named items changes it |
| Catalog.ExtractToTitleExample | 7Zip.ShellExtension.cpp:222-228 | folder `C:\data\Photos` gives `Extract to "Photos\"`; no selection gives the placeholder |
| Catalog.GetFlags | 7Zip.ShellExtension.cpp:381-384 | a node reports sub-commands exactly when it enumerates some |
| Catalog.SubCommands | 7Zip.ShellExtension.cpp:385-400 | the root lists its twelve entries, the hash submenu its four leaves, every other entry has none |
| Selection.Resolved | 7Zip.ShellExtension.cpp:238-249 | the collected list is no longer than the selection and holds no empty path |
| Selection.CollectPaths | 7Zip.ShellExtension.cpp:238-249 | the loop collects exactly the specification list |
| Selection.ResolvedAppend | 7Zip.ShellExtension.cpp:241-247 | collecting keeps selection order: it distributes over concatenation |
| Selection.ResolvedMultiplicity | 7Zip.ShellExtension.cpp:246 | only empty paths are dropped; every other path keeps its multiplicity |
| Selection.ResolvedKeepsResolvable | 7Zip.ShellExtension.cpp:246 | a selection with no empty path is collected unchanged |
| Planner.CombineShape | 7Zip.ShellExtension.cpp:67-72 | the combined path is the directory, a backslash unless the directory is empty or ends in one, then the name |
| Planner.CombineFilename | 7Zip.ShellExtension.cpp:67-72 | a separator-free name appended to any directory is the file name of the result |
| Planner.Find7zTool | 7Zip.ShellExtension.cpp:86-91 | the copy next to the module when it exists, else the bare name |
| Planner.Find7zToolNamesTool | 7Zip.ShellExtension.cpp:86-91 | either way, the file name of the path found is the requested executable |
| Planner.LaunchedToolIsNamed | 7Zip.ShellExtension.cpp:86-91 | the path each command launches names the executable chosen for that command |
| Planner.ToolForChoice | 7Zip.ShellExtension.cpp:285-373 | Open uses the file manager, exactly the hash leaves use the console archiver, everything else the GUI archiver |
| Planner.QuoteJoinShape | 7Zip.ShellExtension.cpp:289-291 | the join is empty exactly for no paths, otherwise opens with a quote and ends with a space, at least three characters per path |
| Planner.FirstQuote | 7Zip.ShellExtension.cpp:289-291 | the first double quote of a string, or its length |
| Planner.FirstQuoteAfter | 7Zip.ShellExtension.cpp:290 | in a quoted path followed by more text, the closing quote is the first quote |
| Planner.QuoteJoinHead | 7Zip.ShellExtension.cpp:290 | the join starts with the first path in quotes, then a space, then the join of the rest |
| Planner.ParseQuotedCons | 7Zip.ShellExtension.cpp:290 | a quoted token and a space in front of a readable rest read back as the token then the rest |
| Planner.QuoteJoinNamed | 7Zip.ShellExtension.cpp:336 | the quoted archive name in front of the joined paths is the join of the name and the paths |
| Planner.FixedNamesQuoteFree | 7Zip.ShellExtension.cpp:113-126 | the fixed parts of a proposed name (".7z", ".zip", "Archive") contain no quote |
| Planner.QuoteJoinRoundTrip | 7Zip.ShellExtension.cpp:289-291 | joined quote-free paths read back as the same list |
| Planner.ExtractIntoArgsShape | 7Zip.ShellExtension.cpp:314-315 | extract with yes-to-all into the folder named by the item's display name, a single component, with the quoted archive path last |
| Planner.ExtractEach | 7Zip.ShellExtension.cpp:313-317 | one extraction per path, each with the given tool |
| Planner.ExtractEachAt | 7Zip.ShellExtension.cpp:313-317 | the i-th extraction extracts the i-th path into a folder named after that item |
| Planner.ExtractEachFrom | 7Zip.ShellExtension.cpp:313-317 | the extractions from a position on are the one for that path, then the rest |
| Planner.InPlaceIsNotFoldered | 7Zip.ShellExtension.cpp:310-315 | the in-place and the foldered extraction command lines differ |
| Planner.Plan | 7Zip.ShellExtension.cpp:280-379 | no launch for the root or an empty selection; at most one launch per path; nothing only for the hash submenu; every launch uses the command's tool |
| Planner.PlanOpen | 7Zip.ShellExtension.cpp:294-296 | Open starts the file manager on the first path only |
| Planner.PlanWholeSelection | 7Zip.ShellExtension.cpp:298-305 | test, extract-files, plain add/email and hash leaves launch once with their switches and every path |
| Planner.PlanNamedAdd | 7Zip.ShellExtension.cpp:334-360 | named add/email launch the GUI archiver once with the default name, then every path |
| Planner.PlanExtract | 7Zip.ShellExtension.cpp:307-328 | extract-here extracts one archive in place, several into one folder each; extract-to always one folder each |
| Planner.SmartExtractHere | 7Zip.ShellExtension.cpp:307-328 | extract-here launches what extract-to launches exactly when the selection is not one item |
| Planner.NamedAddMatchesTitle | 7Zip.ShellExtension.cpp:207-219 | the archive the command creates is the name its title quotes, and the rest of the command line reads back as the selection |
| Planner.EmailLaunchesLikeAdd | 7Zip.ShellExtension.cpp:346-360 | each email entry launches exactly what its add counterpart launches |
| Planner.EnabledLeafLaunches | 7Zip.ShellExtension.cpp:251-379 | a leaf is shown exactly when choosing it launches something and its archive condition holds |
| Planner.Shell.Run | 7Zip.ShellExtension.cpp:77-85 | a launch is appended to the log |
| Planner.RunExtractEach | 7Zip.ShellExtension.cpp:313-327 | the loop appends exactly the per-path extractions, in order |
| Planner.Invoke | 7Zip.ShellExtension.cpp:280-379 | the log grows by exactly the planned launches for the collected selection |
| Enumeration.Advance | 7Zip.ShellExtension.cpp:171 | the cursor moves by the count but stops at the end |
| Enumeration.Fetch | 7Zip.ShellExtension.cpp:163-170 | up to count entries from the cursor, in order; fewer only at the end |
| Enumeration.FetchConcat | 7Zip.ShellExtension.cpp:163-170 | two fetches hand out what one fetch of the combined count does |
| Enumeration.SkipThenFetch | 7Zip.ShellExtension.cpp:163-171 | skip then fetch equals a longer fetch minus the skipped prefix |
| Enumeration.CommandEnum.constructor | 7Zip.ShellExtension.cpp:144-146 | a new cursor over the given entries at the start |
| Enumeration.CommandEnum.Next | 7Zip.ShellExtension.cpp:163-170 | hands out the fetched entries, advances past them, S_OK exactly when all requested were there |
| Enumeration.CommandEnum.Skip | 7Zip.ShellExtension.cpp:171 | advances the cursor, stopping at the end |
| Enumeration.CommandEnum.Reset | 7Zip.ShellExtension.cpp:172 | back to the first entry |
| Enumeration.CommandEnum.Clone | 7Zip.ShellExtension.cpp:173-179 | a fresh cursor over the same entries at the same position |
| Enumeration.EnumSubCommands | 7Zip.ShellExtension.cpp:385-400 | a fresh cursor at the start over the node's children, or E_NOTIMPL with none |

## Left out

- Reference counting, QueryInterface, the class factory, DLL registration and object counts: COM lifetime, not menu behaviour.
- GetIcon, GetToolTip and GetCanonicalName: fixed answers that do not depend on the selection.
- The root's own Next, Skip, Reset and Clone (always E_NOTIMPL) and its no-op Invoke; the model's root has no launches.
- E_POINTER checks on null out-parameters: callers in the model always supply them.
- Whether ShellExecuteExW succeeds, and its flags and working directory: the launch log records what is requested.
- GetModuleFileNameW, PathRemoveFileSpecW and the file-attribute queries: the module directory and the file-existence and directory queries are parameters.
- Planner.Combine: appends with one backslash; the MAX_PATH limit and the normalisation of PathAppendW are not modelled.
- A missing item array, a failed GetCount or a failed GetItemAt: modelled as an empty selection or an item resolving to "".
- Naming.FoldCase: folds ASCII letters only; the locale-aware folding of _wcsicmp beyond ASCII is not modelled.
- Paths.Filename: covers absolute paths with a drive and backslash separators, as the shell resolves them; a drive-relative path such as `C:x.txt` or a bare drive `C:` keeps its root name in the model's file name, unlike std::filesystem.
- Paths.ParentPath: covers the same absolute, backslash-separated paths; drive-relative paths, bare drives, UNC prefixes and repeated separators are not modelled.
- Naming.AllSameParent: compares parents as strings, while path::operator!= compares them element by element, so `C:/a` and `C:\a` count as one parent in the source but as two in the model; mixed separators are not modelled.
- Enumeration.CommandEnum.Next: the count is unbounded rather than a 32-bit ULONG, and the AddRef on each handed-out entry is not modelled.
- Enumeration.CommandEnum.Skip: idx + celt is not subject to size_t overflow in the model.
