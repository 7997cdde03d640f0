# OneMCP reconciliation engine in Dafny

OneMCP is a desktop application that keeps one list of MCP server definitions in step with the JSON configuration files of several AI tools (Claude Desktop, Cursor, VS Code and others). This project models its engine and proves properties of the model:

- **Config codec** (`ConfigManager`):
  - encodes a tool's enabled servers into its `name -> entry` object, and decodes a document back into server records;
  - rebuilds a dotted key path such as `mcp.servers` without touching other keys;
  - merges an imported list into the canonical one by name;
  - validates a server definition.
- **Path resolver** (`PathResolver`):
  - expands `~` and the Windows `%APPDATA%`, `%LOCALAPPDATA%` and `%USERPROFILE%` placeholders;
  - normalises separators;
  - provides `dirname`, `basename` and `joinPaths`.
- **Argument tokenizer and form schemas** (`ServerSchema`):
  - the quote-aware `parseArgs` loop and its inverse `stringifyArgs`;
  - the schema rules as predicates and parsers.
- **Reconciliation** (`Servers`):
  - loading every installed tool's servers, the first name seen winning;
  - the per-tool rewrite (backup, read, encode, rebuild, write) behind save, remove, edit, delete and sync.
- **Main-process file operations** (`ConfigIpc`): reading and writing config files, backups with their names and retention of the ten newest, listing and restore, all over an abstract directory map.
- **Application store** (`Store`): the reducers for servers, tools, preferences and the log capped at a hundred entries.
- **Tool list assembly** (`ToolRegistry`, `ToolLoading`): the built-in tools, then the custom tools, then overrides, then the hidden filter, then the installed flag.
- **Import/export** (`ConfigExchange`): the interchange document `{version, exportedAt, servers}`, import defaults, and the backup panel's timestamps.
- **Forms** (`ServerForm`, `CustomToolForm`): the record the server form submits, its tool toggle, and the custom tool descriptor with its sanitised id.

Shared modules give the vocabulary:

- `Records`: a JavaScript object as an ordered sequence of key/value pairs, where assignment replaces in place or appends;
- `Json`: a JSON value following section 3 of RFC 8259;
- `Strings`: ECMAScript `trim`, `split`, code-unit order, sorting and decimal numerals;
- `Lists`: filters, deduplication and slicing lemmas;
- `Types`: the server, tool, preference and backup records.

Documents are JSON values, never text. The file system is a map from directory to its ordered entries. Each entry holds a document, an empty text, or a text that does not parse. Clocks, generated ids, the platform, the home directory and the existence probe are parameters.

State that the source updates in place is modelled as classes:

- `AppStore` (the zustand store);
- `FileStore` (the main process's file system);
- `Resolver` (the path resolver's cached platform);
- `ServerManager` (the `useServers` hook);
- `BackupPanel` and `ServerFormState` (component state).

Loops in the source are `while` loops proved against a specification function. Examples: the encoder's loop, the decoder's loop, `parseArgs`, `buildFullConfig`'s walk down the key path, the backup cleanup, and the loops of `useServers`.

## Model

| member | source | states |
|---|---|---|
| PathResolver.NormalizePath | src/lib/pathResolver.ts:58-60 | every backslash becomes `/`, every other character and the length are kept, and no backslash remains |
| PathResolver.NormalizePathIdempotent | src/lib/pathResolver.ts:58-60 | normalising twice is normalising once |
| PathResolver.NormalizePathNoBackslash | src/lib/pathResolver.ts:58-60 | a path without a backslash is already normal |
| PathResolver.NormalizePathConcat | src/lib/pathResolver.ts:58-60 | normalisation works character by character, so it distributes over concatenation |
| PathResolver.ReplaceAllCIMatch | src/lib/pathResolver.ts:29-36 | the case-insensitive global replacement replaces a match at the front and resumes right after it |
| PathResolver.ReplaceAllCISkip | src/lib/pathResolver.ts:29-36 | text without the pattern's first character (a `%`) is passed through and hides no match |
| PathResolver.ReplaceAllCINone | src/lib/pathResolver.ts:29-36 | a string without `%` is left unchanged by each placeholder replacement |
| PathResolver.ResolveElsewhere | src/lib/pathResolver.ts:17-43 | off Windows only the leading `~` and the separators change |
| PathResolver.ResolveTilde | src/lib/pathResolver.ts:23 | `~` is expanded to the home directory only in first position |
| PathResolver.ResolvePlain | src/lib/pathResolver.ts:17-43 | a template with no `%`, no backslash and no leading `~` resolves to itself on every platform |
| PathResolver.ReplacePass | src/lib/pathResolver.ts:29-36 | one `replace(/%NAME%/gi, …)` over a template of text and placeholders replaces exactly the occurrences of that placeholder, in any letter case, wherever and however often they occur, and keeps everything else |
| PathResolver.ExpandTemplate | src/lib/pathResolver.ts:26-37 | the three passes in source order replace every `%APPDATA%`, `%LOCALAPPDATA%` and `%USERPROFILE%` by `<home>/AppData/Roaming`, `<home>/AppData/Local` and `<home>` |
| PathResolver.ResolveTemplate | src/lib/pathResolver.ts:17-43 | on Windows such a template resolves to its expansion with backslashes made forward slashes |
| PathResolver.ResolveTemplateTilde | src/lib/pathResolver.ts:17-43 | the same for a template with a leading `~`, which first becomes the home directory |
| PathResolver.ResolveOne | src/lib/pathResolver.ts:17-43 | any one of the three placeholders, in any letter case, between two stretches of text without `%`, becomes its directory |
| PathResolver.Dirname | src/lib/pathResolver.ts:73-80 | `.` when the normalised path has no `/`; never a backslash |
| PathResolver.Basename | src/lib/pathResolver.ts:82-86 | no separator in the result; the whole normalised path when it has no `/` |
| PathResolver.DirnameBasename | src/lib/pathResolver.ts:73-86 | a path with a `/` is its directory, a `/` and its base name |
| PathResolver.DirnameBasenameOfJoin | src/lib/pathResolver.ts:73-86 | `dir + "/" + name` splits back into `dir` and `name` |
| PathResolver.StripTrailingSlashes | src/lib/pathResolver.ts:66-68 | the result is a prefix not ending in `/`, and only `/` characters were removed |
| PathResolver.StripLeadingSlashes | src/lib/pathResolver.ts:68 | the result is a suffix not starting with `/`, and only `/` characters were removed |
| PathResolver.JoinPathsTwo | src/lib/pathResolver.ts:62-71 | two parts are joined by exactly one `/` whatever slashes they carried at the seam |
| PathResolver.JoinPathsSplit | src/lib/pathResolver.ts:62-86 | joining a directory and a plain file name, then splitting, gives back the directory without trailing slashes and the name |
| PathResolver.Resolver.constructor | src/lib/pathResolver.ts:3-4 | nothing is cached at first |
| PathResolver.Resolver.Init | src/lib/pathResolver.ts:6-11 | with the bridge, caches the platform and the home directory the main process reports; without `window.electron`, leaves the cache as it was |
| PathResolver.Resolver.GetPlatform | src/lib/pathResolver.ts:13-15 | the cached platform, `win32` when none is cached |
| PathResolver.Resolver.ResolvePath | src/lib/pathResolver.ts:17-43 | the chain of replacements equals `Resolve` on the cached platform and home, and leaves no backslash |
| PathResolver.Resolver.GetConfigPathForPlatform | src/lib/pathResolver.ts:45-56 | null exactly when the platform's template is absent or empty, else the resolved template |
| PathResolver.ConfigPathFor | src/lib/pathResolver.ts:45-56 | the same answer as a function of the cached state |
| ServerSchema.ParseArgs | src/lib/serverSchema.ts:81-115 | the result is `Args`, the loop's outcome flushed as `parseArgs` does |
| ServerSchema.Tokenize | src/lib/serverSchema.ts:86-108 | the character loop ends in the state the step function `Run` gives for the whole line |
| ServerSchema.RunConcat | src/lib/serverSchema.ts:91-108 | running the loop over `a + b` is running it over `a`, then over `b` |
| ServerSchema.ArgsBlank | src/lib/serverSchema.ts:82-84 | a blank argument line has no arguments |
| ServerSchema.ArgsAreTokens | src/lib/serverSchema.ts:101-112 | every argument is non-empty and has no white space at either end |
| ServerSchema.RunPlain | src/lib/serverSchema.ts:105-107 | outside quotes, characters other than quotes and spaces are appended to the current token |
| ServerSchema.RunQuoted | src/lib/serverSchema.ts:97-107 | inside quotes every character except the opening quote, spaces and the other quote included, is appended |
| ServerSchema.QuotedStretch | src/lib/serverSchema.ts:94-99 | a quoted stretch adds its inside to the current token and drops both quotes |
| ServerSchema.UnclosedQuote | src/lib/serverSchema.ts:94-112 | an unclosed quote runs to the end of the line, whose trimmed rest is the only argument |
| ServerSchema.SpaceSplits | src/lib/serverSchema.ts:100-104 | a space outside quotes pushes the trimmed token when it is not blank and starts a new one |
| ServerSchema.EscapeQuotes | src/lib/serverSchema.ts:122 | a string without `"` is unchanged; the result is no shorter, and empty only for the empty string |
| ServerSchema.EscapeQuotesOne | src/lib/serverSchema.ts:122 | a `"` becomes `\"` and every other character is copied |
| ServerSchema.EscapeQuotesConcat | src/lib/serverSchema.ts:122 | the global replacement works character by character: escaping distributes over concatenation |
| ServerSchema.UnescapeEscape | src/lib/serverSchema.ts:122 | reading each `\"` back as `"` gives the argument again, so escaping loses nothing |
| ServerSchema.QuoteArg | src/lib/serverSchema.ts:119-126 | an argument holding a space or a quote is wrapped in `"` with its `"` escaped; any other is written as is |
| ServerSchema.QuoteArgs | src/lib/serverSchema.ts:118-126 | each argument is written by `QuoteArg`, in order |
| ServerSchema.RunQuoteArg | src/lib/serverSchema.ts:81-126 | a written argument, read back, becomes exactly the current token |
| ServerSchema.StringifiedNotBlank | src/lib/serverSchema.ts:82-128 | a written non-empty argument list is not blank |
| ServerSchema.ArgsStringifyArgs | src/lib/serverSchema.ts:81-128 | `parseArgs(stringifyArgs(args))` gives back `args` for arguments without `"`, non-empty and without white space at their ends |
| ServerSchema.ParseServerForm | src/lib/serverSchema.ts:3-44 | succeeds exactly when the name, command, environment-key, URL and HTTP rules hold; copies the values and fills the defaults |
| ServerSchema.SlashNameRejected | src/lib/serverSchema.ts:13 | a name with a `/` is refused |
| ServerSchema.StdioNeedsNoUrl | src/lib/serverSchema.ts:28-44 | with no transport given the server is stdio and needs no URL |
| ServerSchema.AcceptedNameLength | src/lib/serverSchema.ts:11-12 | an accepted name is 1 to 100 characters long |
| ServerSchema.ParseConfigFormat | src/lib/serverSchema.ts:73 | the three format names, and nothing else, are accepted, each as the format of that name |
| ServerSchema.ParseConfigFormatName | src/lib/serverSchema.ts:73 | each format's name is accepted as that format |
| ServerSchema.ParseCustomTool | src/lib/serverSchema.ts:69-75 | succeeds exactly when id, name and path are non-empty and the format is one of the three; copies the values |
| ConfigManager.ServersToToolConfig | src/lib/configManager.ts:7-57 | the loop's object is `EncodeAll`, one `result[name] = entry` per included server |
| ConfigManager.IncludedNames | src/lib/configManager.ts:13-17 | a name is listed exactly when some server with it has no `enabledTools` or lists the tool |
| ConfigManager.AssignAllKeys | src/lib/configManager.ts:13-54 | for any entry builder the keys are the included names, each once, in order of first appearance |
| ConfigManager.EncodeAllKeys | src/lib/configManager.ts:13-54 | the encoded object has a key exactly for each included server's name, once, in first-appearance order |
| ConfigManager.AssignAllUnique | src/lib/configManager.ts:53 | for any entry builder no key appears twice |
| ConfigManager.EncodeAllUnique | src/lib/configManager.ts:53 | the encoded object has no repeated key |
| ConfigManager.AssignAllLastWins | src/lib/configManager.ts:53 | for any entry builder the last included server with a name supplies its value |
| ConfigManager.EncodeAllLastWins | src/lib/configManager.ts:53 | for a repeated name the last included server supplies the entry |
| ConfigManager.EncodeAllAbsent | src/lib/configManager.ts:13-53 | a name no included server has is not a key |
| ConfigManager.AssignAllDistinct | src/lib/configManager.ts:13-54 | included servers with distinct names give one member each, in order |
| ConfigManager.EncodeAllDistinct | src/lib/configManager.ts:13-54 | servers with distinct names, all enabled for the tool, are written one entry each, in order |
| ConfigManager.EncodeEntryFields | src/lib/configManager.ts:19-37 | `command` is written exactly when the server has one (`JSON.stringify` drops an undefined member); `args` only when non-empty, `env` only with a key, `cwd` only when non-empty, `url` only for HTTP with a non-empty URL |
| ConfigManager.EncodeEntryRooFields | src/lib/configManager.ts:40-51 | `alwaysAllow`, `autoApprove` and `disabled` are written only for `roo-cline`, each only when set |
| ConfigManager.EntryKeysDistinct | src/lib/configManager.ts:19-51 | the eight entry keys are distinct |
| ConfigManager.EntryPartShape | src/lib/configManager.ts:19-51 | each of the eight parts of an entry is empty or the single member of its key |
| ConfigManager.EntryGet | src/lib/configManager.ts:19-51 | part `i` is the only part of an entry that can hold key `i` |
| ConfigManager.ServerKey | src/lib/configManager.ts:63-153 | the tool's server key, or `mcpServers` when it has none or an empty one, is never empty |
| ConfigManager.KeyPath | src/lib/configManager.ts:67-157 | the dotted key split into at least one segment; a key without a dot is one segment |
| ConfigManager.SetPath | src/lib/configManager.ts:156-178 | the rebuilt document is an object |
| ConfigManager.NavigateSetPath | src/lib/configManager.ts:148-179 | after the write, walking the key path finds exactly the servers object written |
| ConfigManager.SetPathOtherTop | src/lib/configManager.ts:158-178 | every top-level key other than the first segment keeps its value |
| ConfigManager.SetPathSibling | src/lib/configManager.ts:158-171 | every path that leaves the key path at some level reads the same value before and after |
| ConfigManager.SetPathDescend | src/lib/configManager.ts:161-169 | below the first key the new document reads the rebuilt copy of the child |
| ConfigManager.NavigateVia | src/lib/configManager.ts:70-77 | reading below the first key reads below the value found there |
| ConfigManager.SetPathEmpty | src/lib/configManager.ts:161-171 | writing into an empty document creates one fresh object per intermediate key |
| ConfigManager.SetPathMembersOnly | src/lib/configManager.ts:158-176 | the write sees a document only through the members a spread copies |
| ConfigManager.SetPathTwice | src/lib/configManager.ts:148-179 | writing the same path twice is writing it once with the second value |
| ConfigManager.Levels | src/lib/configManager.ts:161-169 | the copies of the first `i` levels, one per level |
| ConfigManager.LevelsAt | src/lib/configManager.ts:161-169 | level `j` of the walk is the copy the cursor finds at depth `j` |
| ConfigManager.LevelsAll | src/lib/configManager.ts:161-169 | every level of the walk is the copy found at its depth |
| ConfigManager.SetPathLevel | src/lib/configManager.ts:161-171 | level `i` rebuilt is its copy with key `i` set to the rebuilt level below |
| ConfigManager.BuildFullConfig | src/lib/configManager.ts:148-179 | the result is the existing document with the servers object at the tool's key path |
| ConfigManager.WalkDown | src/lib/configManager.ts:161-169 | the cursor loop copies every level above the last key |
| ConfigManager.Rebuild | src/lib/configManager.ts:159-172 | putting the copied levels back together sets the last key and keeps everything else |
| ConfigManager.DecodeEntry | src/lib/configManager.ts:89-111 | the record is named by its key, takes the given id, lists only this tool, is HTTP exactly when it has a non-empty URL, has tool settings exactly for `roo-cline`, and has no timestamps; a missing `command` stays undefined |
| ConfigManager.MapMembers | src/lib/configManager.ts:89-114 | fails exactly when some member is `null`; otherwise one value per member, in member order |
| ConfigManager.Decode | src/lib/configManager.ts:59-117 | throws only for a one-segment key on a `null` document; no records when the servers object is missing or not an object; otherwise one record per member |
| ConfigManager.NavigateSnoc | src/lib/configManager.ts:69-77 | walking one more segment looks one level further, once the walk so far succeeded |
| ConfigManager.ToolConfigToServers | src/lib/configManager.ts:59-117 | the walk and the push loop compute `Decode` |
| ConfigManager.WalkKeys | src/lib/configManager.ts:69-78 | the loop over the key segments stops at the first missing or non-object level |
| ConfigManager.PushEntries | src/lib/configManager.ts:87-116 | the loop over the entries pushes one record per entry, in order |
| ConfigManager.NavigateNoneStays | src/lib/configManager.ts:73-76 | a walk that failed on a prefix fails for the whole path |
| ConfigManager.DecodeSetPath | src/lib/configManager.ts:59-179 | reading back the written document reads exactly the object written there |
| ConfigManager.DecodeBuild | src/lib/configManager.ts:59-179 | the written object decodes to one record per member, in order, named by its key, with the command (present or absent) and the args of its entry |
| ConfigManager.DecodeEncodeEntry | src/lib/configManager.ts:19-100 | a written entry reads back with the same name, command (present or absent) and args, the env and cwd only when written, the URL and HTTP transport only for an HTTP server with a URL |
| ConfigManager.EncodeDecodeCommand | src/lib/configManager.ts:19-93 | an entry read from a tool file and written back has a `command` exactly when the entry had a string one, and the same one |
| ConfigManager.DecodeEncodeEntryRoo | src/lib/configManager.ts:40-111 | the Roo Cline flags survive the round trip for `roo-cline` and only there |
| ConfigManager.DecodeEncodeAll | src/lib/configManager.ts:7-179 | distinct-named servers all enabled for the tool, written and read back, give one record each, in order |
| ConfigManager.FindByName | src/lib/configManager.ts:123 | the index of the first server with the name, or -1 when there is none |
| ConfigManager.MergeTools | src/lib/configManager.ts:127-135 | the merged record differs only in `enabledTools`, which is the union of both lists |
| ConfigManager.MergeOne | src/lib/configManager.ts:122-138 | a clash keeps the length; a new name adds one server |
| ConfigManager.MergeAll | src/lib/configManager.ts:119-142 | the result has at least the existing servers and at most one more per imported server |
| ConfigManager.MergeServers | src/lib/configManager.ts:119-142 | the loop computes `MergeAll` |
| ConfigManager.MergeOneNames | src/lib/configManager.ts:122-138 | a merge step keeps the names in place and appends the imported name only when it is new |
| ConfigManager.MergeAllKeeps | src/lib/configManager.ts:120-135 | existing servers keep their position and every field but `enabledTools` |
| ConfigManager.MergeAllNames | src/lib/configManager.ts:119-142 | the merged names are exactly the existing and the imported names |
| ConfigManager.MergeAllUnique | src/lib/configManager.ts:122-138 | a list with unique names keeps unique names |
| ConfigManager.MergeAllFresh | src/lib/configManager.ts:136-138 | imported servers with new, distinct names are appended in order, unchanged |
| ConfigManager.MergeAllFind | src/lib/configManager.ts:123 | the first existing server of a name is the one every namesake merges into |
| ConfigManager.MergeAllTools | src/lib/configManager.ts:127-135 | a clash makes the tool list the union of the existing one and every namesake's; no namesake leaves the server as it was |
| ConfigManager.MergeAllToolsPrefix | src/lib/configManager.ts:128-134 | a duplicate-free tool list is kept, without duplicates, as the prefix of its merged list |
| ConfigManager.TextInjective | src/lib/configManager.ts:185-198 | the four messages have distinct wording |
| ConfigManager.TrimsToEmpty | src/lib/configManager.ts:184-192 | `s.trim() === ''` exactly when `s` is white space |
| ConfigManager.ReportMessages | src/lib/configManager.ts:182-201 | each message is reported exactly when its rule fails, once, in rule order, and the list is empty exactly when none fails |
| ConfigManager.PushIfRanked | src/lib/configManager.ts:184-199 | pushing a later rule's message keeps rule order and adds exactly that message when it fails |
| ConfigManager.ValidateServerConfig | src/lib/configManager.ts:181-202 | each of the four messages is present exactly when its rule fails, in rule order, and none exactly when the update is valid |
| ConfigManager.SlashNameInvalid | src/lib/configManager.ts:197-199 | a name with a `/` never passes and draws the invalid-characters message |
| ConfigIpc.Timestamp | electron/ipc/config.ts:58 | the ISO time with every `:` and `.` replaced by `-`: same length, no `:` or `.` left, nothing else changed |
| ConfigIpc.BackupName | electron/ipc/config.ts:61 | a backup name starts with `<baseName>.backup` |
| ConfigIpc.WithPrefix | electron/ipc/config.ts:78-117 | the filter keeps exactly the names that start with the prefix |
| ConfigIpc.WithPrefixNoDup | electron/ipc/config.ts:78-79 | filtering keeps distinct names distinct |
| ConfigIpc.Newest | electron/ipc/config.ts:80-120 | `sort().reverse()` is a permutation in non-increasing UTF-16 code-unit order |
| ConfigIpc.NewestMembers | electron/ipc/config.ts:80-120 | sorting keeps exactly the same names |
| ConfigIpc.Excess | electron/ipc/config.ts:84 | `slice(MAX_BACKUPS)` takes only backups of the file |
| ConfigIpc.RemoveAllKeys | electron/ipc/config.ts:85-87 | after the unlink loop the files are the old ones minus the unlinked names |
| ConfigIpc.RemoveAllGet | electron/ipc/config.ts:85-87 | a file not unlinked keeps its content |
| ConfigIpc.RemoveAllUnique | electron/ipc/config.ts:85-87 | unlinking keeps entry names unique |
| ConfigIpc.BackupsNoDup | electron/ipc/config.ts:77-81 | the backups of a directory are distinct |
| ConfigIpc.RetainFiles | electron/ipc/config.ts:75-91 | cleanup unlinks exactly the excess backups; every other file, and every file that is not a backup of this one, keeps its content |
| ConfigIpc.RetainFew | electron/ipc/config.ts:84 | with at most ten backups nothing is unlinked |
| ConfigIpc.Kept | electron/ipc/config.ts:84 | ten backups are kept, or all when there are fewer |
| ConfigIpc.RetainedAreKept | electron/ipc/config.ts:78-87 | the backups left after cleanup are exactly the ten newest |
| ConfigIpc.RetainCount | electron/ipc/config.ts:6-84 | after cleanup ten backups of the file remain, or all of them when there were fewer |
| ConfigIpc.RetainNewest | electron/ipc/config.ts:78-87 | every kept backup sorts after every unlinked one |
| ConfigIpc.GreatestFirst | electron/ipc/config.ts:80-81 | the greatest name comes first after `sort().reverse()` |
| Strings.LexLessUtf16 | electron/ipc/config.ts:80 | the order used for `sort()` is exactly the lexicographic order of the strings' UTF-16 code units, a character above U+FFFF counting as its surrogate pair |
| Strings.SurrogateBeforeHighBmp | electron/ipc/config.ts:80 | a character above U+FFFF sorts before U+FF01 although its code point is greater |
| ConfigIpc.NewestBackupFirst | electron/ipc/config.ts:78-81 | a new backup sorting after all others heads the backup list |
| ConfigIpc.RetainKeepsNewest | electron/ipc/config.ts:63-87 | a new backup sorting after all others survives the cleanup with its content |
| ConfigIpc.Lookup | electron/ipc/config.ts:13-23 | a file exists exactly when its directory exists and holds its base name |
| ConfigIpc.LookupStore | electron/ipc/config.ts:25-38 | a write is read back, and every other file reads as before |
| ConfigIpc.LookupDelete | electron/ipc/config.ts:85-87 | an unlinked file is gone, and every other file reads as before |
| ConfigIpc.StoreWellFormed | electron/ipc/config.ts:25-38 | a write keeps directories with unique, separator-free names |
| ConfigIpc.DeleteWellFormed | electron/ipc/config.ts:85-87 | an unlink keeps directories with unique, separator-free names |
| ConfigIpc.JoinAll | electron/ipc/config.ts:118 | each name joined to the directory, in order |
| ConfigIpc.JoinAllMembers | electron/ipc/config.ts:118 | the joined paths are exactly the directory joined with each name |
| ConfigIpc.BackupPathSplit | electron/ipc/config.ts:59-61 | the backup lies in the file's directory under the backup name |
| ConfigIpc.WithBackupOthers | electron/ipc/config.ts:49-73 | creating a backup touches only that file's backups: every other file reads as before |
| ConfigIpc.WithBackupNewest | electron/ipc/config.ts:49-73 | a backup newer than every existing one holds the file's content, and at most ten backups remain |
| ConfigIpc.ExcessFacts | electron/ipc/config.ts:77-84 | the excess backups are distinct files of the directory |
| ConfigIpc.CleanupStep | electron/ipc/config.ts:85-87 | in each iteration the next name is still there, and unlinking it extends the removal |
| ConfigIpc.FileStore.constructor | electron/ipc/config.ts:1-11 | the store holds the given directories and read-only set |
| ConfigIpc.FileStore.ReadConfig | electron/ipc/config.ts:13-23 | the content of the file, or null when it does not exist |
| ConfigIpc.FileStore.WriteConfig | electron/ipc/config.ts:25-38 | true exactly when the directory is writable; then the file holds the content, its directory created if needed; otherwise nothing changes |
| ConfigIpc.FileStore.CopyFile | electron/ipc/config.ts:63-99 | succeeds exactly when the source exists and the target directory exists and is writable; then the target holds the source's content |
| ConfigIpc.FileStore.Unlink | electron/ipc/config.ts:86 | succeeds exactly when the file exists in a writable directory; then it is deleted |
| ConfigIpc.FileStore.CleanupOldBackups | electron/ipc/config.ts:75-91 | a writable directory ends as `Prune` makes it; errors are ignored |
| ConfigIpc.FileStore.CreateBackup | electron/ipc/config.ts:49-73 | a path exactly when the file exists in a writable directory; then the copy is at the backup path and the old backups are pruned; otherwise nothing changes |
| ConfigIpc.FileStore.RestoreBackup | electron/ipc/config.ts:93-105 | true exactly when the copy can happen; then the target holds the backup's content; otherwise nothing changes |
| ConfigIpc.FileStore.ListBackups | electron/ipc/config.ts:107-124 | the joined paths of the file's backups, newest first; none when the directory is missing |
| Store.AppendLog | src/hooks/useStore.ts:69-72 | the log keeps the newest 99 entries in order, then the new one, so it never exceeds a hundred |
| Store.AppendLogIncrease | src/hooks/useStore.ts:62-71 | an entry with an id above every logged one keeps the ids increasing and is the greatest |
| Store.UpdateById | src/hooks/useStore.ts:82-87 | each server with the id gets the updates merged in and `updatedAt` stamped; every other server is unchanged |
| Store.Ids | src/hooks/useStore.ts:84-85 | the ids of a server list, in order |
| Store.UpdateByIdUnknown | src/hooks/useStore.ts:82-87 | updating an id no server has changes nothing |
| Store.UpdateByIdKeepsIds | src/hooks/useStore.ts:82-87 | an update that leaves the id alone keeps every server's id |
| Store.UpdateByIdTwice | src/hooks/useStore.ts:82-87 | applying the same update again at the same time gives the same list |
| Store.WithoutServer | src/hooks/useStore.ts:88-91 | the servers kept are exactly those with another id |
| Store.WithoutServerExact | src/hooks/useStore.ts:88-91 | every copy of a server with the id goes, every other server keeps its multiplicity, and the filter works piece by piece, keeping order |
| Store.WithoutTool | src/hooks/useStore.ts:104-111 | the tools kept are exactly those with another id |
| Store.WithoutToolExact | src/hooks/useStore.ts:104-111 | every copy of a tool with the id goes, every other tool keeps its multiplicity, and order is kept |
| Store.MergePreferencesLaws | src/hooks/useStore.ts:125-128 | an empty patch changes nothing, a full patch replaces everything, and merging the same patch twice is merging it once |
| Store.MergeKeeps | src/hooks/useStore.ts:125-128 | a field the patch leaves out keeps its value |
| Store.AppStore.constructor | src/hooks/useStore.ts:53-120 | empty logs, servers and tools, no error, the counter at 0 and the default preferences, with backups on, ten kept and no custom tools |
| Store.AppStore.AddLog | src/hooks/useStore.ts:62-72 | the counter goes up by one, the entry takes it, the log is `AppendLog`, nothing else changes |
| Store.AppStore.ClearLogs | src/hooks/useStore.ts:73 | the log is empty and the counter is kept |
| Store.AppStore.SetServers | src/hooks/useStore.ts:77 | the server list is replaced, nothing else changes |
| Store.AppStore.AddServer | src/hooks/useStore.ts:78-81 | exactly one server more, at the end |
| Store.AppStore.UpdateServer | src/hooks/useStore.ts:82-87 | the servers become `UpdateById` of the old list |
| Store.AppStore.RemoveServer | src/hooks/useStore.ts:88-91 | the servers become `WithoutServer` of the old list |
| Store.AppStore.SetTools | src/hooks/useStore.ts:95 | the tool list is replaced, nothing else changes |
| Store.AppStore.AddCustomTool | src/hooks/useStore.ts:96-103 | the tool joins both the tool list and the saved custom tools |
| Store.AppStore.RemoveCustomTool | src/hooks/useStore.ts:104-111 | the id leaves both the tool list and the saved custom tools |
| Store.AppStore.SetPreferences | src/hooks/useStore.ts:125-128 | the preferences become the shallow merge with the patch |
| Store.AppStore.SetError | src/hooks/useStore.ts:121 | the error is replaced, nothing else changes |
| Servers.ToolServersNoFile | src/hooks/useServers.ts:20-33 | a tool whose file is missing, empty or unparsable contributes no servers |
| Servers.InstalledTools | src/hooks/useServers.ts:43 | exactly the installed tools are kept |
| Servers.Absorb | src/hooks/useServers.ts:46-59 | a record with a new name lengthens the list by one; a known name leaves the length alone |
| Servers.Gather | src/hooks/useServers.ts:40-61 | the merged list is never longer than the records read |
| Servers.LoadedNext | src/hooks/useServers.ts:43-44 | reading one more tool appends that tool's records |
| Servers.GatherSnoc | src/hooks/useServers.ts:46-49 | the merged list grows record by record |
| Servers.FindByNameSnoc | src/hooks/useServers.ts:52 | the name lookup in a list with one more record finds the earlier match first, else the new record |
| Servers.FindByNameSameNames | src/hooks/useServers.ts:52 | the name lookup depends on the names only |
| Servers.AbsorbNames | src/hooks/useServers.ts:47-58 | absorbing a record adds its name to the list's names and no other |
| Servers.GatherNames | src/hooks/useServers.ts:40-61 | the loaded list holds each name once, and exactly the names that were read |
| Servers.GatherFirstWins | src/hooks/useServers.ts:47-58 | the first record read under a name supplies every field but the tools |
| Servers.NoNameNoTools | src/hooks/useServers.ts:53-57 | a name never read gathers no tools |
| Servers.GatherTools | src/hooks/useServers.ts:53-57 | a loaded server's tools are those of every record read under its name, in order, repeats kept |
| Servers.AbsorbOne | src/hooks/useServers.ts:47-59 | one iteration of the inner loop is `Absorb` and keeps `seenNames` equal to the names in the list |
| Servers.AbsorbAll | src/hooks/useServers.ts:46-60 | the inner loop absorbs every record of one tool, keeping `seenNames` in step |
| Servers.AfterBackupOthers | src/hooks/useServers.ts:83-86 | a backup changes no file except new backups of the tool's file |
| Servers.BackupKeepsFile | src/hooks/useServers.ts:83-86 | a backup leaves the tool's own file as it was |
| Servers.WriteBackOthers | src/hooks/useServers.ts:128-131 | the write touches only the tool's file |
| Servers.WriteBackWritten | src/hooks/useServers.ts:122-131 | a successful write leaves the rebuilt document in the tool's file |
| Servers.RewriteReadBack | src/hooks/useServers.ts:81-134 | after a successful rewrite the file holds its old document, or `{}`, with only the tool's servers object replaced, and reading it back gives exactly the encoded servers |
| Servers.RewriteOthers | src/hooks/useServers.ts:81-134 | a rewrite touches only the tool's file and its backups |
| Servers.WithTool | src/hooks/useServers.ts:105-110 | the saved server gets its tools plus the tool id, without repeats, and nothing else changes |
| Servers.FindById | src/hooks/useServers.ts:113 | the index of the first server with the id, or -1 when there is none |
| Servers.SaveSetMembers | src/hooks/useServers.ts:99-120 | the written list holds the saved server marked for the tool and every captured server for the tool under another id, and nothing else except servers sharing the saved id |
| Servers.SaveSetUniqueIds | src/hooks/useServers.ts:99-120 | with unique ids the written list is the saved server plus the tool's other captured servers |
| Servers.FilterUniqueIds | src/hooks/useServers.ts:99-101 | filtering keeps ids unique |
| Servers.Remaining | src/hooks/useServers.ts:194-196 | exactly the captured servers for the tool with another id |
| Servers.SyncSet | src/hooks/useServers.ts:337 | exactly the captured servers that list the tool |
| Servers.SyncSkipsUnlisted | src/hooks/useServers.ts:337 | a server with no tool list is written to no tool by a sync, though the encoder would take it |
| Servers.SyncSetIncluded | src/hooks/useServers.ts:337-352 | every server a sync writes passes the encoder's filter |
| Servers.Targets | src/hooks/useServers.ts:159-161 | exactly the installed tools the server lists |
| Servers.TargetsNext | src/hooks/useServers.ts:159-161 | one more tool extends the targets when it is installed and listed |
| Servers.FindTool | src/hooks/useServers.ts:242 | a found tool is installed and has the id; none means no installed tool has it |
| Servers.RemovedToolIds | src/hooks/useServers.ts:235-237 | exactly the original's tools that the updated server no longer lists |
| Servers.RemovalTools | src/hooks/useServers.ts:241-247 | only installed tools for dropped ids |
| Servers.RemovalToolsNext | src/hooks/useServers.ts:241-247 | one more dropped id adds the tool found for it, if any |
| Servers.RewriteEachOthers | src/hooks/useServers.ts:164-167 | rewriting several tools touches only their files and backups |
| Servers.RewriteEachNext | src/hooks/useServers.ts:164-167 | the loop's files after one more tool are one more rewrite |
| Servers.RewriteEachSnoc | src/hooks/useServers.ts:258-260 | a rewrite appended to the loop |
| Servers.SyncAllAt | src/hooks/useServers.ts:336-361 | the sync from each tool on is one rewrite, then the rest unless the file did not parse |
| Servers.SyncAllHead | src/hooks/useServers.ts:336-361 | a sync that did not stop went past its first tool |
| Servers.RewriteEachCons | src/hooks/useServers.ts:336-361 | rewriting a first tool and then the rest is rewriting all of them |
| Servers.SyncAllUnstopped | src/hooks/useServers.ts:336-361 | a sync that did not stop wrote every tool, as separate rewrites would |
| Servers.SyncAllParsed | src/hooks/useServers.ts:347-350 | in a sync that did not stop, no tool's file failed to parse |
| Servers.RewriteWrote | src/hooks/useServers.ts:346-359 | with a writable directory and a parsable file, a rewrite that does not skip missing files writes |
| Servers.SyncAllStep | src/hooks/useServers.ts:336-361 | in a sync that did not stop, each tool in a writable directory was written |
| Servers.RewriteEachTail | src/hooks/useServers.ts:336-361 | later rewrites of other files do not change what a file reads |
| Servers.SyncReadBack | src/hooks/useServers.ts:327-369 | after a sync that did not stop, a tool in a writable directory that no later tool writes over reads back exactly the servers that list it |
| Servers.ServerManager.constructor | src/hooks/useServers.ts:7-18 | the manager works on the given store and file store |
| Servers.ServerManager.RewriteTool | src/hooks/useServers.ts:81-134 | backup, read, encode, rebuild and write, ending early on a missing file when asked and on an unparsable one always |
| Servers.ServerManager.LoadServersFromTool | src/hooks/useServers.ts:20-33 | the decoded servers of the tool's file, or none |
| Servers.ServerManager.LoadAllServers | src/hooks/useServers.ts:35-69 | the error is cleared and the store gets the installed tools' records merged by name; nothing else changes |
| Servers.ServerManager.SaveServerToTool | src/hooks/useServers.ts:71-141 | the tool's file is rewritten with the save list; the result is true exactly when the write succeeded |
| Servers.ServerManager.RemoveServerFromTool | src/hooks/useServers.ts:175-215 | the tool's file is rewritten without the server; the result is true when there was no file or the write succeeded |
| Servers.ServerManager.CreateServer | src/hooks/useServers.ts:143-173 | the new server gets the id and both timestamps and is appended to the store; each installed tool it lists is saved to in order |
| Servers.ServerManager.SaveToTools | src/hooks/useServers.ts:164-167 | saves the server to each tool in turn, ignoring failures |
| Servers.ServerManager.RemoveFromTools | src/hooks/useServers.ts:241-247 | removes the original from each installed tool found for a dropped id |
| Servers.ServerManager.EditServer | src/hooks/useServers.ts:217-264 | an unknown id changes nothing; otherwise the server is removed from the tools it dropped, updated in the store and saved to the tools it lists, all from the captured list |
| Servers.ServerManager.RemoveFromEnabled | src/hooks/useServers.ts:272-297 | rewrites each installed tool the server lists without it |
| Servers.ServerManager.DeleteServer | src/hooks/useServers.ts:266-302 | an unknown id changes nothing; otherwise each installed tool it lists is rewritten without it, then it leaves the store |
| Servers.ServerManager.SyncTools | src/hooks/useServers.ts:336-361 | writes each tool's servers in turn and stops at a file that does not parse |
| Servers.ServerManager.SyncToAllTools | src/hooks/useServers.ts:327-369 | the error is cleared; every installed tool gets the servers that list it; an unparsable file stops the sync and sets the error |
| ToolRegistry.BuiltInTool | src/lib/toolRegistry.ts:10-21 | a built-in descriptor carries the definition's id, name, format, server key and capabilities, and the resolved path |
| ToolRegistry.BuiltInTools | src/lib/toolRegistry.ts:7-23 | at most one tool per definition, each built in, with a non-empty path, and built from some definition and its resolved path |
| ToolRegistry.BuiltInToolsConcat | src/lib/toolRegistry.ts:8-22 | the built-in list of joined definitions is the join of their lists, so order is kept |
| ToolRegistry.BuiltInToolsOne | src/lib/toolRegistry.ts:8-22 | one definition gives its descriptor exactly when its path resolves to a non-empty string |
| ToolRegistry.BuiltInToolsSkipMissing | src/lib/toolRegistry.ts:9-22 | a definition with no template for the platform, or an empty one, gives no tool |
| ToolRegistry.CreateCustomTool | src/lib/toolRegistry.ts:25-41 | as written: a custom tool with the given id, name, path and format stamped `now`, whose key is `mcp.servers` whenever a key is given or the format is `mcp.servers` |
| ToolRegistry.CreateCustomToolDropsKey | src/lib/toolRegistry.ts:37 | a given key `servers` for the `servers` format comes out as `mcp.servers` |
| ToolRegistry.CreateCustomToolIntended | src/lib/toolRegistry.ts:25-41 | the corrected builder gives a custom tool with the given fields, stamped `now` |
| ToolRegistry.CreateCustomToolIntendedKey | src/lib/toolRegistry.ts:37 | the corrected builder keeps a given key, and without one agrees with the code as written |
| ToolRegistry.GetServerKeyForFormat | src/lib/toolRegistry.ts:43-54 | the key is the format's own name, so parsing it gives the format back |
| ToolRegistry.DetectConfigFormat | src/lib/toolRegistry.ts:56-67 | each format is detected exactly when its key is present and no earlier key is |
| ToolRegistry.DetectOwnKey | src/lib/toolRegistry.ts:56-67 | a document with only one format's top-level key is detected as that format |
| ToolRegistry.GetToolIcon | src/lib/toolRegistry.ts:69-79 | `Server` exactly for an absent or unknown name, otherwise the mapped component |
| ToolLoading.ApplyOverride | src/hooks/useTools.ts:28-36 | an absent override changes nothing; a present one replaces the name and the path by its own when they are non-empty |
| ToolLoading.Overridden | src/hooks/useTools.ts:27-37 | the override is applied to each tool in place, keeping the length and order |
| ToolLoading.OverrideKeeps | src/hooks/useTools.ts:30-34 | an override changes at most the name and the path |
| ToolLoading.EmptyOverride | src/hooks/useTools.ts:32-33 | an override whose values are empty or absent changes nothing |
| ToolLoading.Visible | src/hooks/useTools.ts:40-41 | exactly the tools with an id that is not hidden |
| ToolLoading.AssembleOrder | src/hooks/useTools.ts:19-41 | the built-ins come first, then the custom tools, each part overridden and filtered on its own |
| ToolLoading.AssemblePlain | src/hooks/useTools.ts:23-41 | a tool neither overridden nor hidden appears unchanged |
| ToolLoading.AssembleHidden | src/hooks/useTools.ts:40-41 | a hidden tool never appears |
| ToolLoading.MarkInstalled | src/hooks/useTools.ts:48-50 | each tool's installed flag says whether the probe found its path, and nothing else changes |
| ToolLoading.EmptyPathNotInstalled | src/hooks/useTools.ts:45-49 | a tool with an empty config path is never marked installed, since `filter(Boolean)` keeps that path out of the probe |
| ToolLoading.LoadTools | src/hooks/useTools.ts:10-59 | the error is cleared and the store gets the assembled list, with installed flags when the probe answers; a failure sets the error and keeps the old list |
| ConfigExchange.Names | src/hooks/useConfig.ts:11-21 | the names of an object literal's properties, in order |
| ConfigExchange.Present | src/hooks/useConfig.ts:24 | the rendered members are named after properties of the literal |
| ConfigExchange.GetPresent | src/hooks/useConfig.ts:24 | with distinct names, a rendered member holds its property's value, and an `undefined` property is not rendered |
| ConfigExchange.EntryProps | src/hooks/useConfig.ts:11-21 | an exported entry lists exactly name, command, args, env, cwd, transportType, url, toolSettings and enabledTools, in that order |
| ConfigExchange.ExportEntry | src/hooks/useConfig.ts:11-21 | an exported entry is an object with only those members |
| ConfigExchange.ExportOmits | src/hooks/useConfig.ts:11-21 | the id and the timestamps are not exported |
| ConfigExchange.ExportConfig | src/hooks/useConfig.ts:7-25 | the document has version `1.0`, the export time, and one entry per server in order |
| ConfigExchange.NameField | src/hooks/useConfig.ts:39 | an imported name is never empty |
| ConfigExchange.ImportEntry | src/hooks/useConfig.ts:36-51 | an imported server has the import id, a non-empty name, a transport, a tool list and both timestamps |
| ConfigExchange.ImportConfig | src/hooks/useConfig.ts:27-59 | a failure yields no servers; parse errors are prefixed; the invalid-format error comes exactly when servers is missing, falsy or not an array; success yields one server per entry, each with the import id for its index |
| ConfigExchange.ImportedIdsDistinct | src/hooks/useConfig.ts:38 | two indices give two ids |
| ConfigExchange.ImportDistinct | src/hooks/useConfig.ts:36-51 | the servers of one import have distinct ids |
| ConfigExchange.ImportDefaults | src/hooks/useConfig.ts:39-47 | an entry with none of the properties gets every default, the empty command among them |
| ConfigExchange.ExportedKeysDistinct | src/hooks/useConfig.ts:11-21 | the exported property names are distinct |
| ConfigExchange.TransportRoundTrip | src/hooks/useConfig.ts:17-44 | only the http transport is written as `http` |
| ConfigExchange.EntryField | src/hooks/useConfig.ts:11-21 | each member of an exported entry holds its property's value |
| ConfigExchange.RooRoundTrip | src/hooks/useConfig.ts:19-46 | the Roo Cline flags read back unchanged |
| ConfigExchange.SettingsRoundTrip | src/hooks/useConfig.ts:19-46 | the tool settings read back unchanged |
| ConfigExchange.EntryRoundTrip | src/hooks/useConfig.ts:7-51 | an exported entry imports as its server with the import's id and timestamps, when the name is non-empty and the transport and tool list are set; a server without a command comes back with the empty command |
| ConfigExchange.DecodePlain | src/hooks/useConfig.ts:12-41 | name and arguments read back unchanged, and the command as `s.command || ''` |
| ConfigExchange.DecodeOptional | src/hooks/useConfig.ts:15-45 | environment, working directory and URL read back unchanged, present or absent |
| ConfigExchange.DecodeName | src/hooks/useConfig.ts:12-39 | the name reads back |
| ConfigExchange.DecodeCommand | src/hooks/useConfig.ts:13-40 | the exported command reads back, absent when the server has none |
| ConfigExchange.DecodeArgs | src/hooks/useConfig.ts:14-41 | the arguments read back |
| ConfigExchange.DecodeEnv | src/hooks/useConfig.ts:15-42 | the environment reads back |
| ConfigExchange.DecodeCwd | src/hooks/useConfig.ts:16-43 | the working directory reads back |
| ConfigExchange.DecodeUrl | src/hooks/useConfig.ts:18-45 | the URL reads back |
| ConfigExchange.DecodeTransport | src/hooks/useConfig.ts:17-44 | a set transport reads back |
| ConfigExchange.DecodeSettings | src/hooks/useConfig.ts:19-46 | the tool settings read back, present or absent |
| ConfigExchange.DecodeEnabled | src/hooks/useConfig.ts:20-47 | a set tool list reads back |
| ConfigExchange.ExportImport | src/hooks/useConfig.ts:7-59 | exporting then importing keeps every exported field of every server, in order, a missing command coming back empty, and reports no error |
| ConfigExchange.FirstMatch | src/hooks/useConfig.ts:69 | the leftmost place where `.backup.` is followed by at least one character up to the end, with no line terminator, or none |
| ConfigExchange.BackupTimestamp | src/hooks/useConfig.ts:69-70 | with no match the current time; otherwise the text after the mark, with every dash shown as a colon |
| ConfigExchange.LoadedBackups | src/hooks/useConfig.ts:67-79 | one entry per listed path, in order, with the tool's id, empty content and distinct ids |
| ConfigExchange.ReplaceTwice | src/hooks/useConfig.ts:70 | turning `:` and `.` into `-`, then `-` into `:`, turns all three into `:` |
| ConfigExchange.TimestampOfBackup | src/hooks/useConfig.ts:69-70 | a backup named by `createBackup` shows its ISO time with every dash, colon and dot as a colon, so the date's dashes become colons too |
| ConfigExchange.TimestampAfterMark | src/hooks/useConfig.ts:69-70 | the text after the first mark, with dashes shown as colons |
| ConfigExchange.BackupPanel.constructor | src/hooks/useConfig.ts:5 | the list starts empty |
| ConfigExchange.BackupPanel.LoadBackups | src/hooks/useConfig.ts:61-85 | without the bridge nothing changes; otherwise the list is rebuilt from the listed backups |
| ConfigExchange.RestoreBackup | src/hooks/useConfig.ts:87-99 | false without the bridge; otherwise the main process copies the backup over the target when it can, and reports whether it did |
| ConfigExchange.CreateBackup | src/hooks/useConfig.ts:101-110 | no path without the bridge; otherwise a backup exists exactly when the file exists in a writable directory, at the path the main process names |
| ServerForm.RowKeySnoc | src/components/ServerList/ServerForm.tsx:106-110 | a key appears among the rows of a prefix plus one row exactly when it is in the prefix or is that row's |
| ServerForm.FillKeys | src/components/ServerList/ServerForm.tsx:105-110 | the record holds exactly the normalised non-empty keys of the rows |
| ServerForm.FillClean | src/components/ServerList/ServerForm.tsx:105-110 | with an idempotent normalisation the record has no key twice and every key is non-empty and normal |
| ServerForm.FillLastWins | src/components/ServerList/ServerForm.tsx:106-110 | for a repeated key the value of the last row wins |
| ServerForm.Rows | src/components/ServerList/ServerForm.tsx:74 | one row per member of the record, in order |
| ServerForm.RowsInit | src/components/ServerList/ServerForm.tsx:74 | the rows of a record without its last member are the rows without the last one |
| ServerForm.FillRows | src/components/ServerList/ServerForm.tsx:74-110 | the rows shown for a record with distinct, non-empty, normal keys fill the same record again |
| ServerForm.EnvKeys | src/components/ServerList/ServerForm.tsx:105-110 | the record holds exactly the trimmed keys of the rows whose key is not blank |
| ServerForm.EnvClean | src/components/ServerList/ServerForm.tsx:105-110 | the record has no key twice, and every key is non-empty and trimmed |
| ServerForm.EnvLastWins | src/components/ServerList/ServerForm.tsx:106-110 | for a repeated trimmed key the last row's value wins |
| ServerForm.EnvOfRows | src/components/ServerList/ServerForm.tsx:74-110 | a record with clean, distinct keys is reproduced by the rows it shows |
| ServerForm.BuildEnv | src/components/ServerList/ServerForm.tsx:105-110 | the loop builds the form's record of the rows |
| ServerForm.EnvField | src/components/ServerList/ServerForm.tsx:117 | a submitted environment is non-empty, with distinct clean keys |
| ServerForm.EnvFieldNone | src/components/ServerList/ServerForm.tsx:105-117 | the environment is left out exactly when every row's key is blank |
| ServerForm.CwdField | src/components/ServerList/ServerForm.tsx:118 | a submitted working directory is the trimmed input and is not empty; none means no input or a blank one |
| ServerForm.CwdClean | src/components/ServerList/ServerForm.tsx:118 | a submitted working directory has no white space at either end |
| ServerForm.CwdFieldNone | src/components/ServerList/ServerForm.tsx:118 | the working directory is left out exactly when it is absent or all white space |
| ServerForm.Toggled | src/components/ServerList/ServerForm.tsx:98-102 | the tool's membership flips and every other tool's stays |
| ServerForm.ToggleTwice | src/components/ServerList/ServerForm.tsx:98-102 | toggling twice restores the members, and the selection itself when the tool was not in it |
| ServerForm.FormRecordKeeps | src/components/ServerList/ServerForm.tsx:112-123 | the record keeps the edited server's id (empty when adding) and tool settings, the transport and the selection, sets a URL only for http, and has no timestamps |
| ServerForm.FormRecordTrimmed | src/components/ServerList/ServerForm.tsx:114-115 | the name and the command have no white space at either end, and the command is always set |
| ServerForm.FormRoundTrip | src/components/ServerList/ServerForm.tsx:68-123 | a server already in the form's normal shape, shown and submitted unchanged, comes back as it was, without its timestamps |
| ServerForm.EnvRoundTrip | src/components/ServerList/ServerForm.tsx:74-117 | the rows shown for a clean record fill it again; no record shows no rows and reads back as none |
| ServerForm.CwdRoundTrip | src/components/ServerList/ServerForm.tsx:75-118 | a clean working directory is shown and read back unchanged; none is shown as empty and read back as none |
| ServerForm.ServerFormState.constructor | src/components/ServerList/ServerForm.tsx:92-96 | the selection starts as the edited server's tools, or empty |
| ServerForm.ServerFormState.ToggleTool | src/components/ServerList/ServerForm.tsx:98-102 | the selection becomes the toggled one |
| ServerForm.ServerFormState.OnFormSubmit | src/components/ServerList/ServerForm.tsx:104-127 | the submitted record is the form's record of the values, the edited server and the current selection |
| CustomToolForm.LowerChar | src/components/ToolConfig/CustomToolForm.tsx:52 | a character already in `[a-z0-9-]` is kept |
| CustomToolForm.Lowered | src/components/ToolConfig/CustomToolForm.tsx:52 | the lower-cased id is no shorter and has no ASCII capital |
| CustomToolForm.ReplaceChar | src/components/ToolConfig/CustomToolForm.tsx:52 | the replacement is in `[a-z0-9-]`, and keeps the character exactly when it already is |
| CustomToolForm.Replaced | src/components/ToolConfig/CustomToolForm.tsx:52 | the replaced id is in `[a-z0-9-]` and no shorter |
| CustomToolForm.SanitizeId | src/components/ToolConfig/CustomToolForm.tsx:52 | the submitted id is in `[a-z0-9-]` and no shorter than the typed one |
| CustomToolForm.LoweredId | src/components/ToolConfig/CustomToolForm.tsx:52 | lower-casing leaves an id in `[a-z0-9-]` alone |
| CustomToolForm.ReplacedId | src/components/ToolConfig/CustomToolForm.tsx:52 | the replacement leaves an id in `[a-z0-9-]` alone |
| CustomToolForm.SanitizeIdempotent | src/components/ToolConfig/CustomToolForm.tsx:52 | sanitising is idempotent, and an id in `[a-z0-9-]` is its own sanitised form |
| CustomToolForm.SanitizeAscii | src/components/ToolConfig/CustomToolForm.tsx:52 | an id of ASCII letters, digits and dashes keeps its length, with each capital made small |
| CustomToolForm.ServerKeyOf | src/components/ToolConfig/CustomToolForm.tsx:56 | a non-empty given key is kept; otherwise the format's own name, which parses back to the format |
| CustomToolForm.CustomToolShape | src/components/ToolConfig/CustomToolForm.tsx:50-59 | the descriptor is a custom tool stamped `now` with a clean id and the typed name, path and format |
| CustomToolForm.CustomToolAgreesWithRegistry | src/components/ToolConfig/CustomToolForm.tsx:56 | with a key given the form builds what the corrected registry builder builds; without one the key is the registry's key for the format |
| CustomToolForm.Submit | src/components/ToolConfig/CustomToolForm.tsx:38-64 | a descriptor comes out exactly when the id, name and path are non-empty and the format is known; its id is non-empty and clean, and the other fields are the typed ones |

## Left out

- JSON text: `JSON.parse` and `JSON.stringify` are not modelled. A file holds a document value, an empty text, or a text that does not parse. Export yields the document that `JSON.stringify` would render.
- Values of the wrong JSON type: a field that is present but not of the expected type (a number where a string is expected, say) is read as absent. The source would copy it through unchanged.
- Keys JavaScript treats specially: integer-like keys, which JavaScript enumerates first, are not modelled, and neither are prototype keys such as `__proto__`. Records keep insertion order for every key.
- Arrays passing `typeof === 'object'`: key-path navigation in `buildFullConfig` and `toolConfigToServers` treats only JSON objects as objects. ConfigManager.SetPath: a tool file whose top-level value is not an object is rebuilt from `{}`, where `{ ...existingConfig }` (src/lib/configManager.ts:158, :176) would copy an array's elements or a string's characters in as members keyed `"0"`, `"1"`, …; a number, a boolean or `null` spreads to `{}` in both.
- Unknown `toolSettings` members: only the `rooCline` settings are carried.
- Unknown transport strings: any `transportType` other than `http` reads as `stdio`.
- `generateServerId`, `Date.now()` and `new Date()`: each is a parameter, and one parameter stands for every clock reading of one operation. The model is thus the source run with a clock that does not advance during an operation, which the millisecond clock allows but does not promise. The members that share one reading are listed below.
- Servers.ServerManager.CreateServer: `createdAt` and `updatedAt` are the same `now`, where the source reads the clock for each (src/hooks/useServers.ts:150-151).
- ConfigExchange.ImportEntry: `createdAt` and `updatedAt` are the same `stamp`, and every entry of one import shares `now` and `stamp`, where the source reads the clock for the id and for each timestamp of each entry (src/hooks/useConfig.ts:38, :48-49).
- ConfigExchange.LoadedBackups: every path without a backup mark gets the same current time, where the source reads the clock once for each such path (src/hooks/useConfig.ts:70).
- Servers.ServerManager.SaveToTools, Servers.ServerManager.EditServer, Servers.ServerManager.DeleteServer and Servers.ServerManager.SyncToAllTools: every backup taken in one operation is named with the same `now`, where `createBackup` reads the clock for each tool (electron/ipc/config.ts:58). Two tools with the same config path in one operation (a custom tool pointing at a built-in tool's file, say) then write the same backup path: the second backup replaces the first, so the model keeps one backup holding the file as the first rewrite left it. The source keeps two, and the first holds the file as it was before the operation.
- Node's `path.join` and `path.dirname`: the file store splits paths at their last `/`, like the renderer's `dirname`/`basename`. Normalisation of `..` and repeated slashes is not modelled.
- File-system errors: failures other than a missing file or a read-only directory are not modelled. A read-only directory refuses every change. `mkdir` with `recursive: true` is modelled as the directory appearing.
- `configExists` and the existence probe of `electron/ipc/tools.ts`: existence is an oracle map given to `ToolLoading.LoadTools`.
- The message of a thrown `TypeError`: it is a constant of the model (`ConfigExchange.NULL_DATA_MESSAGE`, `ConfigExchange.NULL_ENTRY_MESSAGE`), and a parse failure's message is a parameter (`parseError` of `Servers.ServerManager.SyncToAllTools`).
- Object aliasing:
  - `loadAllServers` updates `existing.enabledTools` in place, which the model does as a sequence update;
  - `loadTools` sets `isInstalled` on tool objects that `preferences.customTools` may share;
  - `buildFullConfig`'s cursor writes into cloned objects, modelled as rebuilding the document.
  None of these is visible in the values the model computes, apart from the shared custom tools, which the model does not mark.
- Concurrency and React machinery:
  - `useCallback` closures are modelled as the captured server list that each operation takes from the store at its start;
  - async interleaving, `isLoading`, `selectedToolId`, the profile reducers (`src/hooks/useStore.ts:130-155`) and zustand `persist` (`src/hooks/useStore.ts:157-164`) are not modelled.
- The branches where `window.electron` is absent: in `useServers` these return early and are not modelled. They are modelled in `useConfig` (the `files == null` cases), in `useTools` (`ToolLoading.NoBridge`) and in `initPathResolver` (`PathResolver.Resolver.Init` with no bridge).
- `initPathResolver` failing inside `loadTools`: not modelled; the probe's `Failed` case stands for any thrown error.
- `maxBackups`: the preference is stored, and the retention uses the constant ten as the source does. No operation consults the preference.
- `testServer`, `electron/ipc/servers.ts`, `electron/main.ts`, `electron/preload.ts` and the logger: these are process spawning, window lifecycle, bridging and console output, outside the engine. Calls through `window.electron.config` are the `ConfigIpc.FileStore` methods.
- Presentation: the forms' `reset` on submit and `onOpenChange` are dialog handling. The server form's values for an edited server are modelled (`ServerForm.FormValues`); the rest of the rendering is not.
- CustomToolForm.LowerChar: `toLowerCase` is modelled only as far as the sanitised id can tell. ASCII capitals are lowered, and so are the two code points whose lower case falls in `[a-z]` (the Kelvin sign and the dotted capital I). Every other character is kept, because its lower case lies outside `[a-z0-9-]` as it does itself.
- ServerForm.FormRoundTrip: the form's values pass through `ServerSchema.ParseServerForm` before submission; the round trip starts from the schema's output and does not re-run the schema.
- PathResolver.ResolveTemplate: the expansion is proved for templates whose text has no `%`, where a text between a placeholder and a later piece holds a character other than an ASCII letter, and for a home directory without `%`. Outside these, `%` characters of neighbouring pieces can form a further match (as in `%LOCALAPPDATA%APPDATA%`); `PathResolver.ExpandWindows` computes that case as the source does, but no lemma characterises its result.
- PathResolver.Resolver.ResolvePath: the home directory is spliced in literally; the `$$`, `$&`, `` $` `` and `$'` patterns that `String.prototype.replace` interprets in a replacement string are not modelled, so a home directory containing `$` is outside the model.
- ServerForm.FormValues: a server without a command shows the empty string in the form, where the form receives `undefined`; the schema rejects both, so the submitted outcome is the same.

## Findings

| source | as written | input that shows it | evidently intended | confidence | as-written member | corrected member |
|---|---|---|---|---|---|---|
| src/lib/toolRegistry.ts:37 | the conditional operator binds more loosely than the logical or, so the condition is `serverKey` or the `mcp.servers` format, and any given server key becomes `mcp.servers` | format `servers` with server key `servers` gives the key `mcp.servers` | a given key is kept, and otherwise the key is `mcp.servers` for the `mcp.servers` format and `mcpServers` for the other formats | high, not executed | ToolRegistry.CreateCustomToolDropsKey | ToolRegistry.CreateCustomToolIntendedKey |
