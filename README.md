# pystandardpaths: where an application's files belong

pystandardpaths re-implements Qt's `QStandardPaths` in Python. Given a kind of
location (`desktop`, `cache`, `app_data`, `runtime`, …) and an application
identity (organisation and application name), it answers two questions:

- `get_writable_path`: the one directory where files of that kind should be
  written;
- `get_standard_paths`: every directory where such files belong, highest
  priority first.

This project models the part of the library that resolves locations:

- the catalogue of kinds, the identity and its process-wide default, and the
  choice of a platform resolver (`standardpaths/base.py`), as module `Base`;
- the resolver for XDG systems (`standardpaths/unix.py`), as module `Unix`.
  It covers the `XDG_*` variables, the `user-dirs.dirs` file and the runtime
  directory, which is created, checked and re-moded in place;
- the macOS resolver (`standardpaths/osx.py`), as module `Osx`. It covers the
  four-character folder-type codes and the folder-manager lookups;
- the Windows resolver (`standardpaths/windows.py`), as module `Windows`;
- the two public entry points (`standardpaths/__init__.py`), as module
  `Facade`;
- two supporting modules:
  - `PosixPath` models the string and path functions of Python's library the
    XDG resolver relies on: `str.split`, `str.strip`, `os.path.isabs`,
    `os.path.expanduser`, `os.path.normpath` of absolute paths, and `pathlib`
    parsing;
  - `Seqs` models `OrderedDict.fromkeys` de-duplication.

How things are represented:

- **Paths** are pathlib's `parts`, a `seq<string>`. An absolute POSIX path
  begins with the part "/". `p / name` appends one part.
- **The environment and native services** are datatype fields the resolvers
  receive. These include `os.environ`, the home and temporary directories,
  the user name, `FSFindFolder`, `FSRefMakePath`, `NSFileManager`,
  `SHGetFolderPathW` and `SHGetKnownFolderPath`.
- **The global identity** (`_config`) is a `ConfigStore` object whose
  `Configure` method replaces it. The pure resolvers take its value as a
  parameter.
- **Exceptions** are values of `Result`.
- **The filesystem** seen by the runtime branch is a `FileSystem` object. Its
  entries (owner, mode) are changed by `Mkdir` and `Chmod`.

The model follows the code where it departs from the library's stated
intent:

- `XDG_DATA_DIRS` unset gives "/usr/local/share" and the relative
  "usr/share" (unix.py:43).
- On XDG systems `music` has no home-relative fallback (unix.py:123-130).
- `log` has no branch on XDG systems and on Windows. On XDG systems it goes
  through the user-dirs file and ends as the empty path. On Windows it is the
  desktop directory.
- On Windows, `generic_data` and `generic_config` use the local app-data
  folder, because only `app_data` selects the roaming one (windows.py:59-62).
- On Windows, a failing lookup builds a `LocationError` without raising it
  (windows.py:67, 121):
  - the table branch then returns `None`;
  - the data/config branch then raises `UnboundLocalError`.
- On macOS and Windows, the first entry of `get_standard_paths` is resolved
  without the caller's identity (osx.py:141, windows.py:127).
- On XDG systems, a set but empty `XDG_CACHE_HOME`, `XDG_DATA_HOME` or
  `XDG_CONFIG_HOME` is used as it is (unix.py:25-35). It gives `Path('')`,
  with no parts, although the `Location` documentation calls most of these
  paths never empty.

## Model

| member | source | states |
|---|---|---|
| Base.FromName | standardpaths/base.py:9-150 | `Location[name]` succeeds exactly for a member's name or the alias "app_local_data", and yields that member (for the alias, `data`). Any other name is `KeyError(name)`. |
| Base.Value | standardpaths/base.py:29-147 | Every member but `log` has one of Qt's numbers 0 to 17 as its value; `log`'s value is the string "log". |
| Base.Name | standardpaths/base.py:29-147 | A member's name is never empty and never "app_local_data", which is only an alias. |
| Base.NameRoundTrip | standardpaths/base.py:29-147 | Every member is found again under its own name. |
| Base.AppLocalDataIsData | standardpaths/base.py:139-142 | "app_local_data" and "data" name the same member, whose value is 9. |
| Base.ValueTable | standardpaths/base.py:29-147 | Each member's value: desktop 0, documents 1, … app_data 17, and "log" for log, in declaration order. |
| Base.ValuesDistinct | standardpaths/base.py:29-147 | Distinct members have distinct values; `log` has the string value "log". |
| Base.ConfigStore.constructor | standardpaths/base.py:169 | The global identity starts with both names empty. |
| Base.ConfigStore.Configure | standardpaths/base.py:172-179 | `configure` replaces the whole global identity; an omitted name is "". |
| Base.ConfigStore.GetConfig | standardpaths/base.py:182-187 | `get_config` returns the current global identity. |
| Base.ConfigureLastWriteWins | standardpaths/base.py:172-187 | After two `configure` calls, `get_config` reads the second. The name the second call omits reads back as "", not as the first call's value. |
| Base.Effective | standardpaths/base.py:191-192 | The identity used is the caller's when given, otherwise the global one. |
| Base.AppendOrgAndApp | standardpaths/base.py:190-197 | The result keeps the path as a prefix. The organisation name comes next when non-empty, and the application name last when non-empty. The result grows by exactly the number of non-empty names, and is the path itself when both are empty. |
| Base.AppendDependsOnEffective | standardpaths/base.py:190-197 | Two identities that resolve to the same effective one append the same parts to every path. |
| Base.Implementation | standardpaths/base.py:200-207 | "Darwin" selects the macOS resolver and "Windows" the Windows one, each in both directions. Every other system selects the XDG resolver. |
| Seqs.FirstIndex | standardpaths/unix.py:45-48 | The position found holds the element, and no earlier position does. |
| Seqs.Dedup | standardpaths/unix.py:45-48 | `OrderedDict.fromkeys(...).keys()` has no duplicates. It holds every input element, and nothing else. |
| Seqs.DedupKeepsFirstOccurrenceOrder | standardpaths/unix.py:45-48 | Kept elements are ordered by their first occurrence in the input. |
| PosixPath.SplitPiecesLackSep | standardpaths/unix.py:47 | No piece of `s.split(sep)` contains `sep`. |
| PosixPath.JoinSplit | standardpaths/unix.py:47 | Joining the pieces of `s.split(sep)` with `sep` gives `s` back. |
| PosixPath.SplitJoin | standardpaths/unix.py:47 | Splitting pieces joined by `sep` gives the pieces back when none contains `sep`. |
| PosixPath.SplitAround | standardpaths/unix.py:47 | `(a + sep + b).split(sep)` is `a.split(sep)` followed by `b.split(sep)`. |
| PosixPath.SplitWithoutSep | standardpaths/unix.py:149 | Text without the separator splits into itself alone, e.g. the default "/etc/xdg". |
| PosixPath.NamesShape | standardpaths/unix.py:35 | Parsing keeps exactly the non-empty, non-"." pieces. |
| PosixPath.ParsePath | standardpaths/unix.py:35 | An absolute string parses to a path that starts with the root "/". |
| PosixPath.ParsePathShape | standardpaths/unix.py:35 | A parsed path starts with the root "/" exactly when the string is absolute. Every other part is a name. |
| PosixPath.ParseJoin | standardpaths/unix.py:35 | Parsing `a + "/" + b` for a relative `b` is `Path(a) / Path(b)`. |
| PosixPath.OneName | standardpaths/unix.py:61 | A single name such as ".cache" parses as that one part. |
| PosixPath.TwoNames | standardpaths/unix.py:66 | "x/y" parses as the two parts x and y, e.g. ".local/share". |
| PosixPath.RootTwoNames | standardpaths/unix.py:149 | "/x/y" parses as the root and the parts x and y, e.g. "/etc/xdg". |
| PosixPath.TrailingSlash | standardpaths/unix.py:35 | A trailing slash adds no part. |
| PosixPath.RootOnly | standardpaths/unix.py:35 | "/" alone parses as the root. |
| PosixPath.RootThen | standardpaths/unix.py:35 | "/" followed by a relative path parses as the root and that path's parts. |
| PosixPath.RStripParses | standardpaths/unix.py:35 | Removing trailing slashes leaves the parsed path unchanged, and a string of slashes only is the root. |
| PosixPath.RStripShape | standardpaths/unix.py:106 | `rstrip(c)` keeps a prefix, removes only `c`, and leaves no `c` at the end. |
| PosixPath.LStripShape | standardpaths/unix.py:106 | `lstrip(c)` keeps a suffix, removes only `c`, and leaves no `c` at the start. |
| PosixPath.Strip | standardpaths/unix.py:106 | `strip(c)` leaves no `c` at either end and never lengthens the string. |
| PosixPath.ExpandUser | standardpaths/unix.py:35 | `expanduser` leaves a string unchanged unless it is "~" or starts with "~/". |
| PosixPath.ExpandHome | standardpaths/unix.py:56-57 | `expanduser("~")` parses as the home directory, or as "/" when the home directory is empty. |
| PosixPath.ExpandUserUnderHome | standardpaths/unix.py:35 | "~/rel" names `rel` under the parsed home directory, for any non-empty home, trailing slashes included. |
| PosixPath.CollapseShape | standardpaths/unix.py:46 | The parts `normpath` keeps are names, never "..". |
| PosixPath.Collapse | standardpaths/unix.py:46 | Normalising never yields more parts than it started with plus the pieces. |
| PosixPath.CollapseWithoutParent | standardpaths/unix.py:46 | Without "..", normalising only drops "" and ".", as parsing does. |
| PosixPath.ParentRemovesName | standardpaths/unix.py:46 | ".." removes the name before it, and is dropped at the root. |
| PosixPath.NormAbs | standardpaths/unix.py:46 | A normalised absolute path starts with the root. |
| PosixPath.NormAbsShape | standardpaths/unix.py:46 | After the root, a normalised absolute path holds only names and no "..". |
| PosixPath.NormAbsWithoutParent | standardpaths/unix.py:46 | An absolute path without ".." normalises to its parsed parts. |
| Unix.GetPathStr | standardpaths/unix.py:25-30 | A set variable's value wins, even "". The default applies only when the variable is absent. `KeyError(name)` is raised exactly when it is absent and the default is `RAISE`. |
| Unix.GetPath | standardpaths/unix.py:33-35 | With a string default the lookup cannot fail. |
| Unix.SetVariableWins | standardpaths/unix.py:33-35 | A set variable is expanded and parsed in place of the default. |
| Unix.EmptyVariableGivesEmptyPath | standardpaths/unix.py:25-35 | A set but empty `XDG_CACHE_HOME`, `XDG_DATA_HOME` or `XDG_CONFIG_HOME` makes `generic_cache`, `generic_data` or `config` the empty path. |
| Unix.HomePath | standardpaths/unix.py:56-57 | `home` is the parsed home directory, or "/" when that is empty. |
| Unix.TempPath | standardpaths/unix.py:58-59 | `temp` is the parsed temporary directory, absolute exactly when the host gives an absolute one. |
| Unix.GenericCachePath | standardpaths/unix.py:60-61 | A set `XDG_CACHE_HOME` is expanded and parsed, even when empty. |
| Unix.GenericDataPath | standardpaths/unix.py:65-66 | A set `XDG_DATA_HOME` is expanded and parsed, even when empty. |
| Unix.ConfigPath | standardpaths/unix.py:70-71 | A set `XDG_CONFIG_HOME` is expanded and parsed, even when empty. |
| Unix.DefaultUnderHome | standardpaths/unix.py:33-35 | An unset variable with a "~/rel" default names `rel` under home, for any non-empty home directory. |
| Unix.CacheDefault | standardpaths/unix.py:60-61 | With `XDG_CACHE_HOME` unset, `generic_cache` is home / ".cache", for any non-empty home directory. |
| Unix.DataDefault | standardpaths/unix.py:65-66 | With `XDG_DATA_HOME` unset, `generic_data` is home / ".local" / "share", for any non-empty home directory. |
| Unix.ConfigDefault | standardpaths/unix.py:70-71 | With `XDG_CONFIG_HOME` unset, `config` is home / ".config", for any non-empty home directory. |
| Unix.AbsoluteEntriesNormal | standardpaths/unix.py:45-48 | Every kept data directory is absolute and normalised. |
| Unix.AbsoluteEntriesComplete | standardpaths/unix.py:45-48 | Every absolute piece of `XDG_DATA_DIRS`, normalised, is kept. |
| Unix.AbsoluteEntriesSound | standardpaths/unix.py:45-48 | Every kept entry comes from an absolute piece. |
| Unix.AbsoluteEntriesCons | standardpaths/unix.py:45-48 | A piece in front adds its normalised entry in front when it is absolute, and nothing otherwise. |
| Unix.AbsoluteEntriesAppend | standardpaths/unix.py:45-48 | The entries of two runs of pieces are the entries of the first followed by those of the second, so entries keep the pieces' order. |
| Unix.AbsoluteEntriesPrefix | standardpaths/unix.py:45-48 | Each entry comes from an absolute piece, and the pieces up to that one give exactly the entries up to it. |
| Unix.XdgDataDirs | standardpaths/unix.py:38-49 | With `XDG_DATA_DIRS` unset or empty, the list is "/usr/local/share" then the relative "usr/share". |
| Unix.XdgDataDirsFromVariable | standardpaths/unix.py:44-48 | With `XDG_DATA_DIRS` set, the list holds exactly the normalised absolute entries. It has no duplicates and follows their first occurrences. |
| Unix.DataDirsFollowPieces | standardpaths/unix.py:44-48 | Of two listed directories, the earlier comes from a piece of `XDG_DATA_DIRS` before any piece that gives the later one. |
| Unix.LastMarker | standardpaths/unix.py:101 | Finds the last "_DIR=" at or before a position, or reports that there is none. |
| Unix.MatchUserDir | standardpaths/unix.py:101-104 | A match splits the line into its key and value around the fixed text. |
| Unix.MatchUserDirSound | standardpaths/unix.py:101-104 | A line matches exactly when it starts with "XDG_" and has a "_DIR=" after that prefix. The key and value then rebuild the line, and the greedy key leaves no "_DIR=" in the value. |
| Unix.MatchUserDirComplete | standardpaths/unix.py:101-104 | "XDG_" + key + "_DIR=" + value matches as (key, value) whenever the value holds no "_DIR=". |
| Unix.UserDirs | standardpaths/unix.py:102-106 | No stored value starts or ends with `"`. |
| Unix.UserDirsKeys | standardpaths/unix.py:102-106 | A key is in the dict exactly when some line of the file assigns it. |
| Unix.UserDirsLastWins | standardpaths/unix.py:102-106 | The last line assigning a key sets its value, with surrounding `"` stripped. |
| Unix.ParseUserDirs | standardpaths/unix.py:100-106 | The loop over the file's lines builds the dict the fold `UserDirs` describes. |
| Unix.UserDirPath | standardpaths/unix.py:107-139 | Without an entry, the kinds with a fallback name are that name under a non-empty home directory, and `music` and `log` are the empty path. |
| Unix.UserDirPathCases | standardpaths/unix.py:107-139 | A present, non-empty entry wins, with its variables expanded. Otherwise desktop, documents, pictures, movies, download and fonts are home / their fixed name. `applications` is generic data / "applications". `music` and `log` are the empty path. |
| Unix.UserDirsFile | standardpaths/unix.py:98 | The file is `user-dirs.dirs` in the configuration directory, by default home / ".config" / "user-dirs.dirs". |
| Unix.UserDirLocation | standardpaths/unix.py:98-100 | A missing `user-dirs.dirs` raises `FileNotFoundError` for that file, and only then does the branch fail. |
| Unix.ReadUserDir | standardpaths/unix.py:97-139 | Reading the file and looking the kind up gives the user-dirs result. |
| Unix.RuntimeDir | standardpaths/unix.py:72-95 | The runtime branch removes no directory. On success the directory exists, is the user's and has mode 0o700. On failure nothing changes. |
| Unix.RuntimeDirSpec | standardpaths/unix.py:72-95 | The runtime branch changes only the candidate directory. It creates the fallback only when that is missing and its parent exists. On success, the directory is the user's with mode 0o700. A foreign owner is exactly the `LocationError` case. Every other failure is a missing directory. |
| Unix.RuntimeDirIdempotent | standardpaths/unix.py:72-95 | Repeating a successful runtime call returns the same directory and changes nothing. |
| Unix.RuntimeFromEnvOwned | standardpaths/unix.py:74-95 | An existing, owned `$XDG_RUNTIME_DIR` is returned with mode 0o700 and no directory added. |
| Unix.FileSystem.Mkdir | standardpaths/unix.py:78-79 | `mkdir` of a missing path fails when its parent is missing. Otherwise it adds the directory, owned by the user, and nothing else. |
| Unix.FileSystem.Chmod | standardpaths/unix.py:92-94 | `chmod` changes only that directory's mode. |
| Unix.FileSystem.EnsureRuntimeDir | standardpaths/unix.py:72-95 | The step-by-step branch returns what `RuntimeDir` specifies and leaves the filesystem as it specifies. |
| Unix.WritablePath | standardpaths/unix.py:52-139 | Only `runtime` and the user-dirs kinds can fail. A failing user-dirs kind raises `FileNotFoundError` for the user-dirs file. The value of each kind is stated by the lemmas below. |
| Unix.WritablePathHomeTemp | standardpaths/unix.py:56-59 | `home` is the parsed `expanduser('~')`; `temp` is the parsed temporary directory. |
| Unix.WritablePathRuntime | standardpaths/unix.py:72-95 | `runtime` is what the runtime-directory resolution returns. |
| Unix.WritablePathGenericCache | standardpaths/unix.py:60-61 | `generic_cache` is `XDG_CACHE_HOME` expanded and parsed when set; when unset and home is non-empty, it is home / ".cache". |
| Unix.WritablePathGenericData | standardpaths/unix.py:65-66 | `generic_data` is `XDG_DATA_HOME` expanded and parsed when set; when unset and home is non-empty, it is home / ".local" / "share". |
| Unix.WritablePathConfig | standardpaths/unix.py:70-71 | `config` (and so `generic_config`) is `XDG_CONFIG_HOME` expanded and parsed when set; when unset and home is non-empty, it is home / ".config". |
| Unix.WritablePathFails | standardpaths/unix.py:52-139 | The writable path fails exactly when the runtime branch fails, or when a user-dirs kind finds no user-dirs file. |
| Unix.ResolveElsewhere | standardpaths/unix.py:52-139 | Every branch but `runtime` returns the specified writable path without touching the filesystem. |
| Unix.GetWritablePath | standardpaths/unix.py:52-139 | Returns the specified writable path. Only `runtime` changes the filesystem. |
| Unix.CacheUnderGenericCache | standardpaths/unix.py:62-64 | `cache` is `generic_cache` (taken without the caller's identity) plus the organisation and application. |
| Unix.AppDataUnderGenericData | standardpaths/unix.py:67-69 | `app_data` is `generic_data` plus the organisation and application. |
| Unix.AppLocalDataIsAppData | standardpaths/unix.py:67 | `app_local_data` (`data`) is the same directory as `app_data`. |
| Unix.ConfigKindsCoincide | standardpaths/unix.py:70-71 | `config` and `generic_config` are the same directory. |
| Unix.UserDirsBranch | standardpaths/unix.py:97-139 | Every kind without a branch of its own goes through `user-dirs.dirs`, `fonts`, `applications` and `log` included. |
| Unix.ConfigDirs | standardpaths/unix.py:146-150 | The config search list is `XDG_CONFIG_DIRS` (default "/etc/xdg") split on ':', each piece parsed as it is. |
| Unix.ExtraPaths | standardpaths/unix.py:146-158 | After the writable path come the config directories for the config kinds, the data directories for `generic_data`, each data directory / "applications" for `applications`, and each data directory plus the organisation and application for `app_data` and `data`. Other kinds add nothing. |
| Unix.StandardPaths | standardpaths/unix.py:142-159 | The list fails exactly when the writable path fails, and starts with it. Kinds without search directories have one entry. After the first entry come the config directories for the config kinds, the data directories for `generic_data`, each data directory / "applications" for `applications`, and each data directory plus the organisation and application for `app_data` and `data`. |
| Unix.GenericDataDefaultList | standardpaths/unix.py:145-152 | With `XDG_DATA_DIRS` unset, `generic_data` lists the writable path, "/usr/local/share" and "usr/share". |
| Unix.ConfigDirsDefault | standardpaths/unix.py:146-150 | With `XDG_CONFIG_DIRS` unset, the config search list is just "/etc/xdg". |
| Unix.ConfigDefaultList | standardpaths/unix.py:145-150 | With `XDG_CONFIG_DIRS` unset, `config` lists the writable path and then "/etc/xdg". |
| Unix.GetStandardPaths | standardpaths/unix.py:142-159 | Returns the specified list. Only `runtime` changes the filesystem. |
| Unix.WritableDependsOnEffective | standardpaths/unix.py:62-69 | The writable path depends on the caller's identity only through the effective one. |
| Unix.ExtraPathsDependOnEffective | standardpaths/unix.py:155-158 | So do the search directories. |
| Unix.OnlyEffectiveConfigMatters | standardpaths/unix.py:52-159 | Passing no identity resolves exactly like passing the global one, for both entry points. |
| Osx.Pow256 | standardpaths/osx.py:29 | The weight `2 ** (i * 8)` is positive. |
| Osx.Reverse | standardpaths/osx.py:28 | `reversed(bytearray(bs))` has the same length, with position i holding byte n-1-i. |
| Osx.BigEndian | standardpaths/osx.py:22-29 | The big-endian reading of n bytes is below 256^n. |
| Osx.ReversedSumIsBigEndian | standardpaths/osx.py:22-29 | Weighting the reversed bytes by increasing powers of 256 gives the big-endian reading. |
| Osx.Bti | standardpaths/osx.py:22-29 | `_bti` is the big-endian value of the bytes, and so is below 256^n for n bytes. |
| Osx.BigEndianInjective | standardpaths/osx.py:22-29 | For a fixed length, the value determines the bytes. |
| Osx.Ascii | standardpaths/osx.py:41-51 | The byte string of an ASCII literal has the characters' codes. |
| Osx.FourBytes | standardpaths/osx.py:22-29 | `_bti` of four bytes is b0·2^24 + b1·2^16 + b2·2^8 + b3. |
| Osx.FourCharCode | standardpaths/osx.py:22-29 | A four-character code is its characters read big-endian. |
| Osx.SupportFolderTypeCodes | standardpaths/osx.py:42-50 | The constants for 'asup', 'cach' and 'pref' are `_bti` of those codes. |
| Osx.DocumentFolderTypeCodes | standardpaths/osx.py:45-49 | The constants for 'docs', 'mdoc', 'µdoc' and 'pdoc' are `_bti` of those codes. 0xb5646f63 is `_bti` of 0xb5 followed by "doc". |
| Osx.OtherFolderTypeCodes | standardpaths/osx.py:41-51 | The constants for 'apps', 'desk', 'font' and 'temp' are `_bti` of those codes. |
| Osx.FolderTypesDistinct | standardpaths/osx.py:41-51 | Distinct four-character codes give distinct folder types. |
| Osx.FolderType | standardpaths/osx.py:76-93 | The preferences type is used exactly for the config kinds, application support exactly for the data kinds and runtime, cached data exactly for the cache kinds, and the desktop type for desktop and every kind the table does not list. |
| Osx.FolderTypeTable | standardpaths/osx.py:76-93 | The documents, fonts, applications, music, movie, picture and temporary types each serve exactly their one kind. |
| Osx.Domain | standardpaths/osx.py:127-134 | The user domain is used exactly for generic_data, app_data, data, generic_cache, cache and runtime. Every other kind uses the appropriate disk. |
| Osx.FolderPath | standardpaths/osx.py:94-110 | The lookup succeeds exactly when both native calls return status 0, and is then the parsed path. A non-zero status of `FSFindFolder` is a `LocationError` for that kind carrying that code; otherwise a non-zero status of `FSRefMakePath` is one carrying its code. |
| Osx.MacLocation | standardpaths/osx.py:58-115 | Only `LocationError`s escape. Apart from `download`, it fails exactly when the folder lookup fails. `app_data`, `data` and `cache` get the organisation and application; other kinds get the folder as found. |
| Osx.WritablePath | standardpaths/osx.py:118-135 | `home` is the expanded "~" and `temp` the temporary directory. Every other kind is the folder lookup in the domain its table gives. Only `LocationError`s are raised. |
| Osx.SameFolder | standardpaths/osx.py:76-98 | Two kinds with one folder type find the same folder or fail alike. |
| Osx.HomeAndTempAreLocal | standardpaths/osx.py:122-125 | `home` and `temp` do not depend on any native service. |
| Osx.DownloadFromFoundation | standardpaths/osx.py:61-73 | `download` is Foundation's URL path. A missing URL is a `LocationError` with its description. |
| Osx.CacheUnderGenericCache | standardpaths/osx.py:91-114 | `cache` is `generic_cache` plus the organisation and application, and fails exactly when it fails. |
| Osx.ApplicationSupportKinds | standardpaths/osx.py:87-114 | `app_data`, `data` and `runtime` share `generic_data`'s folder and its failures. Only the first two add the organisation and application. |
| Osx.UnlistedKindIsDesktop | standardpaths/osx.py:76-93 | `log` resolves as the desktop folder. |
| Osx.StandardPaths | standardpaths/osx.py:138-156 | The list fails exactly when the writable path resolved with the global identity fails, and starts with it. A second entry is present exactly for the five data and cache kinds whose appropriate-disk lookup succeeds, and is that lookup. |
| Osx.MacLocationDependsOnEffective | standardpaths/osx.py:112-114 | A lookup depends on the caller's identity only through the effective one. |
| Osx.OnlyEffectiveConfigMatters | standardpaths/osx.py:118-156 | Passing no identity resolves exactly like passing the global one, for both entry points. |
| Windows.DataConfigFolder | standardpaths/windows.py:58-62 | The roaming folder is used exactly for `app_data`, the local one for every other kind. |
| Windows.DataConfigPath | standardpaths/windows.py:58-69 | The lookup succeeds exactly when the shell status is 0, and then adds the organisation and application. A failure is `UnboundLocalError`. |
| Windows.TableFolder | standardpaths/windows.py:108-117 | The table as written: programs for applications, the personal folder for documents and download, fonts, music, video and pictures for their kinds, and the desktop directory for desktop and every kind the table does not list. |
| Windows.TablePath | standardpaths/windows.py:108-121 | A failing table lookup returns `None` instead of raising. |
| Windows.WritablePath | standardpaths/windows.py:72-121 | Any failure is `UnboundLocalError`. `None` is returned exactly when a kind without a branch of its own finds no table folder, and for download only when the known folder was not found. Every kind without a branch of its own, and download when the known folder is not found, is the table lookup. |
| Windows.HomeRuntimeTemp | standardpaths/windows.py:76-79 | `home` and `runtime` are the home directory; `temp` is the temporary directory. |
| Windows.GenericCacheUnderGenericData | standardpaths/windows.py:81-82 | `generic_cache` is the bare local app-data folder / "cache", and fails with it. |
| Windows.CacheIgnoresCallerConfig | standardpaths/windows.py:83-84 | `cache` is the local folder with the global identity / "cache", whatever the caller passes. |
| Windows.GenericKindsIgnoreIdentity | standardpaths/windows.py:102-103 | `generic_data` and `generic_config` are the bare local folder, whatever the caller passes. |
| Windows.AppKindsUseCallerIdentity | standardpaths/windows.py:104-106 | `app_data` (roaming), `data` and `config` (local) add the caller's organisation and application. |
| Windows.DownloadFallsBackToDocuments | standardpaths/windows.py:86-112 | `download` is the known folder when that call exists and succeeds, and otherwise is `documents`. |
| Windows.UnlistedKindIsDesktop | standardpaths/windows.py:108-117 | `log` is the desktop directory. |
| Windows.NeverLocationError | standardpaths/windows.py:58-121 | `get_writable_path` never raises `LocationError`. It fails only for the data and config kinds, and only with `UnboundLocalError`. |
| Windows.SecondEntry | standardpaths/windows.py:127-130 | The second entry succeeds exactly when the folder lookup does. It is the bare folder for the generic kinds, and the folder plus the caller's organisation and application otherwise. Any failure is `UnboundLocalError`. |
| Windows.StandardPaths | standardpaths/windows.py:124-139 | The list has two entries exactly for the five data and config kinds, and one otherwise. It starts with the writable path resolved with the global identity. It fails only with `UnboundLocalError`. |
| Windows.GenericKindsListedTwice | standardpaths/windows.py:127-129 | `generic_data` and `generic_config` list the same folder twice: nothing is de-duplicated. |
| Windows.StandardPathsFailOnlyWithWritable | standardpaths/windows.py:124-132 | The list fails exactly when its first entry fails. |
| Windows.ListedTwiceWritable | standardpaths/windows.py:102-106 | For the data and config kinds, the writable path fails exactly when their folder lookup does. |
| Windows.DataConfigDependsOnEffective | standardpaths/windows.py:58-69 | The data/config lookup depends on the caller's identity only through the effective one. |
| Windows.WritableDependsOnEffective | standardpaths/windows.py:72-121 | So does the writable path. |
| Windows.OnlyEffectiveConfigMatters | standardpaths/windows.py:72-139 | Passing no identity resolves exactly like passing the global one, for both entry points. |
| Facade.Coerce | standardpaths/__init__.py:33-34 | A member is used as it is. Anything else is looked up by its string. |
| Facade.WritablePath | standardpaths/__init__.py:25-37 | A failed coercion is the error. Otherwise the selected resolver's result is passed on; only the Windows resolver can give `None`. |
| Facade.StandardPaths | standardpaths/__init__.py:40-54 | A failed coercion is the error. On XDG systems and macOS the list is passed on unchanged: it fails exactly when the resolver's list does, with the same error, and otherwise has the same length and holds each entry. On Windows it is that resolver's list. |
| Facade.NameIsMember | standardpaths/__init__.py:33-54 | Passing a member's name is the same as passing the member, for both entry points and their effect on the filesystem. |
| Facade.AppLocalDataAlias | standardpaths/__init__.py:50-54 | "app_local_data" resolves exactly like "data". |
| Facade.UnknownNameIsKeyError | standardpaths/__init__.py:33-34 | A name that is no member raises `KeyError` before any resolver runs, and changes nothing. |
| Facade.FirstEntryIsWritable | standardpaths/__init__.py:40-54 | On every system the list starts with the writable path and fails exactly when it does. The caller's identity is used on XDG systems and the global identity elsewhere. |
| Facade.NoConfigMeansGlobal | standardpaths/__init__.py:25-54 | Omitting `config` resolves exactly like passing the global identity. |
| Facade.GetWritablePath | standardpaths/__init__.py:25-37 | The entry point returns the specified path of the selected resolver, read with the current global identity. Only the XDG resolver changes the filesystem. |
| Facade.GetStandardPaths | standardpaths/__init__.py:40-54 | Likewise for the list. |

## Left out

- Native and system services are parameters of the model, not modelled:
  - `os.environ`, `tempfile.gettempdir`, `pwd.getpwuid`, `os.path.expandvars`;
  - reading `user-dirs.dirs`, and the umask `mkdir` applies;
  - the Carbon, Foundation and shell32 calls, with their buffers, UTF-8 and wide-string decoding, and the `FSRef`/`GUID` structures.
- Windows paths are taken as already parsed. Windows path syntax (drives, backslashes) is not modelled.
- `os.path.expanduser` is modelled only for "~" and "~/…" of the current user. "~user" forms and the `pwd` fallback when `HOME` is unset are not modelled.
- `os.path.normpath` is modelled for absolute paths with one leading slash. The POSIX rule that keeps exactly two leading slashes is not modelled.
- pathlib is modelled for the paths the resolvers build. A part that pathlib would itself split is not modelled. Neither is an absolute part, which would replace the path (an organisation or application name containing "/").
- PosixPath.ParsePath: pathlib keeps exactly two leading slashes as the root "//" ("//srv/x" has the parts "//", "srv", "x"); the model parses every absolute string with the root "/".
- The `logger.warning` of the runtime fallback (unix.py:80-84) is left out: logging has no effect on results.
- Under `python -O`, the `assert value` (unix.py:117) is stripped, and an empty user-dirs entry would be returned. The model keeps the assert, treating an empty entry as absent.
- `stat`, `chmod` and `owner` failures other than a missing directory are not modelled. `mkdir` fails in the model only when the parent is missing: `PermissionError` and an existing non-directory are not modelled. Neither are races with other processes changing the directory.
- The Qt application-bundle and application-directory entries the source deliberately skips (osx.py:152-154, windows.py:134-137) are not modelled.
- The regular expression's `\s*` before the end of a line adds nothing once newlines are removed: the greedy `(.*)` before it keeps any trailing spaces in the value. The model therefore matches without it.
- `Location` members are compared by identity. `isinstance` accepts only members, and every other argument reaches `Location[str(x)]`, which the model receives as that string.
- PosixPath.Split: its own contract says only that there is at least one piece. What splitting does is proved in `SplitPiecesLackSep`, `JoinSplit`, `SplitJoin` and `SplitAround`.
- PosixPath.Names: its own contract bounds the length. What it keeps is proved in `NamesShape`.
- PosixPath.RStrip: its own contract bounds the length. The shape of the result is proved in `RStripShape`.
- PosixPath.LStrip: its own contract bounds the length. The shape of the result is proved in `LStripShape`.
- PosixPath.ExpandUser: the contract covers strings left unchanged. The home cases are proved in `ExpandHome` and `ExpandUserUnderHome`.
- PosixPath.NormAbs: its own contract gives only the root. `NormAbsShape` proves that only names follow it, `NormAbsWithoutParent` that a path without ".." keeps its parsed parts, and `ParentRemovesName` what ".." removes. The full result for an arbitrary mix of ".." is not stated apart from the definition of `Collapse`.
- Unix.AbsoluteEntries: its own contract bounds the length. Its meaning is proved in `AbsoluteEntriesNormal`, `AbsoluteEntriesComplete`, `AbsoluteEntriesSound`, `AbsoluteEntriesCons`, `AbsoluteEntriesAppend` and `AbsoluteEntriesPrefix`.
- Unix.MatchUserDir: its own contract gives only the length. The match is characterised in `MatchUserDirSound` and `MatchUserDirComplete`.
- Unix.GetPath: its own contract says only that a string default cannot fail. The values are stated in `SetVariableWins` and `DefaultUnderHome`.
- Base.ConfigStore.GetConfig: `get_config` returns the live `Config` object. A caller that sets its fields changes every later resolution without calling `configure`, and a reference taken before `configure` keeps the old object. The model returns the identity as a value, so this aliasing is not captured.
