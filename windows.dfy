/** Model of standardpaths/windows.py: the resolver for Windows, which asks
    the shell for CSIDL folders (`SHGetFolderPathW`) and, when the function
    exists, for the Downloads known folder (`SHGetKnownFolderPath`). Paths
    come back from those services already parsed. */
module Windows {
  import opened Base

  /** The CSIDL values the resolver uses. */
  const CSIDL_PROGRAMS: int := 0x0002
  const CSIDL_PERSONAL: int := 0x0005
  const CSIDL_MYMUSIC: int := 0x000d
  const CSIDL_MYVIDEO: int := 0x000e
  const CSIDL_DESKTOPDIRECTORY: int := 0x0010
  const CSIDL_FONTS: int := 0x0014
  const CSIDL_APPDATA: int := 0x001a
  const CSIDL_LOCAL_APPDATA: int := 0x001c
  const CSIDL_MYPICTURES: int := 0x0027

  datatype Host = Host(
    home: Path,                                // pathlib.Path(os.path.expanduser('~'))
    temp: Path,                                // pathlib.Path(tempfile.gettempdir())
    folderPath: int -> (int, Path),            // SHGetFolderPathW(csidl): status, path
    knownDownloads: Option<(int, Path)>)       // SHGetKnownFolderPath(FOLDERID_Downloads); None: no such function

  /** `_get_data_config_path`'s folder: the roaming one for `app_data`
      only, the local one for every other kind. */
  function DataConfigFolder(loc: Location): (id: int)
    ensures id == CSIDL_APPDATA <==> loc == AppData
    ensures id == CSIDL_LOCAL_APPDATA <==> loc != AppData
  {
    if loc == AppData then CSIDL_APPDATA else CSIDL_LOCAL_APPDATA
  }

  /** `_get_data_config_path(location, config)`. A failing lookup builds a
      `LocationError` that is never raised, so the next line reads the
      unbound `path` and raises `UnboundLocalError`. */
  function DataConfigPath(h: Host, loc: Location, config: Option<Config>, global: Config): (r: Result<Path>)
    ensures var (status, path) := h.folderPath(DataConfigFolder(loc));
      && (r.Ok? <==> status == 0)
      && (r.Ok? ==> r.value == AppendOrgAndApp(path, config, global))
      && (r.Err? ==> r.error == UnboundLocal("path"))
  {
    var (status, path) := h.folderPath(DataConfigFolder(loc));
    if status != 0 then Err(UnboundLocal("path")) else Ok(AppendOrgAndApp(path, config, global))
  }

  /** The identity `Config('', '')` the generic kinds are resolved with. */
  const NoIdentity: Config := MakeConfig("", "")

  /** The CSIDL table of `get_writable_path`; kinds not in it get the
      desktop directory. */
  function TableFolder(loc: Location): (id: int)
    ensures id == CSIDL_PERSONAL <==> loc in {Documents, Download}
    ensures id == CSIDL_DESKTOPDIRECTORY <==> loc !in {Applications, Documents, Download, Fonts, Music, Movies, Pictures}
    ensures id == CSIDL_PROGRAMS <==> loc == Applications
    ensures id == CSIDL_FONTS <==> loc == Fonts
    ensures id == CSIDL_MYMUSIC <==> loc == Music
    ensures id == CSIDL_MYVIDEO <==> loc == Movies
    ensures id == CSIDL_MYPICTURES <==> loc == Pictures
  {
    match loc
    case Applications => CSIDL_PROGRAMS
    case Desktop => CSIDL_DESKTOPDIRECTORY
    case Documents => CSIDL_PERSONAL
    case Download => CSIDL_PERSONAL
    case Fonts => CSIDL_FONTS
    case Music => CSIDL_MYMUSIC
    case Movies => CSIDL_MYVIDEO
    case Pictures => CSIDL_MYPICTURES
    case _ => CSIDL_DESKTOPDIRECTORY
  }

  /** The table branch: the folder, or `None` when the lookup fails (the
      `LocationError` is built and dropped, and the function falls off its
      end). */
  function TablePath(h: Host, loc: Location): (r: Option<Path>)
    ensures r.None? <==> h.folderPath(TableFolder(loc)).0 != 0
    ensures r.Some? ==> r.value == h.folderPath(TableFolder(loc)).1
  {
    var (status, path) := h.folderPath(TableFolder(loc));
    if status != 0 then None else Some(path)
  }

  /** The known-folder call succeeded. */
  predicate KnownDownloadsFound(h: Host) {
    h.knownDownloads.Some? && h.knownDownloads.value.0 == 0
  }

  /** `get_writable_path(location, config)`; `Ok(None)` is the `None` the
      source returns. */
  function WritablePath(h: Host, loc: Location, config: Option<Config>, global: Config): (r: Result<Option<Path>>)
    ensures r.Err? ==> r.error == UnboundLocal("path")
    ensures r == Ok(None) <==>
      && loc !in DataConfigKinds && loc !in {Home, Runtime, Temp}
      && !(loc == Download && KnownDownloadsFound(h))
      && h.folderPath(TableFolder(loc)).0 != 0
    ensures loc !in DataConfigKinds && loc !in {Home, Runtime, Temp} && !(loc == Download && KnownDownloadsFound(h)) ==>
      r == Ok(TablePath(h, loc))
    decreases if loc == GenericCache || loc == Cache then 1 else 0
  {
    match loc
    case Home => Ok(Some(h.home))
    case Runtime => Ok(Some(h.home))
    case Temp => Ok(Some(h.temp))
    case GenericCache =>
      var base :- WritablePath(h, GenericData, None, global);
      Ok(Some(base.value + ["cache"]))
    case Cache =>
      var base :- WritablePath(h, AppLocalData, None, global);
      Ok(Some(base.value + ["cache"]))
    case GenericData =>
      var path :- DataConfigPath(h, loc, Some(NoIdentity), global);
      Ok(Some(path))
    case GenericConfig =>
      var path :- DataConfigPath(h, loc, Some(NoIdentity), global);
      Ok(Some(path))
    case Data =>
      var path :- DataConfigPath(h, loc, config, global);
      Ok(Some(path))
    case AppData =>
      var path :- DataConfigPath(h, loc, config, global);
      Ok(Some(path))
    case Config =>
      var path :- DataConfigPath(h, loc, config, global);
      Ok(Some(path))
    case Download =>
      if KnownDownloadsFound(h) then Ok(Some(h.knownDownloads.value.1)) else Ok(TablePath(h, loc))
    case _ => Ok(TablePath(h, loc))
  }

  /** `home` and `runtime` are both the home directory; `temp` is the
      temporary directory. */
  lemma HomeRuntimeTemp(h: Host, config: Option<Config>, global: Config)
    ensures WritablePath(h, Home, config, global) == WritablePath(h, Runtime, config, global) == Ok(Some(h.home))
    ensures WritablePath(h, Temp, config, global) == Ok(Some(h.temp))
  {
  }

  /** `generic_cache` is `generic_data` plus "cache": the local app-data
      folder itself, without organisation or application. */
  lemma GenericCacheUnderGenericData(h: Host, config: Option<Config>, global: Config)
    ensures var (status, path) := h.folderPath(CSIDL_LOCAL_APPDATA);
      && (WritablePath(h, GenericCache, config, global).Ok? <==> status == 0)
      && (status == 0 ==> WritablePath(h, GenericCache, config, global) == Ok(Some(path + ["cache"])))
  {
    assert AppendOrgAndApp(h.folderPath(CSIDL_LOCAL_APPDATA).1, Some(NoIdentity), global)
      == h.folderPath(CSIDL_LOCAL_APPDATA).1;
  }

  /** `cache` is `app_local_data` plus "cache", and is resolved with the
      global identity whatever the caller passes. */
  lemma CacheIgnoresCallerConfig(h: Host, config: Option<Config>, global: Config)
    ensures WritablePath(h, Cache, config, global) == WritablePath(h, Cache, None, global)
    ensures var (status, path) := h.folderPath(CSIDL_LOCAL_APPDATA);
      && (WritablePath(h, Cache, config, global).Ok? <==> status == 0)
      && (status == 0 ==>
          WritablePath(h, Cache, config, global) == Ok(Some(AppendOrgAndApp(path, None, global) + ["cache"])))
  {
  }

  /** The generic kinds use the local folder and never add the
      organisation or application, whatever the caller passes. */
  lemma GenericKindsIgnoreIdentity(h: Host, loc: Location, config: Option<Config>, global: Config)
    requires loc == GenericData || loc == GenericConfig
    ensures var (status, path) := h.folderPath(CSIDL_LOCAL_APPDATA);
      && (WritablePath(h, loc, config, global).Ok? <==> status == 0)
      && (status == 0 ==> WritablePath(h, loc, config, global) == Ok(Some(path)))
  {
    assert AppendOrgAndApp(h.folderPath(CSIDL_LOCAL_APPDATA).1, Some(NoIdentity), global)
      == h.folderPath(CSIDL_LOCAL_APPDATA).1;
  }

  /** `app_data` uses the roaming folder, `data` (`app_local_data`) and
      `config` the local one, each with the caller's organisation and
      application. */
  lemma AppKindsUseCallerIdentity(h: Host, loc: Location, config: Option<Config>, global: Config)
    requires loc == AppData || loc == Data || loc == Config
    ensures var (status, path) := h.folderPath(if loc == AppData then CSIDL_APPDATA else CSIDL_LOCAL_APPDATA);
      && (WritablePath(h, loc, config, global).Ok? <==> status == 0)
      && (status == 0 ==> WritablePath(h, loc, config, global) == Ok(Some(AppendOrgAndApp(path, config, global))))
  {
  }

  /** `download` is the known folder when the call exists and succeeds,
      and otherwise the documents folder. */
  lemma DownloadFallsBackToDocuments(h: Host, config: Option<Config>, global: Config)
    ensures KnownDownloadsFound(h) ==> WritablePath(h, Download, config, global) == Ok(Some(h.knownDownloads.value.1))
    ensures !KnownDownloadsFound(h) ==>
      WritablePath(h, Download, config, global) == WritablePath(h, Documents, config, global)
  {
  }

  /** A kind outside the table, such as `log`, is the desktop directory. */
  lemma UnlistedKindIsDesktop(h: Host, config: Option<Config>, global: Config)
    ensures WritablePath(h, Log, config, global) == WritablePath(h, Desktop, config, global)
  {
  }

  /** The kinds resolved through `_get_data_config_path`. */
  const DataConfigKinds: set<Location> := {GenericData, GenericConfig, Data, AppData, Config, GenericCache, Cache}

  /** Nothing is ever raised as `LocationError`: a failing table lookup is
      `None`, and a failing data/config lookup is `UnboundLocalError`. */
  lemma NeverLocationError(h: Host, loc: Location, config: Option<Config>, global: Config)
    ensures WritablePath(h, loc, config, global).Err? ==>
      loc in DataConfigKinds && WritablePath(h, loc, config, global).error == UnboundLocal("path")
    ensures loc !in DataConfigKinds ==> WritablePath(h, loc, config, global).Ok?
  {
    match loc
    case Home => case Runtime => case Temp => case GenericCache => case Cache =>
    case GenericData => case GenericConfig => case Data => case AppData => case Config =>
    case Download => case Desktop => case Documents => case Fonts => case Applications =>
    case Music => case Movies => case Pictures => case Log =>
  }

  /** The kinds whose list gets a second entry. */
  const ListedTwice: set<Location> := {GenericData, GenericConfig, Data, AppData, Config}

  /** The second entry: the generic kinds with the empty identity, the
      application kinds with the caller's. */
  function SecondEntry(h: Host, loc: Location, config: Option<Config>, global: Config): (r: Result<Path>)
    ensures var (status, path) := h.folderPath(DataConfigFolder(loc));
      && (r.Ok? <==> status == 0)
      && (r.Err? ==> r.error == UnboundLocal("path"))
      && (r.Ok? && loc in {GenericData, GenericConfig} ==> r.value == path)
      && (r.Ok? && loc !in {GenericData, GenericConfig} ==> r.value == AppendOrgAndApp(path, config, global))
  {
    if loc == GenericData || loc == GenericConfig then DataConfigPath(h, loc, Some(NoIdentity), global)
    else DataConfigPath(h, loc, config, global)
  }

  /** `get_standard_paths(location, config)`: the writable path resolved
      with the global identity, then one data/config path for five kinds. */
  function StandardPaths(h: Host, loc: Location, config: Option<Config>, global: Config): (r: Result<seq<Option<Path>>>)
    ensures r.Ok? <==> WritablePath(h, loc, None, global).Ok? && (loc in ListedTwice ==> SecondEntry(h, loc, config, global).Ok?)
    ensures r.Ok? ==> (|r.value| == 2 <==> loc in ListedTwice) && (|r.value| == 1 <==> loc !in ListedTwice)
    ensures r.Ok? ==> r.value[0] == WritablePath(h, loc, None, global).value
    ensures r.Ok? && loc in ListedTwice ==> r.value[1] == Some(SecondEntry(h, loc, config, global).value)
    ensures r.Err? ==> r.error == UnboundLocal("path")
  {
    var first :- WritablePath(h, loc, None, global);
    if loc in ListedTwice then
      var second :- SecondEntry(h, loc, config, global);
      Ok([first, Some(second)])
    else Ok([first])
  }

  /** The generic kinds list the same directory twice: there is no
      de-duplication. */
  lemma GenericKindsListedTwice(h: Host, loc: Location, config: Option<Config>, global: Config)
    requires loc == GenericData || loc == GenericConfig
    requires h.folderPath(CSIDL_LOCAL_APPDATA).0 == 0
    ensures StandardPaths(h, loc, config, global)
      == Ok([Some(h.folderPath(CSIDL_LOCAL_APPDATA).1), Some(h.folderPath(CSIDL_LOCAL_APPDATA).1)])
  {
    GenericKindsIgnoreIdentity(h, loc, None, global);
    assert AppendOrgAndApp(h.folderPath(CSIDL_LOCAL_APPDATA).1, Some(NoIdentity), global)
      == h.folderPath(CSIDL_LOCAL_APPDATA).1;
  }

  /** The second entry reads the same folder as the first, so the list
      fails exactly when the writable path (resolved with the global
      identity) fails. */
  lemma StandardPathsFailOnlyWithWritable(h: Host, loc: Location, config: Option<Config>, global: Config)
    ensures StandardPaths(h, loc, config, global).Ok? <==> WritablePath(h, loc, None, global).Ok?
  {
    if loc in ListedTwice {
      var status := h.folderPath(DataConfigFolder(loc)).0;
      assert SecondEntry(h, loc, config, global).Ok? <==> status == 0;
      ListedTwiceWritable(h, loc, global);
    }
  }

  /** For the kinds listed twice, the writable path fails exactly when
      their data/config folder lookup does. */
  lemma ListedTwiceWritable(h: Host, loc: Location, global: Config)
    requires loc in ListedTwice
    ensures WritablePath(h, loc, None, global).Ok? <==> h.folderPath(DataConfigFolder(loc)).0 == 0
  {
    match loc
    case GenericData => case GenericConfig => case Data => case AppData => case Config =>
  }

  /** The data/config lookup depends on the caller's `config` only
      through the identity in effect. */
  lemma DataConfigDependsOnEffective(h: Host, loc: Location, c1: Option<Config>, c2: Option<Config>, global: Config)
    requires Effective(c1, global) == Effective(c2, global)
    ensures DataConfigPath(h, loc, c1, global) == DataConfigPath(h, loc, c2, global)
  {
  }

  lemma WritableDependsOnEffective(h: Host, loc: Location, c1: Option<Config>, c2: Option<Config>, global: Config)
    requires Effective(c1, global) == Effective(c2, global)
    ensures WritablePath(h, loc, c1, global) == WritablePath(h, loc, c2, global)
  {
    DataConfigDependsOnEffective(h, loc, c1, c2, global);
  }

  /** The caller's `config` matters only through the identity in effect:
      `None` resolves exactly as the current global identity. */
  lemma OnlyEffectiveConfigMatters(h: Host, loc: Location, c1: Option<Config>, c2: Option<Config>, global: Config)
    requires Effective(c1, global) == Effective(c2, global)
    ensures WritablePath(h, loc, c1, global) == WritablePath(h, loc, c2, global)
    ensures StandardPaths(h, loc, c1, global) == StandardPaths(h, loc, c2, global)
  {
    WritableDependsOnEffective(h, loc, c1, c2, global);
    DataConfigDependsOnEffective(h, loc, c1, c2, global);
    assert SecondEntry(h, loc, c1, global) == SecondEntry(h, loc, c2, global);
  }
}
