/** Model of standardpaths/base.py: the catalogue of location kinds, the
    application identity (`Config`) and the process-wide current one, the
    organisation/application path join, and the choice of platform module.
    Also holds the few types every resolver shares: paths, the source's
    exceptions as an `Error`, and `Result`/`Option`. */
module Base {

  /** A path as pathlib's `parts`: an absolute POSIX path starts with the
      part "/", and `p / name` appends one part. The empty sequence is
      `pathlib.Path()` (that is, "."). */
  type Path = seq<string>

  datatype Option<+T> = None | Some(value: T)

  /** The exceptions the resolvers let escape. */
  datatype Error =
    | KeyError(key: string)                                      // `Location[name]`, missing RAISE variable
    | FileNotFound(path: Path)                                   // open/stat/mkdir of a missing path
    | FileExists(path: Path)                                     // mkdir of an existing path
    | WrongOwnership(path: Path, owner: string, expected: string) // LocationError, runtime directory
    | NotResolved(location: Location, code: int)                 // LocationError, FSFindFolder/FSRefMakePath
    | DownloadNotResolved(description: string)                   // LocationError, NSFileManager
    | UnboundLocal(name: string)                                 // UnboundLocalError
  {
    /** The errors the source raises as `LocationError`. */
    predicate IsLocationError() {
      WrongOwnership? || NotResolved? || DownloadNotResolved?
    }
  }

  /** A value or the exception that was raised instead. */
  datatype Result<+T> = Ok(value: T) | Err(error: Error) {
    predicate IsFailure() { Err? }
    function PropagateFailure<U>(): Result<U> requires Err? { Err(error) }
    function Extract(): T requires Ok? { value }
  }

  /** The members of the `Location` enum, in declaration order. The alias
      `app_local_data` is not a member of its own: see `AppLocalData`. */
  datatype Location =
    | Desktop | Documents | Fonts | Applications | Music | Movies | Pictures
    | Temp | Home | Data | Cache | GenericData | Runtime | Config | Download
    | GenericCache | GenericConfig | AppData | Log

  /** `app_local_data = data` in the enum body makes the name an alias:
      `Location.app_local_data is Location.data`. */
  const AppLocalData: Location := Data

  /** The value of an enum member: Qt's integer, or a string for `log`. */
  datatype EnumValue = IntValue(n: int) | StrValue(s: string)

  /** Qt's `QStandardPaths::StandardLocation` numbers 0 to 17 for every
      member but `log`, whose value is its own name. */
  function Value(l: Location): (v: EnumValue)
    ensures v.IntValue? <==> l != Log
    ensures v.IntValue? ==> 0 <= v.n <= 17
    ensures v.StrValue? ==> v.s == "log"
  {
    match l
    case Desktop => IntValue(0)
    case Documents => IntValue(1)
    case Fonts => IntValue(2)
    case Applications => IntValue(3)
    case Music => IntValue(4)
    case Movies => IntValue(5)
    case Pictures => IntValue(6)
    case Temp => IntValue(7)
    case Home => IntValue(8)
    case Data => IntValue(9)
    case Cache => IntValue(10)
    case GenericData => IntValue(11)
    case Runtime => IntValue(12)
    case Config => IntValue(13)
    case Download => IntValue(14)
    case GenericCache => IntValue(15)
    case GenericConfig => IntValue(16)
    case AppData => IntValue(17)
    case Log => StrValue("log")
  }

  /** The enum's table of values, member by member. */
  lemma ValueTable()
    ensures Value(Desktop) == IntValue(0) && Value(Documents) == IntValue(1)
    ensures Value(Fonts) == IntValue(2) && Value(Applications) == IntValue(3)
    ensures Value(Music) == IntValue(4) && Value(Movies) == IntValue(5)
    ensures Value(Pictures) == IntValue(6) && Value(Temp) == IntValue(7)
    ensures Value(Home) == IntValue(8) && Value(Data) == IntValue(9)
    ensures Value(Cache) == IntValue(10) && Value(GenericData) == IntValue(11)
    ensures Value(Runtime) == IntValue(12) && Value(Config) == IntValue(13)
    ensures Value(Download) == IntValue(14) && Value(GenericCache) == IntValue(15)
    ensures Value(GenericConfig) == IntValue(16) && Value(AppData) == IntValue(17)
    ensures Value(Log) == StrValue("log")
  {
  }

  /** The canonical member name, `location.name`. */
  function Name(l: Location): (n: string)
    ensures n != "" && n != "app_local_data"
  {
    match l
    case Desktop => "desktop"
    case Documents => "documents"
    case Fonts => "fonts"
    case Applications => "applications"
    case Music => "music"
    case Movies => "movies"
    case Pictures => "pictures"
    case Temp => "temp"
    case Home => "home"
    case Data => "data"
    case Cache => "cache"
    case GenericData => "generic_data"
    case Runtime => "runtime"
    case Config => "config"
    case Download => "download"
    case GenericCache => "generic_cache"
    case GenericConfig => "generic_config"
    case AppData => "app_data"
    case Log => "log"
  }

  /** `Location[name]`: the member of that name, the aliased member for
      "app_local_data", and `KeyError` for anything else. */
  function FromName(name: string): (r: Result<Location>)
    ensures r.Ok? ==> Name(r.value) == name || (name == "app_local_data" && r.value == AppLocalData)
    ensures r.Err? ==> name != "app_local_data" && (forall l :: Name(l) != name) && r.error == KeyError(name)
  {
    if name == "desktop" then Ok(Desktop)
    else if name == "documents" then Ok(Documents)
    else if name == "fonts" then Ok(Fonts)
    else if name == "applications" then Ok(Applications)
    else if name == "music" then Ok(Music)
    else if name == "movies" then Ok(Movies)
    else if name == "pictures" then Ok(Pictures)
    else if name == "temp" then Ok(Temp)
    else if name == "home" then Ok(Home)
    else if name == "data" then Ok(Data)
    else if name == "cache" then Ok(Cache)
    else if name == "generic_data" then Ok(GenericData)
    else if name == "runtime" then Ok(Runtime)
    else if name == "config" then Ok(Config)
    else if name == "download" then Ok(Download)
    else if name == "generic_cache" then Ok(GenericCache)
    else if name == "generic_config" then Ok(GenericConfig)
    else if name == "app_data" then Ok(AppData)
    else if name == "app_local_data" then Ok(AppLocalData)
    else if name == "log" then Ok(Log)
    else Err(KeyError(name))
  }

  /** Every member is found again under its own name. */
  lemma NameRoundTrip(l: Location)
    ensures FromName(Name(l)) == Ok(l)
  {
    match l { case _ => }
  }

  /** The alias names the member `data`, whose value is 9. */
  lemma AppLocalDataIsData()
    ensures FromName("app_local_data") == FromName("data") == Ok(Data)
    ensures Value(AppLocalData) == IntValue(9)
  {
  }

  /** Apart from the alias, members have pairwise distinct values, and
      `log` has the string value "log". */
  lemma ValuesDistinct(l1: Location, l2: Location)
    ensures Value(l1) == Value(l2) ==> l1 == l2
    ensures Value(Log) == StrValue("log")
  {
    match l1 { case _ => match l2 { case _ => } }
  }

  /** The application identity: `Config(application_name, organization_name)`. */
  datatype Config = MakeConfig(applicationName: string, organizationName: string)

  /** The module-global `_config`, replaced wholesale by `configure`. */
  class ConfigStore {
    var current: Config

    /** The value `_config` has at import time. */
    constructor ()
      ensures current == MakeConfig("", "")
    {
      current := MakeConfig("", "");
    }

    /** `configure(application_name='', organization_name='')`. */
    method Configure(applicationName: string := "", organizationName: string := "")
      modifies this
      ensures current == MakeConfig(applicationName, organizationName)
    {
      current := MakeConfig(applicationName, organizationName);
    }

    /** `get_config()`. */
    function GetConfig(): (c: Config)
      reads this
      ensures c == current
    {
      current
    }
  }

  /** A caller that configures, reads back, and configures again sees the
      last write only; omitted arguments read back as "". */
  method ConfigureLastWriteWins(store: ConfigStore, a1: string, o1: string, a2: string)
    modifies store
    ensures store.GetConfig() == MakeConfig(a2, "")
  {
    store.Configure(a1, o1);
    assert store.GetConfig() == MakeConfig(a1, o1);
    store.Configure(a2);
  }

  /** The identity in effect for a call: the caller's, or else the global one. */
  function Effective(config: Option<Config>, global: Config): (c: Config)
    ensures config.Some? ==> c == config.value
    ensures config.None? ==> c == global
  {
    match config
    case Some(given) => given
    case None => global
  }

  function NonEmptyCount(c: Config): (n: nat)
    ensures n <= 2
  {
    (if c.organizationName != "" then 1 else 0) + (if c.applicationName != "" then 1 else 0)
  }

  /** `_append_org_and_app(path, config)`: the organisation part then the
      application part, each only when non-empty; a `None` config means the
      current global one. */
  function AppendOrgAndApp(path: Path, config: Option<Config>, global: Config): (r: Path)
    ensures var c := Effective(config, global);
      && |r| == |path| + NonEmptyCount(c)
      && r[..|path|] == path
      && (c.organizationName != "" ==> r[|path|] == c.organizationName)
      && (c.applicationName != "" ==> r[|r| - 1] == c.applicationName)
      && (c.organizationName == "" && c.applicationName == "" ==> r == path)
  {
    var c := Effective(config, global);
    var withOrg := if c.organizationName != "" then path + [c.organizationName] else path;
    if c.applicationName != "" then withOrg + [c.applicationName] else withOrg
  }

  /** Only the identity in effect matters: passing `None` and passing the
      current global identity append the same parts. */
  lemma AppendDependsOnEffective(c1: Option<Config>, c2: Option<Config>, global: Config)
    requires Effective(c1, global) == Effective(c2, global)
    ensures forall path :: AppendOrgAndApp(path, c1, global) == AppendOrgAndApp(path, c2, global)
  {
  }

  /** The platform modules. */
  datatype Module = OsxModule | WindowsModule | UnixModule

  /** `_get_implementation()` keyed by `platform.system()`. */
  function Implementation(system: string): (m: Module)
    ensures m == OsxModule <==> system == "Darwin"
    ensures m == WindowsModule <==> system == "Windows"
    ensures m == UnixModule <==> system != "Darwin" && system != "Windows"
  {
    if system == "Darwin" then OsxModule
    else if system == "Windows" then WindowsModule
    else UnixModule
  }
}
